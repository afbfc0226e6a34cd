/**
  The check `updateMessages` applies to the LRS name parameter: an `if/elif`
  chain over a leading space, the pattern `^[a-zA-Z0-9_\- ]+$` searched with
  Python's `re.search`, and a length limit of 32.
 */
module LrsName {
  import opened Optional

  /** The three name messages, in the order the chain tries them. */
  datatype NameError = StartsWithSpace | SpecialCharacters | TooLong

  const MaxNameLength: nat := 32

  function NameErrorText(e: NameError): string
  {
    match e
    case StartsWithSpace => "The specified name cannot start with a space."
    case SpecialCharacters => "The specified name contains special characters (except space, -, _)."
    case TooLong => "The specified name exceeds maximum length of 32."
  }

  /** Membership in the character class `[a-zA-Z0-9_\- ]`. */
  predicate IsNameChar(c: char)
  {
    ('a' <= c <= 'z') || ('A' <= c <= 'Z') || ('0' <= c <= '9') || c == '_' || c == '-' || c == ' '
  }

  /** Every character of `s` is in the class (`[...]*` matches all of `s`). */
  predicate AllNameChars(s: string)
  {
    s == [] || (IsNameChar(s[0]) && AllNameChars(s[1..]))
  }

  /**
    `re.search(r'^[a-zA-Z0-9_\- ]+$', s)` finds a match. Outside multiline
    mode `$` matches at the very end and also just before a newline that is
    the last character, so one trailing `\n` is let through.
   */
  predicate MatchesPattern(s: string)
  {
    (|s| > 0 && AllNameChars(s))
    || (|s| > 1 && s[|s| - 1] == '\n' && AllNameChars(s[..|s| - 1]))
  }

  /**
    The first failing check of the chain, or None. `lrsName[0]` raises on an
    empty name, so the chain is only defined on non-empty names.
   */
  function CheckName(name: string): Option<NameError>
    requires |name| > 0
  {
    if name[0] == ' ' then Some(StartsWithSpace)
    else if !MatchesPattern(name) then Some(SpecialCharacters)
    else if |name| > MaxNameLength then Some(TooLong)
    else None
  }

  /** A character is tolerated at position `i` of `s`: in the class, or the final newline after at least one character. */
  predicate ToleratedAt(s: string, i: int)
    requires 0 <= i < |s|
  {
    IsNameChar(s[i]) || (i == |s| - 1 && i > 0 && s[i] == '\n')
  }

  /** The recursive class check agrees with its per-character reading. */
  lemma {:induction false} AllNameCharsIff(s: string)
    ensures AllNameChars(s) <==> forall i :: 0 <= i < |s| ==> IsNameChar(s[i])
  {
    if s != [] {
      AllNameCharsIff(s[1..]);
      assert forall i :: 1 <= i < |s| ==> s[i] == s[1..][i - 1];
    }
  }

  /** The pattern matches exactly the non-empty names whose every character is tolerated. */
  lemma MatchesPatternIff(s: string)
    ensures MatchesPattern(s) <==> |s| > 0 && forall i :: 0 <= i < |s| ==> ToleratedAt(s, i)
  {
    AllNameCharsIff(s);
    if |s| > 1 {
      var init := s[..|s| - 1];
      AllNameCharsIff(init);
      assert forall i :: 0 <= i < |init| ==> init[i] == s[i];
      if AllNameChars(init) && s[|s| - 1] == '\n' {
        forall i | 0 <= i < |s| ensures ToleratedAt(s, i) {
          if i < |s| - 1 { assert IsNameChar(init[i]); }
        }
      }
      if forall i :: 0 <= i < |s| ==> ToleratedAt(s, i) {
        forall i | 0 <= i < |init| ensures IsNameChar(init[i]) {
          assert ToleratedAt(s, i);
        }
        if IsNameChar(s[|s| - 1]) {
          assert forall i :: 0 <= i < |s| ==> IsNameChar(s[i]);
        } else {
          assert ToleratedAt(s, |s| - 1);
        }
      }
    } else if |s| == 1 {
      assert ToleratedAt(s, 0) <==> IsNameChar(s[0]);
    }
  }

  /**
    Each verdict of the chain in terms of the name's characters: a leading
    space wins over everything, a character outside the class (other than one
    final newline) wins over the length, and only then is the length checked.
   */
  lemma NameVerdicts(name: string)
    requires |name| > 0
    ensures name[0] == ' ' <==> CheckName(name) == Some(StartsWithSpace)
    ensures CheckName(name) == Some(SpecialCharacters)
        <==> name[0] != ' ' && exists i :: 0 <= i < |name| && !ToleratedAt(name, i)
    ensures CheckName(name) == Some(TooLong)
        <==> name[0] != ' ' && (forall i :: 0 <= i < |name| ==> ToleratedAt(name, i)) && |name| > 32
    ensures CheckName(name) == None
        <==> name[0] != ' ' && (forall i :: 0 <= i < |name| ==> ToleratedAt(name, i)) && |name| <= 32
  {
    MatchesPatternIff(name);
  }

  /** Appending one newline to an accepted name that has room for it is not reported. */
  lemma TrailingNewlineTolerated(name: string)
    requires |name| > 0 && |name| < MaxNameLength
    requires CheckName(name) == None && name[|name| - 1] != '\n'
    ensures CheckName(name + "\n") == None
  {
    var s := name + "\n";
    assert s[..|s| - 1] == name;
    assert s[0] == name[0];
    assert MatchesPattern(s) by {
      MatchesPatternIff(name);
      AllNameCharsIff(name);
      forall i | 0 <= i < |name| ensures IsNameChar(name[i]) {
        assert ToleratedAt(name, i);
      }
      assert AllNameChars(name);
    }
  }
}
