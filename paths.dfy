/**
  Catalog paths as the script builds and takes them apart: joined with a
  backslash (`a + '\\' + b`), cut with `p.split('\\')[-1]` for the last
  segment and with `os.path.dirname` for the parent. Only backslash paths
  without a drive or UNC prefix are modelled.
 */
module Paths {

  const Sep: char := '\\'

  /** `d + '\\' + n`: the path of the child `n` of `d`. */
  function Join(d: string, n: string): string
  {
    d + [Sep] + n
  }

  /** A non-empty name with no separator in it. */
  predicate IsSegment(n: string)
  {
    |n| > 0 && Sep !in n
  }

  /** A non-empty path that does not end with a separator. */
  predicate Proper(p: string)
  {
    |p| > 0 && p[|p| - 1] != Sep
  }

  /** The index just after the last separator of `p`, or 0 when `p` has none. */
  function LastSepEnd(p: string): (k: nat)
    ensures k <= |p|
  {
    if p == [] then 0
    else if p[|p| - 1] == Sep then |p|
    else LastSepEnd(p[..|p| - 1])
  }

  /** `LastSepEnd` is the position after a separator with none following it. */
  lemma {:induction false} LastSepEndSpec(p: string)
    ensures LastSepEnd(p) > 0 ==> p[LastSepEnd(p) - 1] == Sep
    ensures forall i :: LastSepEnd(p) <= i < |p| ==> p[i] != Sep
  {
    if p != [] && p[|p| - 1] != Sep {
      LastSepEndSpec(p[..|p| - 1]);
    }
  }

  /** `p.split('\\')[-1]`: what follows the last separator (all of `p` without one). */
  function LastSegment(p: string): string
  {
    p[LastSepEnd(p)..]
  }

  /** Python's `p.split('\\')`, built from the front: the list of separator-free pieces. */
  function Split(p: string): (pieces: seq<string>)
    ensures |pieces| >= 1
    ensures |pieces| == 1 <==> Sep !in p
  {
    if p == [] then [[]]
    else
      var rest := Split(p[1..]);
      if p[0] == Sep then [[]] + rest
      else [[p[0]] + rest[0]] + rest[1..]
  }

  /** `'\\'.join(pieces)`. */
  function JoinPieces(pieces: seq<string>): string
    requires |pieces| >= 1
  {
    if |pieces| == 1 then pieces[0] else pieces[0] + [Sep] + JoinPieces(pieces[1..])
  }

  /** No piece of the split holds a separator. */
  lemma {:induction false} SplitPiecesAreSegments(p: string)
    ensures forall i :: 0 <= i < |Split(p)| ==> Sep !in Split(p)[i]
  {
    if p != [] {
      var rest := Split(p[1..]);
      SplitPiecesAreSegments(p[1..]);
      if p[0] != Sep {
        var pieces := [[p[0]] + rest[0]] + rest[1..];
        assert Sep !in [p[0]] + rest[0];
        assert forall i :: 1 <= i < |pieces| ==> pieces[i] == rest[i];
      }
    }
  }

  /** Putting text in front of the first piece puts it in front of the joined path. */
  lemma {:induction false} JoinPiecesPrepend(x: string, pieces: seq<string>)
    requires |pieces| >= 1
    ensures JoinPieces([x + pieces[0]] + pieces[1..]) == x + JoinPieces(pieces)
  {
    var longer := [x + pieces[0]] + pieces[1..];
    if |pieces| > 1 {
      var tail := JoinPieces(pieces[1..]);
      assert longer[1..] == pieces[1..];
      assert JoinPieces(longer) == (x + pieces[0]) + [Sep] + tail;
      assert (x + pieces[0]) + [Sep] + tail == x + (pieces[0] + [Sep] + tail);
    }
  }

  /** Splitting loses nothing: joining the pieces with separators gives `p` back. */
  lemma {:induction false} SplitRoundTrip(p: string)
    ensures JoinPieces(Split(p)) == p
  {
    if p != [] {
      var rest := Split(p[1..]);
      SplitRoundTrip(p[1..]);
      if p[0] == Sep {
        assert ([[]] + rest)[1..] == rest;
        assert p == [Sep] + p[1..];
      } else {
        JoinPiecesPrepend([p[0]], rest);
        assert p == [p[0]] + p[1..];
      }
    }
  }

  /** `h.rstrip('\\')`. */
  function TrimTrailingSeps(h: string): (t: string)
    ensures |t| <= |h|
  {
    if h == [] || h[|h| - 1] != Sep then h
    else TrimTrailingSeps(h[..|h| - 1])
  }

  /**
    `os.path.dirname(p)` on a backslash path without a drive: everything up
    to the last separator, trailing separators stripped unless nothing else
    is left.
   */
  function Dirname(p: string): string
  {
    var head := p[..LastSepEnd(p)];
    var trimmed := TrimTrailingSeps(head);
    if trimmed == [] then head else trimmed
  }

  /** How the last separator of `p` relates to that of `p` without its first character. */
  lemma {:induction false} LastSepEndTail(p: string)
    requires p != []
    ensures var k' := LastSepEnd(p[1..]);
            LastSepEnd(p) == if k' > 0 then k' + 1 else if p[0] == Sep then 1 else 0
  {
    if |p| > 1 && p[|p| - 1] != Sep {
      var q := p[..|p| - 1];
      assert q[1..] == p[1..][..|p[1..]| - 1];
      LastSepEndTail(q);
    }
  }

  /** The last element of Python's split list is the last segment. */
  lemma {:induction false} SplitLastIsLastSegment(p: string)
    ensures Split(p)[|Split(p)| - 1] == LastSegment(p)
  {
    if p != [] {
      var tail := p[1..];
      SplitLastIsLastSegment(tail);
      LastSepEndTail(p);
      LastSepEndSpec(tail);
      var k' := LastSepEnd(tail);
      if k' > 0 {
        assert Sep in tail by { assert tail[k' - 1] == Sep; }
        assert LastSegment(p) == LastSegment(tail);
      } else if p[0] != Sep {
        assert Sep !in tail;
        assert LastSegment(p) == [p[0]] + tail;
      }
    }
  }

  /** Splitting a joined path gives back the parent and the name. */
  lemma SplitJoin(d: string, n: string)
    requires Proper(d) && Sep !in n
    ensures LastSepEnd(Join(d, n)) == |d| + 1
    ensures Dirname(Join(d, n)) == d
    ensures LastSegment(Join(d, n)) == n
  {
    var p := Join(d, n);
    LastSepEndSpec(p);
    var k := LastSepEnd(p);
    assert p[|d|] == Sep;
    assert forall i :: |d| < i < |p| ==> p[i] == n[i - |d| - 1];
    assert k == |d| + 1;
    var head := p[..k];
    assert head == d + [Sep];
    var trimmed := TrimTrailingSeps(head);
    assert trimmed == d by {
      assert TrimTrailingSeps(head) == TrimTrailingSeps(head[..|head| - 1]);
      assert head[..|head| - 1] == d;
    }
  }

  /**
    Rebuilding a path from its parent and its last segment, as each schema
    helper does, gives the same path back when the separator before the last
    segment is single and has something before it.
   */
  lemma RebuildPath(p: string)
    requires LastSepEnd(p) > 1 && p[LastSepEnd(p) - 2] != Sep
    ensures Join(Dirname(p), LastSegment(p)) == p
  {
    LastSepEndSpec(p);
    var k := LastSepEnd(p);
    var d, n := p[..k - 1], p[k..];
    assert p == Join(d, n);
    SplitJoin(d, n);
  }
}
