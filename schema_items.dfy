/**
  The three schema helpers `execute` calls: `CreateRedlineFeatureClass`,
  `CreateCalibrationPointFeatureClass` and `CreateCenterlineSequenceTable`.
  Each rebuilds its target path from the parent and the last segment of its
  argument, writes "Fail" into the caller's one-element `passFail` list and
  returns nothing when the target already exists, reports a runtime failure
  to create and returns nothing, or creates the object, adds its fixed
  fields (and, on a branch-versioned workspace, global IDs and editor
  tracking) and returns its path.
 */
module SchemaItems {
  import opened Paths
  import opened Optional
  import opened Platform

  /** The one element of the `passFail` list. */
  datatype Verdict = Pass | Fail

  const RedlineFields: seq<Field> := [
    Field("FromMeasure", DoubleField), Field("ToMeasure", DoubleField),
    Field("RouteId", TextField), Field("RouteName", TextField),
    Field("EffectiveDate", DateField), Field("ActivityType", ShortField),
    Field("NetworkId", ShortField)]

  const CalibrationPointFields: seq<Field> := [
    Field("FromDate", DateField), Field("ToDate", DateField),
    Field("RouteId", TextField), Field("NetworkId", ShortField),
    Field("Measure", DoubleField)]

  const CenterlineSequenceFields: seq<Field> := [
    Field("FromDate", DateField), Field("ToDate", DateField),
    Field("NetworkId", ShortField), Field("RouteId", TextField),
    Field("CenterlineId", GuidField)]

  /** The editor-tracking fields under the names every helper passes. */
  const TrackingFields: seq<Field> :=
    TrackingFieldsNamed("created_user", "created_date", "last_edited_user", "last_edited_date")

  /** What a branch-versioned workspace adds to every created object. */
  function VersioningFields(branchVersioned: bool): seq<Field>
  {
    if branchVersioned then [GlobalIdFieldDef] + TrackingFields else []
  }

  /** A helper's finished object: its kind, its fixed fields, and the versioning additions. */
  function SchemaItem(kind: Kind, base: seq<Field>, branchVersioned: bool): Item
  {
    Item(kind, base + VersioningFields(branchVersioned), false, false, branchVersioned)
  }

  /**
    The versioning additions are there exactly on a branch-versioned
    workspace: GlobalID, the four tracking fields and editor tracking all
    follow the flag, and the fixed fields always come first, unchanged.
   */
  lemma VersioningIff(kind: Kind, base: seq<Field>, branchVersioned: bool)
    requires GlobalIdFieldDef !in base && forall f :: f in TrackingFields ==> f !in base
    ensures var item := SchemaItem(kind, base, branchVersioned);
            && item.fields[..|base|] == base
            && (GlobalIdFieldDef in item.fields <==> branchVersioned)
            && ((forall f :: f in TrackingFields ==> f in item.fields) <==> branchVersioned)
            && (item.editorTracking <==> branchVersioned)
            && !item.lrsMetadata
  {
    var item := SchemaItem(kind, base, branchVersioned);
    assert item.fields[..|base|] == base;
    if branchVersioned {
      assert item.fields[|base|] == GlobalIdFieldDef;
      forall f | f in TrackingFields
        ensures f in item.fields
      {
        var k :| 0 <= k < |TrackingFields| && TrackingFields[k] == f;
        assert item.fields[|base| + 1 + k] == f;
      }
    } else {
      assert item.fields == base;
      assert TrackingFields[0] in TrackingFields;
    }
  }

  /** An object carries GlobalID, the four tracking fields and editor tracking exactly when `branchVersioned`. */
  predicate VersionedExactlyWhen(item: Item, branchVersioned: bool)
  {
    && (GlobalIdFieldDef in item.fields <==> branchVersioned)
    && ((forall f :: f in TrackingFields ==> f in item.fields) <==> branchVersioned)
    && (item.editorTracking <==> branchVersioned)
  }

  /** None of the three fixed field lists already holds a versioning field. */
  lemma FixedFieldsExcludeVersioning()
    ensures forall f :: f in RedlineFields ==> f != GlobalIdFieldDef && f !in TrackingFields
    ensures forall f :: f in CalibrationPointFields ==> f != GlobalIdFieldDef && f !in TrackingFields
    ensures forall f :: f in CenterlineSequenceFields ==> f != GlobalIdFieldDef && f !in TrackingFields
  {
  }

  /** The path a helper actually works on: `dirname(p) + '\\' + p.split('\\')[-1]`. */
  function TargetOf(p: string): string
  {
    Join(Dirname(p), LastSegment(p))
  }

  /** What a helper leaves behind: the world, `passFail[0]`, its return value, and whether it raised. */
  datatype StepResult = StepResult(world: World, verdict: Verdict, created: Option<string>, raised: bool)

  /** One feature-class helper: fail fast, create (catching a runtime failure), populate. */
  function FeatureClassStep(b: Behaviour, w: World, p: string, shape: Shape, base: seq<Field>,
                            branchVersioned: bool, failure: Message, verdict: Verdict): StepResult
  {
    var container, name := Dirname(p), LastSegment(p);
    var target := Join(container, name);
    if target in w.items then StepResult(w, Fail, None, false)
    else if CreateRaises(b, w.items, container, name) then
      StepResult(w.(errors := w.errors + [failure]), verdict, None, false)
    else
      StepResult(w.(items := w.items[target := SchemaItem(FeatureClass(shape), base, branchVersioned)]),
                 verdict, Some(target), false)
  }

  function RedlineStep(b: Behaviour, w: World, p: string, branchVersioned: bool, verdict: Verdict): StepResult
  {
    FeatureClassStep(b, w, p, Polyline, RedlineFields, branchVersioned, RedlineNotCreated, verdict)
  }

  function CalibrationPointStep(b: Behaviour, w: World, p: string, branchVersioned: bool, verdict: Verdict): StepResult
  {
    FeatureClassStep(b, w, p, Point, CalibrationPointFields, branchVersioned, CalibrationPointNotCreated, verdict)
  }

  /** The populated-object outcome of a feature-class helper. */
  lemma FeatureClassStepCreates(b: Behaviour, w: World, p: string, shape: Shape, base: seq<Field>,
                                branchVersioned: bool, failure: Message, verdict: Verdict)
    requires TargetOf(p) !in w.items && !CreateRaises(b, w.items, Dirname(p), LastSegment(p))
    ensures FeatureClassStep(b, w, p, shape, base, branchVersioned, failure, verdict)
         == StepResult(w.(items := w.items[TargetOf(p) := SchemaItem(FeatureClass(shape), base, branchVersioned)]),
                       verdict, Some(TargetOf(p)), false)
  {
  }

  /**
    The table helper calls `CreateTable` twice: first outside any `try` (a
    raise escapes to the caller), then inside one. On a runtime that raises
    when the object exists, the second call fails, the failure is reported,
    and the table is left behind without its fields.
   */
  function CenterlineSequenceStep(b: Behaviour, w: World, p: string, branchVersioned: bool, verdict: Verdict): StepResult
  {
    var container, name := Dirname(p), LastSegment(p);
    var target := Join(container, name);
    if target in w.items then StepResult(w, Fail, None, false)
    else if CreateRaises(b, w.items, container, name) then StepResult(w, verdict, None, true)
    else if b.raisesOnExisting then
      StepResult(w.(items := w.items[target := NewItem(Table)],
                    errors := w.errors + [CenterlineSequenceNotCreated]), verdict, None, false)
    else
      StepResult(w.(items := w.items[target := SchemaItem(Table, CenterlineSequenceFields, branchVersioned)]),
                 verdict, Some(target), false)
  }

  /**
    A feature-class helper never replaces or removes an object that is
    there, leaves the license log alone and never raises. It writes "Fail"
    exactly when its target exists; it reports its failure message exactly
    when the target is absent and nothing was created; what it creates sits
    at the rebuilt target with the fixed fields and the versioning additions.
   */
  lemma FeatureClassStepKeeps(b: Behaviour, w: World, p: string, shape: Shape, base: seq<Field>,
                              branchVersioned: bool, failure: Message, verdict: Verdict)
    ensures var s := FeatureClassStep(b, w, p, shape, base, branchVersioned, failure, verdict);
            && !s.raised && s.world.events == w.events
            && Extends(w.items, s.world.items)
            && (s.verdict == Fail <==> TargetOf(p) in w.items || verdict == Fail)
            && (s.world.errors == w.errors + [failure] <==> TargetOf(p) !in w.items && s.created == None)
            && (s.world.errors == w.errors <==> TargetOf(p) in w.items || s.created.Some?)
            && (s.world.items == w.items <==> s.created == None)
            && (s.created.Some? ==>
                  && s.created.value == TargetOf(p)
                  && TargetOf(p) !in w.items
                  && s.world.items == w.items[TargetOf(p) := SchemaItem(FeatureClass(shape), base, branchVersioned)])
  {
    var target := TargetOf(p);
    if target !in w.items && !CreateRaises(b, w.items, Dirname(p), LastSegment(p)) {
      var s := FeatureClassStep(b, w, p, shape, base, branchVersioned, failure, verdict);
      assert target in s.world.items && target !in w.items;
    }
  }

  /**
    The table helper keeps what is there, like the others, except that its
    first `CreateTable` may raise, which leaves the world unchanged. It
    reports its failure message only on a runtime that raises on existing
    objects, and then leaves the bare table behind; on any other runtime it
    creates the populated table or raises.
   */
  lemma CenterlineSequenceStepKeeps(b: Behaviour, w: World, p: string, branchVersioned: bool, verdict: Verdict)
    ensures var s := CenterlineSequenceStep(b, w, p, branchVersioned, verdict);
            && s.world.events == w.events
            && Extends(w.items, s.world.items)
            && (s.verdict == Fail <==> TargetOf(p) in w.items || verdict == Fail)
            && (s.raised <==> TargetOf(p) !in w.items && CreateRaises(b, w.items, Dirname(p), LastSegment(p)))
            && (s.raised ==> s.world == w)
            && (s.world.errors == w.errors + [CenterlineSequenceNotCreated]
                <==> TargetOf(p) !in w.items && !s.raised && b.raisesOnExisting)
            && (s.world.errors == w.errors + [CenterlineSequenceNotCreated] ==>
                  && s.created == None
                  && s.world.items == w.items[TargetOf(p) := NewItem(Table)])
            && (s.world.errors == w.errors <==> TargetOf(p) in w.items || s.raised || s.created.Some?)
            && (s.created.Some? <==> TargetOf(p) !in w.items && !s.raised && !b.raisesOnExisting)
            && (s.created.Some? ==>
                  && s.created.value == TargetOf(p)
                  && s.world.items == w.items[TargetOf(p) := SchemaItem(Table, CenterlineSequenceFields, branchVersioned)])
  {
  }

  /** Adds global IDs and editor tracking to `p` when the workspace is branch-versioned. */
  method AddVersioning(cat: Catalog, p: string, isBranchVersioned: bool)
    requires p in cat.items
    modifies cat
    ensures cat.items == old(cat.items)[p := old(cat.items)[p].(
              fields := old(cat.items)[p].fields + VersioningFields(isBranchVersioned),
              editorTracking := old(cat.items)[p].editorTracking || isBranchVersioned)]
    ensures cat.errors == old(cat.errors) && cat.events == old(cat.events)
  {
    ghost var item := cat.items[p];
    if isBranchVersioned {
      cat.AddGlobalIDs(p);
      cat.EnableEditorTracking(p, "created_user", "created_date", "last_edited_user", "last_edited_date");
      assert item.fields + [GlobalIdFieldDef] + TrackingFields == item.fields + VersioningFields(true);
    } else {
      assert item == item.(fields := item.fields + [], editorTracking := item.editorTracking || false);
    }
  }

  /** The seven `AddField` calls that give a new Redline feature class its fields. */
  method AddRedlineFields(cat: Catalog, redlineFeatureClass: string)
    requires redlineFeatureClass in cat.items
    modifies cat
    ensures cat.items == WithFields(old(cat.items), redlineFeatureClass, RedlineFields)
    ensures cat.errors == old(cat.errors) && cat.events == old(cat.events)
  {
    cat.AddField(redlineFeatureClass, "FromMeasure", DoubleField);
    ghost var acc := [Field("FromMeasure", DoubleField)];
    cat.AddField(redlineFeatureClass, "ToMeasure", DoubleField);
    WithFieldsTwice(old(cat.items), redlineFeatureClass, acc, [Field("ToMeasure", DoubleField)]);
    acc := acc + [Field("ToMeasure", DoubleField)];
    cat.AddField(redlineFeatureClass, "RouteId", TextField);
    WithFieldsTwice(old(cat.items), redlineFeatureClass, acc, [Field("RouteId", TextField)]);
    acc := acc + [Field("RouteId", TextField)];
    cat.AddField(redlineFeatureClass, "RouteName", TextField);
    WithFieldsTwice(old(cat.items), redlineFeatureClass, acc, [Field("RouteName", TextField)]);
    acc := acc + [Field("RouteName", TextField)];
    cat.AddField(redlineFeatureClass, "EffectiveDate", DateField);
    WithFieldsTwice(old(cat.items), redlineFeatureClass, acc, [Field("EffectiveDate", DateField)]);
    acc := acc + [Field("EffectiveDate", DateField)];
    cat.AddField(redlineFeatureClass, "ActivityType", ShortField);
    WithFieldsTwice(old(cat.items), redlineFeatureClass, acc, [Field("ActivityType", ShortField)]);
    acc := acc + [Field("ActivityType", ShortField)];
    cat.AddField(redlineFeatureClass, "NetworkId", ShortField);
    WithFieldsTwice(old(cat.items), redlineFeatureClass, acc, [Field("NetworkId", ShortField)]);
    acc := acc + [Field("NetworkId", ShortField)];
    assert acc == RedlineFields;
  }

  /** The five `AddField` calls that give a new Calibration_Point feature class its fields. */
  method AddCalibrationPointFields(cat: Catalog, calibrationPointFeatureClass: string)
    requires calibrationPointFeatureClass in cat.items
    modifies cat
    ensures cat.items == WithFields(old(cat.items), calibrationPointFeatureClass, CalibrationPointFields)
    ensures cat.errors == old(cat.errors) && cat.events == old(cat.events)
  {
    cat.AddField(calibrationPointFeatureClass, "FromDate", DateField);
    ghost var acc := [Field("FromDate", DateField)];
    cat.AddField(calibrationPointFeatureClass, "ToDate", DateField);
    WithFieldsTwice(old(cat.items), calibrationPointFeatureClass, acc, [Field("ToDate", DateField)]);
    acc := acc + [Field("ToDate", DateField)];
    cat.AddField(calibrationPointFeatureClass, "RouteId", TextField);
    WithFieldsTwice(old(cat.items), calibrationPointFeatureClass, acc, [Field("RouteId", TextField)]);
    acc := acc + [Field("RouteId", TextField)];
    cat.AddField(calibrationPointFeatureClass, "NetworkId", ShortField);
    WithFieldsTwice(old(cat.items), calibrationPointFeatureClass, acc, [Field("NetworkId", ShortField)]);
    acc := acc + [Field("NetworkId", ShortField)];
    cat.AddField(calibrationPointFeatureClass, "Measure", DoubleField);
    WithFieldsTwice(old(cat.items), calibrationPointFeatureClass, acc, [Field("Measure", DoubleField)]);
    acc := acc + [Field("Measure", DoubleField)];
    assert acc == CalibrationPointFields;
  }

  /** The five `AddField` calls that give a new Centerline_Sequence table its fields. */
  method AddCenterlineSequenceFields(cat: Catalog, centerlineSequenceTable: string)
    requires centerlineSequenceTable in cat.items
    modifies cat
    ensures cat.items == WithFields(old(cat.items), centerlineSequenceTable, CenterlineSequenceFields)
    ensures cat.errors == old(cat.errors) && cat.events == old(cat.events)
  {
    cat.AddField(centerlineSequenceTable, "FromDate", DateField);
    ghost var acc := [Field("FromDate", DateField)];
    cat.AddField(centerlineSequenceTable, "ToDate", DateField);
    WithFieldsTwice(old(cat.items), centerlineSequenceTable, acc, [Field("ToDate", DateField)]);
    acc := acc + [Field("ToDate", DateField)];
    cat.AddField(centerlineSequenceTable, "NetworkId", ShortField);
    WithFieldsTwice(old(cat.items), centerlineSequenceTable, acc, [Field("NetworkId", ShortField)]);
    acc := acc + [Field("NetworkId", ShortField)];
    cat.AddField(centerlineSequenceTable, "RouteId", TextField);
    WithFieldsTwice(old(cat.items), centerlineSequenceTable, acc, [Field("RouteId", TextField)]);
    acc := acc + [Field("RouteId", TextField)];
    cat.AddField(centerlineSequenceTable, "CenterlineId", GuidField);
    WithFieldsTwice(old(cat.items), centerlineSequenceTable, acc, [Field("CenterlineId", GuidField)]);
    acc := acc + [Field("CenterlineId", GuidField)];
    assert acc == CenterlineSequenceFields;
  }

  method CreateRedlineFeatureClass(cat: Catalog, outPathAndName: string, isBranchVersioned: bool,
                                   passFail: array<Verdict>) returns (redline: Option<string>)
    requires passFail.Length >= 1
    modifies cat, passFail
    ensures var s := RedlineStep(cat.behaviour, old(cat.State()), outPathAndName, isBranchVersioned, old(passFail[0]));
            cat.State() == s.world && passFail[0] == s.verdict && redline == s.created
    ensures passFail[1..] == old(passFail[1..])
  {
    var featureDatasetPath := Dirname(outPathAndName);
    var fileName := LastSegment(outPathAndName);
    var redlineFeatureClass := Join(featureDatasetPath, fileName);
    if cat.Exists(redlineFeatureClass) {
      passFail[0] := Fail;
      return None;
    }
    var raised := cat.CreateFeatureclass(featureDatasetPath, fileName, Polyline);
    if raised {
      cat.AddError(RedlineNotCreated);
      return None;
    }
    AddRedlineFields(cat, redlineFeatureClass);
    AddVersioning(cat, redlineFeatureClass, isBranchVersioned);
    assert [] + RedlineFields == RedlineFields;
    FeatureClassStepCreates(cat.behaviour, old(cat.State()), outPathAndName, Polyline, RedlineFields,
                            isBranchVersioned, RedlineNotCreated, old(passFail[0]));
    return Some(redlineFeatureClass);
  }

  method CreateCalibrationPointFeatureClass(cat: Catalog, outPathAndName: string, isBranchVersioned: bool,
                                            passFail: array<Verdict>) returns (calibrationPoint: Option<string>)
    requires passFail.Length >= 1
    modifies cat, passFail
    ensures var s := CalibrationPointStep(cat.behaviour, old(cat.State()), outPathAndName, isBranchVersioned, old(passFail[0]));
            cat.State() == s.world && passFail[0] == s.verdict && calibrationPoint == s.created
    ensures passFail[1..] == old(passFail[1..])
  {
    var featureDatasetPath := Dirname(outPathAndName);
    var fileName := LastSegment(outPathAndName);
    var calibrationPointFeatureClass := Join(featureDatasetPath, fileName);
    if cat.Exists(calibrationPointFeatureClass) {
      passFail[0] := Fail;
      return None;
    }
    var raised := cat.CreateFeatureclass(featureDatasetPath, fileName, Point);
    if raised {
      cat.AddError(CalibrationPointNotCreated);
      return None;
    }
    AddCalibrationPointFields(cat, calibrationPointFeatureClass);
    AddVersioning(cat, calibrationPointFeatureClass, isBranchVersioned);
    assert [] + CalibrationPointFields == CalibrationPointFields;
    FeatureClassStepCreates(cat.behaviour, old(cat.State()), outPathAndName, Point, CalibrationPointFields,
                            isBranchVersioned, CalibrationPointNotCreated, old(passFail[0]));
    return Some(calibrationPointFeatureClass);
  }

  /** `raised` reports the exception the unguarded first `CreateTable` lets escape. */
  method CreateCenterlineSequenceTable(cat: Catalog, outPathAndName: string, isBranchVersioned: bool,
                                       passFail: array<Verdict>) returns (table: Option<string>, raised: bool)
    requires passFail.Length >= 1
    modifies cat, passFail
    ensures var s := CenterlineSequenceStep(cat.behaviour, old(cat.State()), outPathAndName, isBranchVersioned, old(passFail[0]));
            cat.State() == s.world && passFail[0] == s.verdict && table == s.created && raised == s.raised
    ensures passFail[1..] == old(passFail[1..])
  {
    var workspaceDir := Dirname(outPathAndName);
    var fileName := LastSegment(outPathAndName);
    var centerlineSequenceTable := Join(workspaceDir, fileName);
    if cat.Exists(centerlineSequenceTable) {
      passFail[0] := Fail;
      return None, false;
    }
    raised := cat.CreateTable(workspaceDir, fileName);
    if raised {
      return None, true;
    }
    var again := cat.CreateTable(workspaceDir, fileName);
    if again {
      cat.AddError(CenterlineSequenceNotCreated);
      return None, false;
    }
    AddCenterlineSequenceFields(cat, centerlineSequenceTable);
    AddVersioning(cat, centerlineSequenceTable, isBranchVersioned);
    assert [] + CenterlineSequenceFields == CenterlineSequenceFields;
    return Some(centerlineSequenceTable), false;
  }
}
