/**
  `execute` and `CreateLRS`: describe the inputs, create Redline,
  Calibration_Point and Centerline_Sequence in that order through the
  shared one-element `passFail` list, stop at the first helper that fails,
  and finally bind the three new objects and the RoadCenterline feature
  class into an LRS between a license check-out and check-in.
 */
module Pipeline {
  import opened Paths
  import opened Optional
  import opened Platform
  import opened SchemaItems
  import opened Validation

  const LocationReferencing: string := "LocationReferencing"
  const RedlineName: string := "Redline"
  const CalibrationPointName: string := "Calibration_Point"
  const CenterlineSequenceName: string := "Centerline_Sequence"

  /** Where `execute` stopped or raised. */
  datatype Stage = DescribeInputs | RedlineStage | CalibrationPointStage | CenterlineSequenceStage

  /** How `execute` ends: it returns after the LRS step, returns early, or lets an exception escape. */
  datatype Outcome = Completed | StoppedAt(stage: Stage) | RaisedAt(stage: Stage)

  datatype Run = Run(world: World, outcome: Outcome)

  /** The field names `CreateLRS` hands to the binding call. */
  const FixedFieldMap: FieldMap := FieldMap(
    CenterlineIdField,
    "CenterlineId", "RouteId", "FromDate", "ToDate", "NetworkId",
    "Measure", "FromDate", "ToDate", "RouteId", "NetworkId",
    "FromMeasure", "ToMeasure", "RouteId", "RouteName", "EffectiveDate", "ActivityType", "NetworkId")

  function RedlinePath(featureDatasetPath: string): string
  {
    Join(featureDatasetPath, RedlineName)
  }

  function CalibrationPointPath(featureDatasetPath: string): string
  {
    Join(featureDatasetPath, CalibrationPointName)
  }

  /** The table goes into the workspace, beside the feature dataset. */
  function CenterlineSequencePath(featureDatasetPath: string): string
  {
    Join(Dirname(featureDatasetPath), CenterlineSequenceName)
  }

  /**
    The binding call `CreateLRS` makes: the LRS is named after the last
    segment of `outPathAndName`, and its centerline is the RoadCenterline
    feature class of that path's parent.
   */
  function LrsRequest(workspacePath: string, outPathAndName: string, table: string,
                      calibrationPoint: string, redline: string): BindRequest
  {
    BindRequest(workspacePath, LastSegment(outPathAndName), Join(Dirname(outPathAndName), RoadCenterlineName),
                table, calibrationPoint, redline, FixedFieldMap)
  }

  /** `CreateLRS` on the world: check out, bind (reporting a raise), check in. */
  function LrsStep(b: Behaviour, w: World, req: BindRequest): World
  {
    var attempt := Bind(b, w.(events := w.events + [CheckedOut(LocationReferencing)]), req);
    var reported := if attempt.raised then attempt.world.(errors := attempt.world.errors + [LrsNotCreated])
                    else attempt.world;
    reported.(events := reported.events + [CheckedIn(LocationReferencing)])
  }

  /** The item a successful binding call leaves. */
  const LrsItem: Item := Item(LrsNetwork, [], true, false, false)

  /**
    The license is checked out and in around exactly one binding attempt,
    whatever the attempt does; a failed attempt adds exactly the LRS failure
    message and nothing else, a successful one exactly the LRS object.
   */
  lemma LrsStepBrackets(b: Behaviour, w: World, req: BindRequest)
    ensures LrsStep(b, w, req).events
         == w.events + [CheckedOut(LocationReferencing), BindAttempted(req), CheckedIn(LocationReferencing)]
    ensures var failed := b.bindRaises || LrsTarget(req) in w.items;
            && LrsStep(b, w, req).errors == (if failed then w.errors + [LrsNotCreated] else w.errors)
            && LrsStep(b, w, req).items == (if failed then w.items else w.items[LrsTarget(req) := LrsItem])
    ensures Extends(w.items, LrsStep(b, w, req).items)
  {
    assert w.events + [CheckedOut(LocationReferencing)] + [BindAttempted(req)] + [CheckedIn(LocationReferencing)]
        == w.events + [CheckedOut(LocationReferencing), BindAttempted(req), CheckedIn(LocationReferencing)];
  }

  method CreateLRS(cat: Catalog, workspacePath: string, outPathAndName: string, centerlineSequenceTable: string,
                   calibrationPointFeatureClass: string, redlineFeatureClass: string)
    modifies cat
    ensures cat.State() == LrsStep(cat.behaviour, old(cat.State()),
              LrsRequest(workspacePath, outPathAndName, centerlineSequenceTable,
                         calibrationPointFeatureClass, redlineFeatureClass))
  {
    var featureDatasetPath := Dirname(outPathAndName);
    var lrsName := LastSegment(outPathAndName);
    var centerlineFeatureClass := Join(featureDatasetPath, RoadCenterlineName);
    cat.CheckOutExtension(LocationReferencing);
    var raised := cat.CreateLRSFromExistingDataset(
      BindRequest(workspacePath, lrsName, centerlineFeatureClass, centerlineSequenceTable,
                  calibrationPointFeatureClass, redlineFeatureClass, FixedFieldMap));
    if raised {
      cat.AddError(LrsNotCreated);
    }
    cat.CheckInExtension(LocationReferencing);
  }

  /**
    The binding call of a run that reaches the LRS step: the three objects
    sit at the targets the helpers rebuilt, and the LRS takes the last
    segment of `featureDatasetPath\lrsName` as its name.
   */
  function RunRequest(featureDatasetPath: string, lrsName: string): BindRequest
  {
    LrsRequest(Dirname(featureDatasetPath), Join(featureDatasetPath, lrsName),
               TargetOf(CenterlineSequencePath(featureDatasetPath)),
               TargetOf(CalibrationPointPath(featureDatasetPath)), TargetOf(RedlinePath(featureDatasetPath)))
  }

  /** `execute` on the world. */
  function RunPipeline(b: Behaviour, w: World, featureDatasetPath: string, lrsName: string): Run
  {
    var fd := featureDatasetPath;
    var roadCenterline := Join(fd, RoadCenterlineName);
    if fd !in w.items || roadCenterline !in w.items then Run(w, RaisedAt(DescribeInputs))
    else
      var bv := w.items[roadCenterline].branchVersioned;
      var r := RedlineStep(b, w, RedlinePath(fd), bv, Pass);
      if r.verdict == Fail then
        Run(r.world.(errors := r.world.errors + [RedlineExists]), StoppedAt(RedlineStage))
      else if r.created == None then Run(r.world, StoppedAt(RedlineStage))
      else
        var c := CalibrationPointStep(b, r.world, CalibrationPointPath(fd), bv, Pass);
        if c.verdict == Fail then
          Run(c.world.(errors := c.world.errors + [CalibrationPointExists]), StoppedAt(CalibrationPointStage))
        else if c.created == None then Run(c.world, StoppedAt(CalibrationPointStage))
        else
          var s := CenterlineSequenceStep(b, c.world, CenterlineSequencePath(fd), bv, Pass);
          if s.raised then Run(s.world, RaisedAt(CenterlineSequenceStage))
          else if s.verdict == Fail then
            Run(s.world.(errors := s.world.errors + [CenterlineSequenceExists]), StoppedAt(CenterlineSequenceStage))
          else if s.created == None then Run(s.world, StoppedAt(CenterlineSequenceStage))
          else
            var req := LrsRequest(Dirname(fd), Join(fd, lrsName), s.created.value, c.created.value, r.created.value);
            Run(LrsStep(b, s.world, req), Completed)
  }

  method Execute(cat: Catalog, featureDatasetPath: string, lrsName: string) returns (outcome: Outcome)
    modifies cat
    ensures Run(cat.State(), outcome) == RunPipeline(cat.behaviour, old(cat.State()), featureDatasetPath, lrsName)
  {
    var featureDataset := cat.Describe(featureDatasetPath);
    if featureDataset == None {
      return RaisedAt(DescribeInputs);
    }
    var workspacePath := Dirname(featureDatasetPath);
    var roadCenterlineFC := Join(featureDatasetPath, RoadCenterlineName);
    var desc := cat.Describe(roadCenterlineFC);
    if desc == None {
      return RaisedAt(DescribeInputs);
    }
    var isBranchVersioned := desc.value.branchVersioned;
    var passFail := new Verdict[] [Pass];

    var redline := CreateRedlineFeatureClass(cat, RedlinePath(featureDatasetPath), isBranchVersioned, passFail);
    if passFail[0] == Fail {
      cat.AddError(RedlineExists);
      return StoppedAt(RedlineStage);
    }
    if redline == None {
      return StoppedAt(RedlineStage);
    }

    var calibrationPoint := CreateCalibrationPointFeatureClass(cat, CalibrationPointPath(featureDatasetPath),
                                                               isBranchVersioned, passFail);
    if passFail[0] == Fail {
      cat.AddError(CalibrationPointExists);
      return StoppedAt(CalibrationPointStage);
    }
    if calibrationPoint == None {
      return StoppedAt(CalibrationPointStage);
    }

    var table, raised := CreateCenterlineSequenceTable(cat, CenterlineSequencePath(featureDatasetPath),
                                                       isBranchVersioned, passFail);
    if raised {
      return RaisedAt(CenterlineSequenceStage);
    }
    if passFail[0] == Fail {
      cat.AddError(CenterlineSequenceExists);
      return StoppedAt(CenterlineSequenceStage);
    }
    if table == None {
      return StoppedAt(CenterlineSequenceStage);
    }

    CreateLRS(cat, workspacePath, Join(featureDatasetPath, lrsName), table.value, calibrationPoint.value, redline.value);
    return Completed;
  }

  /** A run never removes or replaces an object that was in the catalog. */
  lemma RunKeepsExisting(b: Behaviour, w: World, featureDatasetPath: string, lrsName: string)
    ensures var run := RunPipeline(b, w, featureDatasetPath, lrsName);
            Extends(w.items, run.world.items)
  {
    var fd := featureDatasetPath;
    var roadCenterline := Join(fd, RoadCenterlineName);
    if fd in w.items && roadCenterline in w.items {
      var bv := w.items[roadCenterline].branchVersioned;
      var r := RedlineStep(b, w, RedlinePath(fd), bv, Pass);
      FeatureClassStepKeeps(b, w, RedlinePath(fd), Polyline, RedlineFields, bv, RedlineNotCreated, Pass);
      if r.verdict != Fail && r.created != None {
        RunKeepsAfterRedline(b, w, fd, lrsName);
        ExtendsTransitive(w.items, r.world.items, RunPipeline(b, w, fd, lrsName).world.items);
      }
    }
  }

  /**
    A run explains each early return with exactly one message of the stage
    that stopped it: the "already exists" message `execute` adds or the
    "could not create" message the helper added. An escaping exception adds
    none, and a completed run adds at most the LRS failure message.
   */
  lemma RunExplainsStops(b: Behaviour, w: World, featureDatasetPath: string, lrsName: string)
    ensures var run := RunPipeline(b, w, featureDatasetPath, lrsName);
            match run.outcome
            case Completed => run.world.errors in {w.errors, w.errors + [LrsNotCreated]}
            case RaisedAt(_) => run.world.errors == w.errors
            case StoppedAt(RedlineStage) =>
              run.world.errors in {w.errors + [RedlineExists], w.errors + [RedlineNotCreated]}
            case StoppedAt(CalibrationPointStage) =>
              run.world.errors in {w.errors + [CalibrationPointExists], w.errors + [CalibrationPointNotCreated]}
            case StoppedAt(CenterlineSequenceStage) =>
              run.world.errors in {w.errors + [CenterlineSequenceExists], w.errors + [CenterlineSequenceNotCreated]}
            case StoppedAt(DescribeInputs) => false
  {
    var fd := featureDatasetPath;
    var roadCenterline := Join(fd, RoadCenterlineName);
    if fd in w.items && roadCenterline in w.items {
      var bv := w.items[roadCenterline].branchVersioned;
      var r := RedlineStep(b, w, RedlinePath(fd), bv, Pass);
      FeatureClassStepKeeps(b, w, RedlinePath(fd), Polyline, RedlineFields, bv, RedlineNotCreated, Pass);
      if r.verdict != Fail && r.created != None {
        var c := CalibrationPointStep(b, r.world, CalibrationPointPath(fd), bv, Pass);
        FeatureClassStepKeeps(b, r.world, CalibrationPointPath(fd), Point, CalibrationPointFields, bv,
                              CalibrationPointNotCreated, Pass);
        if c.verdict != Fail && c.created != None {
          var s := CenterlineSequenceStep(b, c.world, CenterlineSequencePath(fd), bv, Pass);
          CenterlineSequenceStepKeeps(b, c.world, CenterlineSequencePath(fd), bv, Pass);
          if !s.raised && s.verdict != Fail && s.created != None {
            var req := LrsRequest(Dirname(fd), Join(fd, lrsName), s.created.value, c.created.value, r.created.value);
            LrsStepBrackets(b, s.world, req);
          }
        }
      }
    }
  }


  /**
    The license is checked out only by a run that reaches the LRS step, and
    then it is checked in again after exactly one binding attempt; a run
    that stops or raises earlier leaves the license log as it was.
   */
  lemma RunBracketsLicense(b: Behaviour, w: World, featureDatasetPath: string, lrsName: string)
    ensures var run := RunPipeline(b, w, featureDatasetPath, lrsName);
            run.outcome != Completed ==> run.world.events == w.events
    ensures var run := RunPipeline(b, w, featureDatasetPath, lrsName);
            run.outcome == Completed ==>
              run.world.events == w.events + [CheckedOut(LocationReferencing),
                                              BindAttempted(RunRequest(featureDatasetPath, lrsName)),
                                              CheckedIn(LocationReferencing)]
  {
    var fd := featureDatasetPath;
    var roadCenterline := Join(fd, RoadCenterlineName);
    if fd in w.items && roadCenterline in w.items {
      var bv := w.items[roadCenterline].branchVersioned;
      var r := RedlineStep(b, w, RedlinePath(fd), bv, Pass);
      FeatureClassStepKeeps(b, w, RedlinePath(fd), Polyline, RedlineFields, bv, RedlineNotCreated, Pass);
      if r.verdict != Fail && r.created != None {
        var c := CalibrationPointStep(b, r.world, CalibrationPointPath(fd), bv, Pass);
        FeatureClassStepKeeps(b, r.world, CalibrationPointPath(fd), Point, CalibrationPointFields, bv,
                              CalibrationPointNotCreated, Pass);
        if c.verdict != Fail && c.created != None {
          var s := CenterlineSequenceStep(b, c.world, CenterlineSequencePath(fd), bv, Pass);
          CenterlineSequenceStepKeeps(b, c.world, CenterlineSequencePath(fd), bv, Pass);
          if !s.raised && s.verdict != Fail && s.created != None {
            var req := LrsRequest(Dirname(fd), Join(fd, lrsName), s.created.value, c.created.value, r.created.value);
            LrsStepBrackets(b, s.world, req);
          }
        }
      }
    }
  }

  /**
    Once a run has completed, running the tool again on the same feature
    dataset finds the Redline feature class it created, reports that it
    already exists and creates nothing.
   */
  lemma RerunStopsAtRedline(b: Behaviour, w: World, featureDatasetPath: string, lrsName: string, nextName: string)
    requires RunPipeline(b, w, featureDatasetPath, lrsName).outcome == Completed
    ensures var after := RunPipeline(b, w, featureDatasetPath, lrsName).world;
            RunPipeline(b, after, featureDatasetPath, nextName)
              == Run(after.(errors := after.errors + [RedlineExists]), StoppedAt(RedlineStage))
  {
    var fd := featureDatasetPath;
    var roadCenterline := Join(fd, RoadCenterlineName);
    var bv := w.items[roadCenterline].branchVersioned;
    var r := RedlineStep(b, w, RedlinePath(fd), bv, Pass);
    FeatureClassStepKeeps(b, w, RedlinePath(fd), Polyline, RedlineFields, bv, RedlineNotCreated, Pass);
    var c := CalibrationPointStep(b, r.world, CalibrationPointPath(fd), bv, Pass);
    FeatureClassStepKeeps(b, r.world, CalibrationPointPath(fd), Point, CalibrationPointFields, bv,
                          CalibrationPointNotCreated, Pass);
    var s := CenterlineSequenceStep(b, c.world, CenterlineSequencePath(fd), bv, Pass);
    CenterlineSequenceStepKeeps(b, c.world, CenterlineSequencePath(fd), bv, Pass);
    var req := LrsRequest(Dirname(fd), Join(fd, lrsName), s.created.value, c.created.value, r.created.value);
    LrsStepBrackets(b, s.world, req);
    var after := LrsStep(b, s.world, req);
    assert TargetOf(RedlinePath(fd)) in after.items;
    assert fd in after.items && roadCenterline in after.items;
  }

  /**
    On a runtime whose `CreateTable` raises when the table exists, the
    table helper's second `CreateTable` always fails, so no run completes.
   */
  lemma NoRunCompletesWhenCreateRaisesOnExisting(b: Behaviour, w: World, featureDatasetPath: string, lrsName: string)
    requires b.raisesOnExisting
    ensures RunPipeline(b, w, featureDatasetPath, lrsName).outcome != Completed
  {
    var fd := featureDatasetPath;
    var roadCenterline := Join(fd, RoadCenterlineName);
    if fd in w.items && roadCenterline in w.items {
      var bv := w.items[roadCenterline].branchVersioned;
      var r := RedlineStep(b, w, RedlinePath(fd), bv, Pass);
      if r.verdict != Fail && r.created != None {
        var c := CalibrationPointStep(b, r.world, CalibrationPointPath(fd), bv, Pass);
        if c.verdict != Fail && c.created != None {
          CenterlineSequenceStepKeeps(b, c.world, CenterlineSequencePath(fd), bv, Pass);
        }
      }
    }
  }

  /**
    The table-creation failure is reported only on a runtime whose
    `CreateTable` raises when the table exists, by a run that stops at the
    table helper and leaves a Centerline_Sequence table without fields
    where there was nothing.
   */
  lemma TableFailureLeavesBareTable(b: Behaviour, w: World, featureDatasetPath: string, lrsName: string)
    ensures var run := RunPipeline(b, w, featureDatasetPath, lrsName);
            var table := TargetOf(CenterlineSequencePath(featureDatasetPath));
            run.world.errors == w.errors + [CenterlineSequenceNotCreated] ==>
              && b.raisesOnExisting
              && run.outcome == StoppedAt(CenterlineSequenceStage)
              && table !in w.items
              && table in run.world.items
              && run.world.items[table] == NewItem(Table)
  {
    var fd := featureDatasetPath;
    var roadCenterline := Join(fd, RoadCenterlineName);
    RunExplainsStops(b, w, fd, lrsName);
    var run := RunPipeline(b, w, fd, lrsName);
    if run.world.errors == w.errors + [CenterlineSequenceNotCreated] {
      assert run.outcome == StoppedAt(CenterlineSequenceStage) by {
        assert run.world.errors[|w.errors|] == CenterlineSequenceNotCreated;
      }
      var bv := w.items[roadCenterline].branchVersioned;
      var r := RedlineStep(b, w, RedlinePath(fd), bv, Pass);
      FeatureClassStepKeeps(b, w, RedlinePath(fd), Polyline, RedlineFields, bv, RedlineNotCreated, Pass);
      var c := CalibrationPointStep(b, r.world, CalibrationPointPath(fd), bv, Pass);
      FeatureClassStepKeeps(b, r.world, CalibrationPointPath(fd), Point, CalibrationPointFields, bv,
                            CalibrationPointNotCreated, Pass);
      CenterlineSequenceStepKeeps(b, c.world, CenterlineSequencePath(fd), bv, Pass);
    }
  }

  /**
    Conversely, a run that stops at the table helper and leaves a new
    Centerline_Sequence table without fields has reported the
    table-creation failure and nothing else.
   */
  lemma BareTableIsReported(b: Behaviour, w: World, featureDatasetPath: string, lrsName: string)
    ensures var run := RunPipeline(b, w, featureDatasetPath, lrsName);
            var table := TargetOf(CenterlineSequencePath(featureDatasetPath));
            var bare := table !in w.items && table in run.world.items && run.world.items[table] == NewItem(Table);
            run.outcome == StoppedAt(CenterlineSequenceStage) && bare
            ==> run.world.errors == w.errors + [CenterlineSequenceNotCreated]
  {
    var fd := featureDatasetPath;
    var roadCenterline := Join(fd, RoadCenterlineName);
    var run := RunPipeline(b, w, fd, lrsName);
    var table := TargetOf(CenterlineSequencePath(fd));
    if run.outcome == StoppedAt(CenterlineSequenceStage) && table !in w.items {
      var bv := w.items[roadCenterline].branchVersioned;
      var r := RedlineStep(b, w, RedlinePath(fd), bv, Pass);
      FeatureClassStepKeeps(b, w, RedlinePath(fd), Polyline, RedlineFields, bv, RedlineNotCreated, Pass);
      var c := CalibrationPointStep(b, r.world, CalibrationPointPath(fd), bv, Pass);
      FeatureClassStepKeeps(b, r.world, CalibrationPointPath(fd), Point, CalibrationPointFields, bv,
                            CalibrationPointNotCreated, Pass);
      CenterlineSequenceStepKeeps(b, c.world, CenterlineSequencePath(fd), bv, Pass);
      var s := CenterlineSequenceStep(b, c.world, CenterlineSequencePath(fd), bv, Pass);
      if s.verdict == Fail {
        // only an object an earlier helper created, and that is a feature class
        assert run.world.items[table].kind.FeatureClass?;
      }
    }
  }
  /**
    On a feature dataset `ws\ds` (a workspace path not ending in a
    separator, a dataset name without one), every helper works on the path
    it was given: the three objects go to `ws\ds\Redline`,
    `ws\ds\Calibration_Point` and `ws\Centerline_Sequence`.
   */
  lemma JoinedDatasetTargets(ws: string, ds: string)
    requires Proper(ws) && IsSegment(ds)
    ensures var fd := Join(ws, ds);
            && Dirname(fd) == ws && Proper(fd)
            && TargetOf(RedlinePath(fd)) == RedlinePath(fd) && Dirname(RedlinePath(fd)) == fd
            && TargetOf(CalibrationPointPath(fd)) == CalibrationPointPath(fd) && Dirname(CalibrationPointPath(fd)) == fd
            && CenterlineSequencePath(fd) == Join(ws, CenterlineSequenceName)
            && TargetOf(CenterlineSequencePath(fd)) == CenterlineSequencePath(fd)
            && Dirname(CenterlineSequencePath(fd)) == ws
  {
    var fd := Join(ws, ds);
    SplitJoin(ws, ds);
    SplitJoin(fd, RedlineName);
    SplitJoin(fd, CalibrationPointName);
    SplitJoin(ws, CenterlineSequenceName);
  }

  /**
    The three targets are pairwise different, none is the workspace or the
    RoadCenterline feature class, and only the table can coincide with the
    feature dataset itself (when the dataset is named Centerline_Sequence).
   */
  lemma JoinedDatasetTargetsDistinct(ws: string, ds: string)
    requires Proper(ws) && IsSegment(ds)
    ensures var fd := Join(ws, ds);
            var redline, point, table := RedlinePath(fd), CalibrationPointPath(fd), Join(ws, CenterlineSequenceName);
            && redline != point && redline != table && point != table
            && fd != redline && fd != point && (fd == table <==> ds == CenterlineSequenceName)
            && ws !in {redline, point, table}
            && Join(fd, RoadCenterlineName) !in {redline, point, table}
  {
    var fd := Join(ws, ds);
    var table := Join(ws, CenterlineSequenceName);
    SplitJoin(fd, RedlineName);
    SplitJoin(fd, CalibrationPointName);
    SplitJoin(ws, CenterlineSequenceName);
    SplitJoin(ws, ds);
    SplitJoin(fd, RoadCenterlineName);
    assert Join(fd, RoadCenterlineName) != table by {
      assert LastSegment(Join(fd, RoadCenterlineName)) != LastSegment(table);
    }
  }

  /**
    On a feature dataset `ws\ds`, a run completes exactly when the dataset,
    its RoadCenterline and the workspace exist, none of the three targets
    exists or is refused, and creating an existing object does not raise.
   */
  lemma CompletesIff(b: Behaviour, w: World, ws: string, ds: string, lrsName: string)
    requires Proper(ws) && IsSegment(ds)
    ensures var fd := Join(ws, ds);
            var redline, point, table := RedlinePath(fd), CalibrationPointPath(fd), Join(ws, CenterlineSequenceName);
            RunPipeline(b, w, fd, lrsName).outcome == Completed
            <==> && fd in w.items && Join(fd, RoadCenterlineName) in w.items && ws in w.items
                 && redline !in w.items && point !in w.items && table !in w.items
                 && redline !in b.refused && point !in b.refused && table !in b.refused
                 && !b.raisesOnExisting
  {
    var fd := Join(ws, ds);
    JoinedDatasetTargets(ws, ds);
    JoinedDatasetTargetsDistinct(ws, ds);
    var roadCenterline := Join(fd, RoadCenterlineName);
    if fd in w.items && roadCenterline in w.items {
      var bv := w.items[roadCenterline].branchVersioned;
      var r := RedlineStep(b, w, RedlinePath(fd), bv, Pass);
      FeatureClassStepKeeps(b, w, RedlinePath(fd), Polyline, RedlineFields, bv, RedlineNotCreated, Pass);
      var c := CalibrationPointStep(b, r.world, CalibrationPointPath(fd), bv, Pass);
      FeatureClassStepKeeps(b, r.world, CalibrationPointPath(fd), Point, CalibrationPointFields, bv,
                            CalibrationPointNotCreated, Pass);
      CenterlineSequenceStepKeeps(b, c.world, CenterlineSequencePath(fd), bv, Pass);
    }
  }
  /**
    On `ws\ds`, the binding call names the three schema objects at the
    paths the run was given, the dataset's RoadCenterline, the workspace
    and the requested LRS name, and the LRS would go to `ws\ds\lrsName`.
   */
  lemma RunRequestNames(ws: string, ds: string, lrsName: string)
    requires Proper(ws) && IsSegment(ds) && Sep !in lrsName
    ensures var fd := Join(ws, ds);
            var redline, point, table := RedlinePath(fd), CalibrationPointPath(fd), Join(ws, CenterlineSequenceName);
            && RunRequest(fd, lrsName)
               == BindRequest(ws, lrsName, Join(fd, RoadCenterlineName), table, point, redline, FixedFieldMap)
            && LrsTarget(RunRequest(fd, lrsName)) == Join(fd, lrsName)
  {
    var fd := Join(ws, ds);
    JoinedDatasetTargets(ws, ds);
    SplitJoin(fd, lrsName);
    SplitJoin(fd, RoadCenterlineName);
  }

  /**
    The LRS path `ws\ds\lrsName` is never the table's path, and it is the
    path of one of the two feature classes exactly when the name is theirs.
   */
  lemma LrsPathAmongTargets(ws: string, ds: string, lrsName: string)
    requires Proper(ws) && IsSegment(ds) && Sep !in lrsName
    ensures var fd := Join(ws, ds);
            var lrs := Join(fd, lrsName);
            && lrs != Join(ws, CenterlineSequenceName)
            && (lrs == RedlinePath(fd) <==> lrsName == RedlineName)
            && (lrs == CalibrationPointPath(fd) <==> lrsName == CalibrationPointName)
  {
    var fd := Join(ws, ds);
    var lrs := Join(fd, lrsName);
    SplitJoin(ws, ds);
    SplitJoin(fd, lrsName);
    SplitJoin(ws, CenterlineSequenceName);
    SplitJoin(fd, RedlineName);
    SplitJoin(fd, CalibrationPointName);
  }

  /** The catalog with the three schema objects of a run on `ws\ds` added. */
  function WithSchema(items: map<string, Item>, ws: string, ds: string, branchVersioned: bool): map<string, Item>
  {
    var fd := Join(ws, ds);
    items[RedlinePath(fd) := SchemaItem(FeatureClass(Polyline), RedlineFields, branchVersioned)]
         [CalibrationPointPath(fd) := SchemaItem(FeatureClass(Point), CalibrationPointFields, branchVersioned)]
         [Join(ws, CenterlineSequenceName) := SchemaItem(Table, CenterlineSequenceFields, branchVersioned)]
  }

  /**
    A completed run on `ws\ds` is the LRS step applied to the catalog with
    the three schema objects added, each with its fixed fields and, when
    the RoadCenterline feature class is branch-versioned, global IDs and
    editor tracking; no message is added before the LRS step.
   */
  lemma CompletedRunSchema(b: Behaviour, w: World, ws: string, ds: string, lrsName: string)
    requires Proper(ws) && IsSegment(ds)
    requires RunPipeline(b, w, Join(ws, ds), lrsName).outcome == Completed
    ensures var fd := Join(ws, ds);
            var bv := w.items[Join(fd, RoadCenterlineName)].branchVersioned;
            RunPipeline(b, w, fd, lrsName).world
              == LrsStep(b, w.(items := WithSchema(w.items, ws, ds, bv)), RunRequest(fd, lrsName))
  {
    var fd := Join(ws, ds);
    JoinedDatasetTargets(ws, ds);
    var roadCenterline := Join(fd, RoadCenterlineName);
    var bv := w.items[roadCenterline].branchVersioned;
    var r := RedlineStep(b, w, RedlinePath(fd), bv, Pass);
    FeatureClassStepKeeps(b, w, RedlinePath(fd), Polyline, RedlineFields, bv, RedlineNotCreated, Pass);
    var c := CalibrationPointStep(b, r.world, CalibrationPointPath(fd), bv, Pass);
    FeatureClassStepKeeps(b, r.world, CalibrationPointPath(fd), Point, CalibrationPointFields, bv,
                          CalibrationPointNotCreated, Pass);
    var s := CenterlineSequenceStep(b, c.world, CenterlineSequencePath(fd), bv, Pass);
    CenterlineSequenceStepKeeps(b, c.world, CenterlineSequencePath(fd), bv, Pass);
    assert s.world == w.(items := WithSchema(w.items, ws, ds, bv));
  }

  /**
    The LRS step after the schema objects of a run on `ws\ds` were added:
    it creates the LRS at `ws\ds\lrsName` exactly when binding can
    succeed: the runtime does not refuse it, nothing was at that path, and
    the name is not that of one of the two feature classes just created
    there. Otherwise the LRS failure is the one message added.
   */
  lemma LrsAfterSchema(b: Behaviour, w: World, ws: string, ds: string, lrsName: string, branchVersioned: bool)
    requires Proper(ws) && IsSegment(ds) && Sep !in lrsName
    ensures var fd := Join(ws, ds);
            var created := WithSchema(w.items, ws, ds, branchVersioned);
            var after := LrsStep(b, w.(items := created), RunRequest(fd, lrsName));
            var lrs := Join(fd, lrsName);
            var bound := !b.bindRaises && lrs !in w.items && lrsName != RedlineName && lrsName != CalibrationPointName;
            && after.items == (if bound then created[lrs := LrsItem] else created)
            && after.errors == (if bound then w.errors else w.errors + [LrsNotCreated])
  {
    var fd := Join(ws, ds);
    var before := w.(items := WithSchema(w.items, ws, ds, branchVersioned));
    RunRequestNames(ws, ds, lrsName);
    LrsStepBrackets(b, before, RunRequest(fd, lrsName));
    LrsPathAmongTargets(ws, ds, lrsName);
    var lrs := Join(fd, lrsName);
    assert lrs in before.items <==> lrs in w.items || lrsName == RedlineName || lrsName == CalibrationPointName;
  }

  /**
    A feature dataset the tool's validation accepts never makes the run
    raise while describing its inputs, and the table helper raises only
    when the runtime refuses `ws\Centerline_Sequence`.
   */
  lemma AcceptedDatasetRuns(b: Behaviour, w: World, ws: string, ds: string, lrsName: string)
    requires Proper(ws) && IsSegment(ds)
    requires CheckDataset(w.items, Join(ws, ds)).Accepted?
    ensures var outcome := RunPipeline(b, w, Join(ws, ds), lrsName).outcome;
            && outcome != RaisedAt(DescribeInputs)
            && (outcome == RaisedAt(CenterlineSequenceStage) ==> Join(ws, CenterlineSequenceName) in b.refused)
  {
    var fd := Join(ws, ds);
    DatasetVerdicts(w.items, fd);
    JoinedDatasetTargets(ws, ds);
    JoinedDatasetTargetsDistinct(ws, ds);
    var roadCenterline := Join(fd, RoadCenterlineName);
    var bv := w.items[roadCenterline].branchVersioned;
    var r := RedlineStep(b, w, RedlinePath(fd), bv, Pass);
    FeatureClassStepKeeps(b, w, RedlinePath(fd), Polyline, RedlineFields, bv, RedlineNotCreated, Pass);
    if r.verdict != Fail && r.created != None {
      var c := CalibrationPointStep(b, r.world, CalibrationPointPath(fd), bv, Pass);
      FeatureClassStepKeeps(b, r.world, CalibrationPointPath(fd), Point, CalibrationPointFields, bv,
                            CalibrationPointNotCreated, Pass);
      if c.verdict != Fail && c.created != None {
        CenterlineSequenceStepKeeps(b, c.world, CenterlineSequencePath(fd), bv, Pass);
      }
    }
  }

  /**
    Every field name the binding call is given exists on the object it
    refers to: the centerline ID is the field validation insists on, and
    each role of the table and the two feature classes names one of the
    fields their helper adds.
   */
  lemma FieldMapNamesSchemaFields()
    ensures FixedFieldMap.centerlineId == CenterlineIdField
    ensures var names := FieldNames(CenterlineSequenceFields);
            && FixedFieldMap.sequenceCenterlineId in names && FixedFieldMap.sequenceRouteId in names
            && FixedFieldMap.sequenceFromDate in names && FixedFieldMap.sequenceToDate in names
            && FixedFieldMap.sequenceNetworkId in names
    ensures var names := FieldNames(CalibrationPointFields);
            && FixedFieldMap.calibrationMeasure in names && FixedFieldMap.calibrationFromDate in names
            && FixedFieldMap.calibrationToDate in names && FixedFieldMap.calibrationRouteId in names
            && FixedFieldMap.calibrationNetworkId in names
    ensures var names := FieldNames(RedlineFields);
            && FixedFieldMap.redlineFromMeasure in names && FixedFieldMap.redlineToMeasure in names
            && FixedFieldMap.redlineRouteId in names && FixedFieldMap.redlineRouteName in names
            && FixedFieldMap.redlineEffectiveDate in names && FixedFieldMap.redlineActivityType in names
            && FixedFieldMap.redlineNetworkId in names
  {
    var table, point, redline := FieldNames(CenterlineSequenceFields), FieldNames(CalibrationPointFields),
                                 FieldNames(RedlineFields);
    assert table[0] == "FromDate" && table[1] == "ToDate" && table[2] == "NetworkId";
    assert table[3] == "RouteId" && table[4] == "CenterlineId";
    assert point[0] == "FromDate" && point[1] == "ToDate" && point[2] == "RouteId";
    assert point[3] == "NetworkId" && point[4] == "Measure";
    assert redline[0] == "FromMeasure" && redline[1] == "ToMeasure" && redline[2] == "RouteId";
    assert redline[3] == "RouteName" && redline[4] == "EffectiveDate" && redline[5] == "ActivityType";
    assert redline[6] == "NetworkId";
  }

  /**
    A Redline feature class already in the feature dataset stops the run at
    once: the "already exists" message is added and nothing is created.
   */
  lemma ExistingRedlineStops(b: Behaviour, w: World, ws: string, ds: string, lrsName: string)
    requires Proper(ws) && IsSegment(ds)
    requires Join(ws, ds) in w.items && Join(Join(ws, ds), RoadCenterlineName) in w.items
    requires RedlinePath(Join(ws, ds)) in w.items
    ensures RunPipeline(b, w, Join(ws, ds), lrsName)
         == Run(w.(errors := w.errors + [RedlineExists]), StoppedAt(RedlineStage))
  {
    JoinedDatasetTargets(ws, ds);
  }

  /**
    An existing Calibration_Point feature class stops the run after Redline
    was created: the "already exists" message is added and the new Redline
    feature class stays, with nothing undone.
   */
  lemma ExistingCalibrationPointStops(b: Behaviour, w: World, ws: string, ds: string, lrsName: string)
    requires Proper(ws) && IsSegment(ds)
    requires Join(ws, ds) in w.items && Join(Join(ws, ds), RoadCenterlineName) in w.items
    requires RedlinePath(Join(ws, ds)) !in w.items && RedlinePath(Join(ws, ds)) !in b.refused
    requires CalibrationPointPath(Join(ws, ds)) in w.items
    ensures var fd := Join(ws, ds);
            var bv := w.items[Join(fd, RoadCenterlineName)].branchVersioned;
            RunPipeline(b, w, fd, lrsName)
              == Run(w.(items := w.items[RedlinePath(fd) := SchemaItem(FeatureClass(Polyline), RedlineFields, bv)],
                        errors := w.errors + [CalibrationPointExists]),
                     StoppedAt(CalibrationPointStage))
  {
    var fd := Join(ws, ds);
    JoinedDatasetTargets(ws, ds);
    var bv := w.items[Join(fd, RoadCenterlineName)].branchVersioned;
    FeatureClassStepCreates(b, w, RedlinePath(fd), Polyline, RedlineFields, bv, RedlineNotCreated, Pass);
    var r := RedlineStep(b, w, RedlinePath(fd), bv, Pass);
    assert r.world.items == w.items[RedlinePath(fd) := SchemaItem(FeatureClass(Polyline), RedlineFields, bv)];
    assert CalibrationPointStep(b, r.world, CalibrationPointPath(fd), bv, Pass) == StepResult(r.world, Fail, None, false);
  }

  /** Both feature classes are created when their targets are free and not refused. */
  lemma FeatureClassesCreated(b: Behaviour, w: World, ws: string, ds: string, bv: bool)
    requires Proper(ws) && IsSegment(ds) && Join(ws, ds) in w.items
    requires RedlinePath(Join(ws, ds)) !in w.items && RedlinePath(Join(ws, ds)) !in b.refused
    requires CalibrationPointPath(Join(ws, ds)) !in w.items && CalibrationPointPath(Join(ws, ds)) !in b.refused
    ensures var fd := Join(ws, ds);
            var redlineItems := w.items[RedlinePath(fd) := SchemaItem(FeatureClass(Polyline), RedlineFields, bv)];
            var r := RedlineStep(b, w, RedlinePath(fd), bv, Pass);
            && r == StepResult(w.(items := redlineItems), Pass, Some(RedlinePath(fd)), false)
            && CalibrationPointStep(b, r.world, CalibrationPointPath(fd), bv, Pass)
               == StepResult(w.(items := redlineItems[CalibrationPointPath(fd) :=
                                  SchemaItem(FeatureClass(Point), CalibrationPointFields, bv)]),
                             Pass, Some(CalibrationPointPath(fd)), false)
  {
    var fd := Join(ws, ds);
    JoinedDatasetTargets(ws, ds);
    JoinedDatasetTargetsDistinct(ws, ds);
    FeatureClassStepCreates(b, w, RedlinePath(fd), Polyline, RedlineFields, bv, RedlineNotCreated, Pass);
    var r := RedlineStep(b, w, RedlinePath(fd), bv, Pass);
    FeatureClassStepCreates(b, r.world, CalibrationPointPath(fd), Point, CalibrationPointFields, bv,
                            CalibrationPointNotCreated, Pass);
  }

  /**
    An existing Centerline_Sequence table stops the run after both feature
    classes were created: the "already exists" message is added and the two
    new feature classes stay.
   */
  lemma ExistingTableStops(b: Behaviour, w: World, ws: string, ds: string, lrsName: string)
    requires Proper(ws) && IsSegment(ds)
    requires Join(ws, ds) in w.items && Join(Join(ws, ds), RoadCenterlineName) in w.items
    requires RedlinePath(Join(ws, ds)) !in w.items && RedlinePath(Join(ws, ds)) !in b.refused
    requires CalibrationPointPath(Join(ws, ds)) !in w.items && CalibrationPointPath(Join(ws, ds)) !in b.refused
    requires Join(ws, CenterlineSequenceName) in w.items
    ensures var fd := Join(ws, ds);
            var bv := w.items[Join(fd, RoadCenterlineName)].branchVersioned;
            RunPipeline(b, w, fd, lrsName)
              == Run(w.(items := w.items[RedlinePath(fd) := SchemaItem(FeatureClass(Polyline), RedlineFields, bv)]
                                        [CalibrationPointPath(fd) := SchemaItem(FeatureClass(Point), CalibrationPointFields, bv)],
                        errors := w.errors + [CenterlineSequenceExists]),
                     StoppedAt(CenterlineSequenceStage))
  {
    var fd := Join(ws, ds);
    JoinedDatasetTargets(ws, ds);
    var bv := w.items[Join(fd, RoadCenterlineName)].branchVersioned;
    FeatureClassesCreated(b, w, ws, ds, bv);
    var r := RedlineStep(b, w, RedlinePath(fd), bv, Pass);
    var c := CalibrationPointStep(b, r.world, CalibrationPointPath(fd), bv, Pass);
    var pointItems := w.items[RedlinePath(fd) := SchemaItem(FeatureClass(Polyline), RedlineFields, bv)]
                             [CalibrationPointPath(fd) := SchemaItem(FeatureClass(Point), CalibrationPointFields, bv)];
    assert TargetOf(CenterlineSequencePath(fd)) in pointItems;
    assert CenterlineSequenceStep(b, c.world, CenterlineSequencePath(fd), bv, Pass)
        == StepResult(c.world, Fail, None, false);
  }

  /**
    What the Redline step created is kept by every later stage: the run's
    final catalog extends the catalog right after that step.
   */
  lemma RunKeepsAfterRedline(b: Behaviour, w: World, featureDatasetPath: string, lrsName: string)
    requires featureDatasetPath in w.items && Join(featureDatasetPath, RoadCenterlineName) in w.items
    ensures var fd := featureDatasetPath;
            var bv := w.items[Join(fd, RoadCenterlineName)].branchVersioned;
            var r := RedlineStep(b, w, RedlinePath(fd), bv, Pass);
            r.verdict != Fail && r.created != None
            ==> Extends(r.world.items, RunPipeline(b, w, fd, lrsName).world.items)
  {
    var fd := featureDatasetPath;
    var bv := w.items[Join(fd, RoadCenterlineName)].branchVersioned;
    var r := RedlineStep(b, w, RedlinePath(fd), bv, Pass);
    if r.verdict != Fail && r.created != None {
      var c := CalibrationPointStep(b, r.world, CalibrationPointPath(fd), bv, Pass);
      FeatureClassStepKeeps(b, r.world, CalibrationPointPath(fd), Point, CalibrationPointFields, bv,
                            CalibrationPointNotCreated, Pass);
      if c.verdict != Fail && c.created != None {
        RunKeepsAfterCalibrationPoint(b, w, fd, lrsName);
        ExtendsTransitive(r.world.items, c.world.items, RunPipeline(b, w, fd, lrsName).world.items);
      }
    }
  }

  /**
    What the Calibration_Point step created is kept by the table stage and
    the LRS step.
   */
  lemma RunKeepsAfterCalibrationPoint(b: Behaviour, w: World, featureDatasetPath: string, lrsName: string)
    requires featureDatasetPath in w.items && Join(featureDatasetPath, RoadCenterlineName) in w.items
    ensures var fd := featureDatasetPath;
            var bv := w.items[Join(fd, RoadCenterlineName)].branchVersioned;
            var r := RedlineStep(b, w, RedlinePath(fd), bv, Pass);
            var c := CalibrationPointStep(b, r.world, CalibrationPointPath(fd), bv, Pass);
            var run := RunPipeline(b, w, fd, lrsName);
            r.verdict != Fail && r.created != None && c.verdict != Fail && c.created != None
            ==> && run.outcome != StoppedAt(RedlineStage) && run.outcome != StoppedAt(CalibrationPointStage)
                && Extends(c.world.items, run.world.items)
  {
    var fd := featureDatasetPath;
    var bv := w.items[Join(fd, RoadCenterlineName)].branchVersioned;
    var r := RedlineStep(b, w, RedlinePath(fd), bv, Pass);
    var c := CalibrationPointStep(b, r.world, CalibrationPointPath(fd), bv, Pass);
    if r.verdict != Fail && r.created != None && c.verdict != Fail && c.created != None {
      var s := CenterlineSequenceStep(b, c.world, CenterlineSequencePath(fd), bv, Pass);
      CenterlineSequenceStepKeeps(b, c.world, CenterlineSequencePath(fd), bv, Pass);
      if !s.raised && s.verdict != Fail && s.created != None {
        var req := LrsRequest(Dirname(fd), Join(fd, lrsName), s.created.value, c.created.value, r.created.value);
        LrsStepBrackets(b, s.world, req);
        ExtendsTransitive(c.world.items, s.world.items, LrsStep(b, s.world, req).items);
      }
    }
  }

  /**
    Once the Redline feature class is created, it stays: whatever stage
    stops the run later, or the LRS step, the new object is still there
    with its fields. Nothing is rolled back.
   */
  lemma CreatedRedlineStays(b: Behaviour, w: World, ws: string, ds: string, lrsName: string)
    requires Proper(ws) && IsSegment(ds)
    requires Join(ws, ds) in w.items && Join(Join(ws, ds), RoadCenterlineName) in w.items
    requires RedlinePath(Join(ws, ds)) !in w.items && RedlinePath(Join(ws, ds)) !in b.refused
    ensures var fd := Join(ws, ds);
            var bv := w.items[Join(fd, RoadCenterlineName)].branchVersioned;
            var run := RunPipeline(b, w, fd, lrsName);
            && run.outcome != StoppedAt(RedlineStage)
            && RedlinePath(fd) in run.world.items
            && run.world.items[RedlinePath(fd)] == SchemaItem(FeatureClass(Polyline), RedlineFields, bv)
  {
    var fd := Join(ws, ds);
    JoinedDatasetTargets(ws, ds);
    var bv := w.items[Join(fd, RoadCenterlineName)].branchVersioned;
    FeatureClassStepCreates(b, w, RedlinePath(fd), Polyline, RedlineFields, bv, RedlineNotCreated, Pass);
    RunKeepsAfterRedline(b, w, fd, lrsName);
  }

  /**
    Once both feature classes are created, both stay, whether the table
    stage then finds its table, fails to create it, raises, or the run
    goes on to the LRS step.
   */
  lemma CreatedFeatureClassesStay(b: Behaviour, w: World, ws: string, ds: string, lrsName: string)
    requires Proper(ws) && IsSegment(ds)
    requires Join(ws, ds) in w.items && Join(Join(ws, ds), RoadCenterlineName) in w.items
    requires RedlinePath(Join(ws, ds)) !in w.items && RedlinePath(Join(ws, ds)) !in b.refused
    requires CalibrationPointPath(Join(ws, ds)) !in w.items && CalibrationPointPath(Join(ws, ds)) !in b.refused
    ensures var fd := Join(ws, ds);
            var bv := w.items[Join(fd, RoadCenterlineName)].branchVersioned;
            var run := RunPipeline(b, w, fd, lrsName);
            && run.outcome != StoppedAt(RedlineStage) && run.outcome != StoppedAt(CalibrationPointStage)
            && RedlinePath(fd) in run.world.items
            && run.world.items[RedlinePath(fd)] == SchemaItem(FeatureClass(Polyline), RedlineFields, bv)
            && CalibrationPointPath(fd) in run.world.items
            && run.world.items[CalibrationPointPath(fd)] == SchemaItem(FeatureClass(Point), CalibrationPointFields, bv)
  {
    var fd := Join(ws, ds);
    var bv := w.items[Join(fd, RoadCenterlineName)].branchVersioned;
    FeatureClassesCreated(b, w, ws, ds, bv);
    JoinedDatasetTargetsDistinct(ws, ds);
    RunKeepsAfterCalibrationPoint(b, w, fd, lrsName);
  }

  /** The three schema objects a run adds are versioned exactly when RoadCenterline is. */
  lemma SchemaVersioning(items: map<string, Item>, ws: string, ds: string, branchVersioned: bool)
    requires Proper(ws) && IsSegment(ds)
    ensures var fd := Join(ws, ds);
            var created := WithSchema(items, ws, ds, branchVersioned);
            && VersionedExactlyWhen(created[RedlinePath(fd)], branchVersioned)
            && VersionedExactlyWhen(created[CalibrationPointPath(fd)], branchVersioned)
            && VersionedExactlyWhen(created[Join(ws, CenterlineSequenceName)], branchVersioned)
  {
    JoinedDatasetTargetsDistinct(ws, ds);
    FixedFieldsExcludeVersioning();
    VersioningIff(FeatureClass(Polyline), RedlineFields, branchVersioned);
    VersioningIff(FeatureClass(Point), CalibrationPointFields, branchVersioned);
    VersioningIff(Table, CenterlineSequenceFields, branchVersioned);
  }

  /**
    After a completed run, Redline, Calibration_Point and
    Centerline_Sequence all carry GlobalID, the four tracking fields and
    editor tracking exactly when the RoadCenterline feature class is
    branch-versioned.
   */
  lemma CompletedRunVersioning(b: Behaviour, w: World, ws: string, ds: string, lrsName: string)
    requires Proper(ws) && IsSegment(ds)
    requires RunPipeline(b, w, Join(ws, ds), lrsName).outcome == Completed
    ensures var fd := Join(ws, ds);
            var bv := w.items[Join(fd, RoadCenterlineName)].branchVersioned;
            var after := RunPipeline(b, w, fd, lrsName).world.items;
            && RedlinePath(fd) in after && VersionedExactlyWhen(after[RedlinePath(fd)], bv)
            && CalibrationPointPath(fd) in after && VersionedExactlyWhen(after[CalibrationPointPath(fd)], bv)
            && Join(ws, CenterlineSequenceName) in after
            && VersionedExactlyWhen(after[Join(ws, CenterlineSequenceName)], bv)
  {
    var fd := Join(ws, ds);
    var bv := w.items[Join(fd, RoadCenterlineName)].branchVersioned;
    CompletedRunSchema(b, w, ws, ds, lrsName);
    SchemaVersioning(w.items, ws, ds, bv);
    LrsStepBrackets(b, w.(items := WithSchema(w.items, ws, ds, bv)), RunRequest(fd, lrsName));
  }
}
