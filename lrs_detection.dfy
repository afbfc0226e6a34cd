/**
  `GetLRSDataset`: the guard against configuring a second LRS. It lists the
  feature datasets of the parent workspace and returns the first one whose
  inner object `<dataset>\<dataset name>` describes with LRS metadata,
  skipping datasets for which that describe fails.
 */
module LrsDetection {
  import opened Paths
  import opened Platform

  datatype ScanResult =
    | Found(dataset: string)   // the first dataset name carrying LRS metadata
    | NoLrs                    // the scan ran to the end
    | ScanRaised               // a describe outside the `try` failed

  /** `arcpy.ListDatasets()` with the workspace set to `ws`. */
  function DatasetsIn(items: map<string, Item>, ws: string): seq<string>
    requires ws in items
  {
    if items[ws].kind.Workspace? then items[ws].kind.datasets else []
  }

  /** Describing `<datasetPath>\<its last segment>` succeeds and reports LRS metadata. */
  predicate CarriesLrs(items: map<string, Item>, datasetPath: string)
  {
    var inner := Join(datasetPath, LastSegment(datasetPath));
    inner in items && items[inner].lrsMetadata
  }

  /** A listed dataset the scan passes over: its catalog path describes, and it carries no LRS. */
  predicate Skipped(items: map<string, Item>, ws: string, name: string)
  {
    Join(ws, name) in items && !CarriesLrs(items, Join(ws, name))
  }

  /** Position `i` holds the first dataset the scan stops at with a result. */
  predicate FirstLrsAt(items: map<string, Item>, ws: string, names: seq<string>, i: int)
  {
    0 <= i < |names| && Join(ws, names[i]) in items && CarriesLrs(items, Join(ws, names[i]))
    && forall j :: 0 <= j < i ==> Skipped(items, ws, names[j])
  }

  /** The scan as a recursive reference definition. */
  function Scan(items: map<string, Item>, ws: string, names: seq<string>): ScanResult
    decreases |names|
  {
    if names == [] then NoLrs
    else
      var datasetPath := Join(ws, names[0]);
      if datasetPath !in items then ScanRaised
      else if CarriesLrs(items, datasetPath) then Found(names[0])
      else Scan(items, ws, names[1..])
  }

  /** `GetLRSDataset(featureDatasetPath)` as a function of the catalog. */
  function FindLrsDataset(items: map<string, Item>, featureDatasetPath: string): ScanResult
  {
    var ws := Dirname(featureDatasetPath);
    if ws !in items then ScanRaised else Scan(items, ws, DatasetsIn(items, ws))
  }

  /** Passing over the head of the list shifts every later position by one. */
  lemma ShiftPastSkipped(items: map<string, Item>, ws: string, names: seq<string>, i: int)
    requires 0 < i < |names| && Skipped(items, ws, names[0])
    ensures FirstLrsAt(items, ws, names, i) <==> FirstLrsAt(items, ws, names[1..], i - 1)
  {
    assert forall j :: 0 < j <= i ==> names[j] == names[1..][j - 1];
  }

  /** The scan finds something exactly when some dataset is the first hit, and returns that dataset. */
  lemma {:induction false} ScanFindsFirst(items: map<string, Item>, ws: string, names: seq<string>)
    ensures Scan(items, ws, names).Found? <==> exists i :: FirstLrsAt(items, ws, names, i)
    ensures Scan(items, ws, names).Found?
        ==> exists i :: FirstLrsAt(items, ws, names, i) && names[i] == Scan(items, ws, names).dataset
    decreases |names|
  {
    if names != [] {
      var rest := names[1..];
      ScanFindsFirst(items, ws, rest);
      if Join(ws, names[0]) !in items {
        assert forall i :: 0 <= i < |names| ==> !FirstLrsAt(items, ws, names, i);
      } else if CarriesLrs(items, Join(ws, names[0])) {
        assert FirstLrsAt(items, ws, names, 0);
      } else {
        assert !FirstLrsAt(items, ws, names, 0);
        forall i | 0 < i < |names|
          ensures FirstLrsAt(items, ws, names, i) <==> FirstLrsAt(items, ws, rest, i - 1)
        {
          ShiftPastSkipped(items, ws, names, i);
        }
        if Scan(items, ws, rest).Found? {
          var i :| FirstLrsAt(items, ws, rest, i) && rest[i] == Scan(items, ws, rest).dataset;
          assert FirstLrsAt(items, ws, names, i + 1);
        }
      }
    }
  }

  /** The scan runs to the end exactly when it passes over every listed dataset. */
  lemma {:induction false} ScanEndsIff(items: map<string, Item>, ws: string, names: seq<string>)
    ensures Scan(items, ws, names) == NoLrs <==> forall i :: 0 <= i < |names| ==> Skipped(items, ws, names[i])
    decreases |names|
  {
    if names != [] {
      var rest := names[1..];
      ScanEndsIff(items, ws, rest);
      assert forall i :: 0 < i < |names| ==> names[i] == rest[i - 1];
      if !Skipped(items, ws, names[0]) {
        assert Scan(items, ws, names) != NoLrs;
      }
    }
  }

  /** The scan raises exactly when some dataset's own describe fails before any hit. */
  lemma {:induction false} ScanRaisesIff(items: map<string, Item>, ws: string, names: seq<string>)
    ensures Scan(items, ws, names) == ScanRaised
        <==> exists i :: 0 <= i < |names| && Join(ws, names[i]) !in items
                         && forall j :: 0 <= j < i ==> Skipped(items, ws, names[j])
    decreases |names|
  {
    if names != [] {
      var rest := names[1..];
      ScanRaisesIff(items, ws, rest);
      if Join(ws, names[0]) !in items {
        assert Scan(items, ws, names) == ScanRaised;
      } else if CarriesLrs(items, Join(ws, names[0])) {
        assert !Skipped(items, ws, names[0]);
      } else {
        if Scan(items, ws, rest) == ScanRaised {
          var i :| 0 <= i < |rest| && Join(ws, rest[i]) !in items
                   && forall j :: 0 <= j < i ==> Skipped(items, ws, rest[j]);
          assert forall j :: 0 < j <= i ==> names[j] == rest[j - 1];
          assert Join(ws, names[i + 1]) !in items;
        } else {
          forall i | 0 < i < |names| && Join(ws, names[i]) !in items
            ensures exists j :: 0 <= j < i && !Skipped(items, ws, names[j])
          {
            assert names[i] == rest[i - 1];
            assert forall j :: 0 < j <= i ==> names[j] == rest[j - 1];
            var j :| 0 <= j < i - 1 && !Skipped(items, ws, rest[j]);
            assert !Skipped(items, ws, names[j + 1]);
          }
        }
      }
    }
  }

  /**
    The guard looks at `ws\\ds\\ds` only: adding an object with LRS
    metadata at `ws\\ds\\name` makes the dataset carry an LRS for the guard
    exactly when the name is that of the dataset (or it carried one already).
   */
  lemma LrsSeenOnlyUnderDatasetName(items: map<string, Item>, ws: string, ds: string, name: string, lrs: Item)
    requires Proper(ws) && IsSegment(ds) && Sep !in name && lrs.lrsMetadata
    ensures var fd := Join(ws, ds);
            CarriesLrs(items[Join(fd, name) := lrs], fd) <==> name == ds || CarriesLrs(items, fd)
  {
    var fd := Join(ws, ds);
    SplitJoin(ws, ds);
    SplitJoin(fd, name);
    SplitJoin(fd, ds);
    assert Join(fd, name) == Join(fd, ds) <==> name == ds;
  }

  /**
    The loop of `GetLRSDataset` over the catalog: the workspace and each
    listed dataset must describe, the inner describe is allowed to fail (the
    dataset is then skipped), and the first dataset with LRS metadata is
    returned.
   */
  method GetLRSDataset(cat: Catalog, featureDatasetPath: string) returns (r: ScanResult)
    ensures r == FindLrsDataset(cat.items, featureDatasetPath)
    ensures r.Found? ==>
              var ws := Dirname(featureDatasetPath);
              ws in cat.items
              && exists i :: FirstLrsAt(cat.items, ws, DatasetsIn(cat.items, ws), i)
                             && DatasetsIn(cat.items, ws)[i] == r.dataset
    ensures r == NoLrs ==>
              var ws := Dirname(featureDatasetPath);
              ws in cat.items && forall d :: d in DatasetsIn(cat.items, ws) ==> Skipped(cat.items, ws, d)
  {
    var workspaceDir := Dirname(featureDatasetPath);
    if !cat.Exists(workspaceDir) {
      return ScanRaised;
    }
    var datasets := DatasetsIn(cat.items, workspaceDir);
    var i := 0;
    while i < |datasets|
      invariant 0 <= i <= |datasets|
      invariant forall j :: 0 <= j < i ==> Skipped(cat.items, workspaceDir, datasets[j])
      invariant Scan(cat.items, workspaceDir, datasets) == Scan(cat.items, workspaceDir, datasets[i..])
    {
      assert datasets[i..][1..] == datasets[i + 1..];
      var datasetPath := Join(workspaceDir, datasets[i]);
      if !cat.Exists(datasetPath) {
        return ScanRaised;
      }
      var datasetName := LastSegment(datasetPath);
      var inner := Join(datasetPath, datasetName);
      if cat.Exists(inner) && cat.items[inner].lrsMetadata {
        assert FirstLrsAt(cat.items, workspaceDir, datasets, i);
        return Found(datasets[i]);
      }
      i := i + 1;
    }
    return NoLrs;
  }
}
