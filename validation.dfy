/**
  `updateMessages`: the tool's parameter validation. The feature-dataset
  checks run first, stop at the first failure and then leave the method, so
  the name is only checked when the dataset parameter is unaltered or passes
  all four checks. A passing dataset sets the derived workspace output.
 */
module Validation {
  import opened Paths
  import opened Optional
  import opened Platform
  import opened LrsName
  import opened LrsDetection

  const RoadCenterlineName: string := "RoadCenterline"
  const CenterlineIdField: string := "cl_id"

  /** The four dataset messages, in the order they are tried. */
  datatype DatasetError = DatasetMissing | AlreadyHasLrs | NoRoadCenterline | NoCenterlineId

  function DatasetErrorText(e: DatasetError): string
  {
    match e
    case DatasetMissing => "The feature dataset does not exist at the specified location."
    case AlreadyHasLrs => "The feature dataset already contains an LRS."
    case NoRoadCenterline => "The feature dataset does not contain a RoadCenterline feature class."
    case NoCenterlineId => "The RoadCenterline feature class does not contain a cl_id field."
  }

  datatype DatasetVerdict =
    | Accepted(workspace: string)   // all four checks pass; the derived output
    | Rejected(error: DatasetError) // the first check that fails
    | CheckRaised                   // the existing-LRS scan raised

  /** The dataset branch of `updateMessages` as a function of the catalog. */
  function CheckDataset(items: map<string, Item>, featureDatasetPath: string): DatasetVerdict
  {
    if featureDatasetPath !in items then Rejected(DatasetMissing)
    else match FindLrsDataset(items, featureDatasetPath)
      case ScanRaised => CheckRaised
      case Found(_) => Rejected(AlreadyHasLrs)
      case NoLrs =>
        var roadCenterline := Join(featureDatasetPath, RoadCenterlineName);
        if roadCenterline !in items then Rejected(NoRoadCenterline)
        else if CenterlineIdField !in FieldNames(items[roadCenterline].fields) then Rejected(NoCenterlineId)
        else Accepted(Dirname(featureDatasetPath))
  }

  /** Every listed dataset of the workspace is passed over by the existing-LRS scan. */
  predicate NoListedLrs(items: map<string, Item>, ws: string)
    requires ws in items
  {
    forall d :: d in DatasetsIn(items, ws) ==> Skipped(items, ws, d)
  }

  /**
    The dataset verdicts in the order of the checks, each stated through the
    catalog: a missing dataset, then a first listed dataset carrying LRS
    metadata, then a missing RoadCenterline, then a missing cl_id field; an
    accepted dataset has passed all four and yields its parent as workspace.
   */
  lemma DatasetVerdicts(items: map<string, Item>, fd: string)
    ensures CheckDataset(items, fd) == Rejected(DatasetMissing) <==> fd !in items
    ensures CheckDataset(items, fd) == Rejected(AlreadyHasLrs)
        <==> fd in items && Dirname(fd) in items
             && exists i :: FirstLrsAt(items, Dirname(fd), DatasetsIn(items, Dirname(fd)), i)
    ensures CheckDataset(items, fd) == Rejected(NoRoadCenterline)
        <==> fd in items && Dirname(fd) in items && NoListedLrs(items, Dirname(fd))
             && Join(fd, RoadCenterlineName) !in items
    ensures CheckDataset(items, fd) == Rejected(NoCenterlineId)
        <==> fd in items && Dirname(fd) in items && NoListedLrs(items, Dirname(fd))
             && Join(fd, RoadCenterlineName) in items
             && CenterlineIdField !in FieldNames(items[Join(fd, RoadCenterlineName)].fields)
    ensures CheckDataset(items, fd).Accepted?
        <==> fd in items && Dirname(fd) in items && NoListedLrs(items, Dirname(fd))
             && Join(fd, RoadCenterlineName) in items
             && CenterlineIdField in FieldNames(items[Join(fd, RoadCenterlineName)].fields)
    ensures CheckDataset(items, fd).Accepted? ==> CheckDataset(items, fd).workspace == Dirname(fd)
  {
    var ws := Dirname(fd);
    if ws in items {
      var names := DatasetsIn(items, ws);
      ScanFindsFirst(items, ws, names);
      ScanEndsIff(items, ws, names);
      assert NoListedLrs(items, ws) <==> forall i :: 0 <= i < |names| ==> Skipped(items, ws, names[i]);
    }
  }

  /** The tool's parameters as `updateMessages` sees and changes them. */
  class ToolParameters {
    var datasetPath: string                 // parameters[0].valueAsText
    var datasetAltered: bool                // parameters[0].altered
    var datasetError: Option<DatasetError>  // parameters[0]'s error message
    var lrsName: string                     // parameters[1].valueAsText
    var nameAltered: bool                   // parameters[1].altered
    var nameError: Option<NameError>        // parameters[1]'s error message
    var workspace: Option<string>           // parameters[2].value, the derived output

    constructor (datasetPath: string, datasetAltered: bool, lrsName: string, nameAltered: bool)
      ensures this.datasetPath == datasetPath && this.datasetAltered == datasetAltered
      ensures this.lrsName == lrsName && this.nameAltered == nameAltered
      ensures datasetError == None && nameError == None && workspace == None
    {
      this.datasetPath, this.datasetAltered := datasetPath, datasetAltered;
      this.lrsName, this.nameAltered := lrsName, nameAltered;
      datasetError, nameError, workspace := None, None, None;
    }

    /** The name branch is reached: the dataset is unaltered or passes all four checks. */
    predicate ReachesNameCheck(items: map<string, Item>)
      reads this
    {
      !datasetAltered || CheckDataset(items, datasetPath).Accepted?
    }

    /**
      `updateMessages`. It sets at most one message per parameter and never
      clears one; `raised` reports an exception escaping it (a describe in the
      scan that fails, or `lrsName[0]` on an empty name).
     */
    method UpdateMessages(cat: Catalog) returns (raised: bool)
      modifies this
      ensures datasetPath == old(datasetPath) && datasetAltered == old(datasetAltered)
      ensures lrsName == old(lrsName) && nameAltered == old(nameAltered)
      ensures datasetError == if datasetAltered && CheckDataset(cat.items, datasetPath).Rejected?
                              then Some(CheckDataset(cat.items, datasetPath).error)
                              else old(datasetError)
      ensures workspace == if datasetAltered && CheckDataset(cat.items, datasetPath).Accepted?
                           then Some(Dirname(datasetPath))
                           else old(workspace)
      ensures nameError == if ReachesNameCheck(cat.items) && nameAltered && lrsName != []
                              && CheckName(lrsName).Some?
                           then CheckName(lrsName)
                           else old(nameError)
      ensures raised <==> (datasetAltered && CheckDataset(cat.items, datasetPath) == CheckRaised)
                          || (ReachesNameCheck(cat.items) && nameAltered && lrsName == [])
    {
      raised := false;
      var featureDatasetPath := datasetPath;
      if datasetAltered {
        if !cat.Exists(featureDatasetPath) {
          datasetError := Some(DatasetMissing);
          return;
        }
        var lrsDataset := GetLRSDataset(cat, featureDatasetPath);
        if lrsDataset == ScanRaised {
          raised := true;
          return;
        }
        if lrsDataset.Found? {
          datasetError := Some(AlreadyHasLrs);
          return;
        }
        var roadCenterline := Join(featureDatasetPath, RoadCenterlineName);
        if !cat.Exists(roadCenterline) {
          datasetError := Some(NoRoadCenterline);
          return;
        } else {
          var fieldList := FieldNames(cat.items[roadCenterline].fields);
          if CenterlineIdField !in fieldList {
            datasetError := Some(NoCenterlineId);
            return;
          }
        }
        workspace := Some(Dirname(featureDatasetPath));
      }
      if nameAltered {
        var name := lrsName;
        if name == [] {
          raised := true;
          return;
        }
        var error := CheckName(name);
        if error.Some? {
          nameError := error;
        }
      }
    }
  }
}
