/**
  The closed GIS runtime the script drives, reduced to an abstract catalog:
  a map from catalog paths to the objects stored there, the error messages
  the tool has emitted, and a log of license and LRS-binding calls. Each
  runtime call the script makes is a method of `Catalog`, specified by a
  function on the `World` snapshot. Runtime calls that fail raise in Python;
  here they return `raised`.
 */
module Platform {
  import opened Paths
  import opened Optional

  datatype Shape = Polyline | Point

  /** What a catalog object is; a workspace lists its feature datasets in enumeration order. */
  datatype Kind =
    | Workspace(datasets: seq<string>)
    | FeatureDataset
    | FeatureClass(shape: Shape)
    | Table
    | LrsNetwork

  /** Field types as opaque tags; lengths and nullability are not modelled. */
  datatype FieldKind = DoubleField | TextField | DateField | ShortField | GuidField | GlobalIdField

  datatype Field = Field(name: string, kind: FieldKind)

  /** The part of a catalog object's description the script reads or changes. */
  datatype Item = Item(kind: Kind, fields: seq<Field>, lrsMetadata: bool, branchVersioned: bool, editorTracking: bool)

  /** Messages `execute` and its helpers emit with `AddError`. */
  datatype Message =
    | RedlineExists
    | CalibrationPointExists
    | CenterlineSequenceExists
    | RedlineNotCreated
    | CalibrationPointNotCreated
    | CenterlineSequenceNotCreated
    | LrsNotCreated

  function MessageText(m: Message): string
  {
    match m
    case RedlineExists =>
      "The Redline feature class already exists in the feature dataset. Verify that an LRS doesn't already exist."
    case CalibrationPointExists =>
      "The Calibration_Point feature class already exists in the feature dataset. Verify that an LRS doesn't already exist."
    case CenterlineSequenceExists =>
      "The Centerline_Sequence table already exists in the feature dataset. Verify that an LRS doesn't already exist."
    case RedlineNotCreated =>
      "Could not create Redline feature class. Verify that you have at least a Standard license level in Pro to work with this data."
    case CalibrationPointNotCreated =>
      "Could not create CalibrationPoint feature class. Verify that you have at least a Standard license level in Pro to work with this data."
    case CenterlineSequenceNotCreated =>
      "Could not create CenterlineSequence table."
    case LrsNotCreated =>
      "Could not create LRS dataset."
  }

  /** The field names handed to the LRS-binding call, one per role. */
  datatype FieldMap = FieldMap(
    centerlineId: string,
    sequenceCenterlineId: string, sequenceRouteId: string, sequenceFromDate: string,
    sequenceToDate: string, sequenceNetworkId: string,
    calibrationMeasure: string, calibrationFromDate: string, calibrationToDate: string,
    calibrationRouteId: string, calibrationNetworkId: string,
    redlineFromMeasure: string, redlineToMeasure: string, redlineRouteId: string,
    redlineRouteName: string, redlineEffectiveDate: string, redlineActivityType: string,
    redlineNetworkId: string)

  /** The arguments of one `CreateLRSFromExistingDataset` call, with the workspace it runs in. */
  datatype BindRequest = BindRequest(
    workspace: string, lrsName: string, centerline: string, sequenceTable: string,
    calibrationPoint: string, redline: string, fieldMap: FieldMap)

  datatype Event =
    | CheckedOut(extension: string)
    | BindAttempted(request: BindRequest)
    | CheckedIn(extension: string)

  /**
    How the runtime answers the calls whose outcome the script cannot see:
    paths it refuses to create (a license level too low, say), whether
    creating an object that already exists raises or overwrites it, and
    whether the LRS-binding call raises.
   */
  datatype Behaviour = Behaviour(refused: set<string>, raisesOnExisting: bool, bindRaises: bool)

  datatype World = World(items: map<string, Item>, errors: seq<Message>, events: seq<Event>)

  /** The world after a runtime call, and whether the call raised. */
  datatype Attempt = Attempt(world: World, raised: bool)

  /** A freshly created object: no fields, no LRS metadata, no editor tracking. */
  function NewItem(kind: Kind): Item
  {
    Item(kind, [], false, false, false)
  }

  function FieldNames(fields: seq<Field>): (names: seq<string>)
    ensures |names| == |fields|
    ensures forall i :: 0 <= i < |fields| ==> names[i] == fields[i].name
  {
    if fields == [] then [] else [fields[0].name] + FieldNames(fields[1..])
  }

  /** Creating `name` inside `container` raises. */
  predicate CreateRaises(b: Behaviour, items: map<string, Item>, container: string, name: string)
  {
    var target := Join(container, name);
    container !in items || target in b.refused || (target in items && b.raisesOnExisting)
  }

  /** `CreateFeatureclass` / `CreateTable`: a new empty object at `container\name`, or a raise. */
  function Create(b: Behaviour, w: World, container: string, name: string, kind: Kind): Attempt
  {
    if CreateRaises(b, w.items, container, name) then Attempt(w, true)
    else Attempt(w.(items := w.items[Join(container, name) := NewItem(kind)]), false)
  }

  /** Every object of `before` is still in `after`, unchanged. */
  predicate Extends(before: map<string, Item>, after: map<string, Item>)
  {
    forall q :: q in before ==> q in after && after[q] == before[q]
  }

  lemma ExtendsTransitive(a: map<string, Item>, b: map<string, Item>, c: map<string, Item>)
    requires Extends(a, b) && Extends(b, c)
    ensures Extends(a, c)
  {
  }

  /** `items` with `fs` appended to the fields of the object at `p`. */
  function WithFields(items: map<string, Item>, p: string, fs: seq<Field>): (r: map<string, Item>)
    requires p in items
    ensures p in r && r.Keys == items.Keys
  {
    items[p := items[p].(fields := items[p].fields + fs)]
  }

  /** Two rounds of appended fields are one round of both lists. */
  lemma WithFieldsTwice(items: map<string, Item>, p: string, fs: seq<Field>, gs: seq<Field>)
    requires p in items
    ensures WithFields(WithFields(items, p, fs), p, gs) == WithFields(items, p, fs + gs)
  {
    assert items[p].fields + fs + gs == items[p].fields + (fs + gs);
  }

  /** The field `AddGlobalIDs` adds. */
  const GlobalIdFieldDef: Field := Field("GlobalID", GlobalIdField)

  /** The four fields `EnableEditorTracking(..., add_fields=True)` adds, for the given names. */
  function TrackingFieldsNamed(creator: string, created: string, editor: string, edited: string): seq<Field>
  {
    [Field(creator, TextField), Field(created, DateField), Field(editor, TextField), Field(edited, DateField)]
  }

  /** Where the binding call puts the LRS: beside the centerline feature class. */
  function LrsTarget(req: BindRequest): string
  {
    Join(Dirname(req.centerline), req.lrsName)
  }

  /**
    `CreateLRSFromExistingDataset`, whose internals are not modelled: the
    attempt is logged; the call raises when the runtime says so or when
    something already sits where the LRS would go, and otherwise leaves an
    LRS object carrying LRS metadata there.
   */
  function Bind(b: Behaviour, w: World, req: BindRequest): Attempt
  {
    var logged := w.(events := w.events + [BindAttempted(req)]);
    var target := LrsTarget(req);
    if b.bindRaises || target in w.items then Attempt(logged, true)
    else Attempt(logged.(items := logged.items[target := Item(LrsNetwork, [], true, false, false)]), false)
  }

  class Catalog {
    const behaviour: Behaviour
    var items: map<string, Item>
    var errors: seq<Message>
    var events: seq<Event>

    function State(): World
      reads this
    {
      World(items, errors, events)
    }

    constructor (behaviour: Behaviour, items: map<string, Item>)
      ensures this.behaviour == behaviour
      ensures State() == World(items, [], [])
    {
      this.behaviour := behaviour;
      this.items := items;
      errors, events := [], [];
    }

    /** `arcpy.Exists`. */
    predicate Exists(p: string)
      reads this
    {
      p in items
    }

    /** `arcpy.Describe(p)`: the object's description, or `None` where Python raises because nothing is there. */
    method Describe(p: string) returns (description: Option<Item>)
      ensures description.Some? <==> p in items
      ensures description.Some? ==> description.value == items[p]
    {
      description := if p in items then Some(items[p]) else None;
    }

    /** `arcpy.management.CreateFeatureclass(outPath, outName, shape, ...)`. */
    method CreateFeatureclass(outPath: string, outName: string, shape: Shape) returns (raised: bool)
      modifies this
      ensures State() == Create(behaviour, old(State()), outPath, outName, FeatureClass(shape)).world
      ensures raised == Create(behaviour, old(State()), outPath, outName, FeatureClass(shape)).raised
    {
      raised := CreateRaises(behaviour, items, outPath, outName);
      if !raised {
        items := items[Join(outPath, outName) := NewItem(FeatureClass(shape))];
      }
    }

    /** `arcpy.management.CreateTable(outPath, outName)`. */
    method CreateTable(outPath: string, outName: string) returns (raised: bool)
      modifies this
      ensures State() == Create(behaviour, old(State()), outPath, outName, Table).world
      ensures raised == Create(behaviour, old(State()), outPath, outName, Table).raised
    {
      raised := CreateRaises(behaviour, items, outPath, outName);
      if !raised {
        items := items[Join(outPath, outName) := NewItem(Table)];
      }
    }

    /** `arcpy.management.AddField(p, name, kind, ...)` on an existing object. */
    method AddField(p: string, name: string, kind: FieldKind)
      requires p in items
      modifies this
      ensures items == WithFields(old(items), p, [Field(name, kind)])
      ensures errors == old(errors) && events == old(events)
    {
      items := items[p := items[p].(fields := items[p].fields + [Field(name, kind)])];
    }

    /** `arcpy.management.AddGlobalIDs(p)`. */
    method AddGlobalIDs(p: string)
      requires p in items
      modifies this
      ensures items == old(items)[p := old(items)[p].(fields := old(items)[p].fields + [GlobalIdFieldDef])]
      ensures errors == old(errors) && events == old(events)
    {
      items := items[p := items[p].(fields := items[p].fields + [GlobalIdFieldDef])];
    }

    /** `arcpy.management.EnableEditorTracking(p, creator, created, editor, edited, add_fields=True)`. */
    method EnableEditorTracking(p: string, creator: string, created: string, editor: string, edited: string)
      requires p in items
      modifies this
      ensures items == old(items)[p := old(items)[p].(
                fields := old(items)[p].fields + TrackingFieldsNamed(creator, created, editor, edited),
                editorTracking := true)]
      ensures errors == old(errors) && events == old(events)
    {
      var tracked := items[p].(fields := items[p].fields + TrackingFieldsNamed(creator, created, editor, edited),
                               editorTracking := true);
      items := items[p := tracked];
    }

    /** `arcpy.AddError(MessageText(m))`. */
    method AddError(m: Message)
      modifies this
      ensures errors == old(errors) + [m]
      ensures items == old(items) && events == old(events)
    {
      errors := errors + [m];
    }

    /** `arcpy.CheckOutExtension(extension)`. */
    method CheckOutExtension(extension: string)
      modifies this
      ensures State() == old(State()).(events := old(events) + [CheckedOut(extension)])
    {
      events := events + [CheckedOut(extension)];
    }

    /** `arcpy.CheckInExtension(extension)`. */
    method CheckInExtension(extension: string)
      modifies this
      ensures State() == old(State()).(events := old(events) + [CheckedIn(extension)])
    {
      events := events + [CheckedIn(extension)];
    }

    /** `arcpy.locref.CreateLRSFromExistingDataset(...)` with the arguments in `req`. */
    method CreateLRSFromExistingDataset(req: BindRequest) returns (raised: bool)
      modifies this
      ensures State() == Bind(behaviour, old(State()), req).world
      ensures raised == Bind(behaviour, old(State()), req).raised
    {
      var target := LrsTarget(req);
      raised := behaviour.bindRaises || target in items;
      events := events + [BindAttempted(req)];
      if !raised {
        items := items[target := Item(LrsNetwork, [], true, false, false)];
      }
    }
  }
}
