# Create Schema Items — a Dafny model

`CreateSchemaItems.py` is an ArcGIS Pro geoprocessing tool. It prepares a
feature dataset for Location Referencing: it creates a Redline feature
class, a Calibration_Point feature class and a Centerline_Sequence table,
and then binds them with the dataset's RoadCenterline feature class into
an LRS (linear referencing system). Before it runs, its `updateMessages`
validation checks the feature dataset and the LRS name:

- The feature dataset must exist.
- No dataset in its workspace may already hold an LRS, as far as the
  existing-LRS guard can tell. That guard describes only
  `<workspace>\<dataset>\<dataset>`, an object named after its own
  feature dataset. An LRS under any other name goes unseen, including one
  this tool created under a name other than the dataset's
  (`LrsDetection.LrsSeenOnlyUnderDatasetName`).
- The dataset must have a RoadCenterline feature class with a `cl_id`
  field.
- The LRS name must not start with a space, may use only letters, digits,
  `_`, `-` and space, and may be at most 32 characters long.

This project models that logic in Dafny over an abstract geodatabase
catalog. The ArcGIS runtime (`arcpy`) is not modelled. Its place is
taken by `Platform.Catalog`, a class holding a map from backslash paths to
items (kind, field list, LRS-metadata flag, branch-versioning flag, editor
tracking), the list of error messages the tool added, and a log of license
check-outs, binding attempts and check-ins. How the runtime behaves is a
parameter, `Platform.Behaviour`:

- the paths it refuses to create (for example for lack of a license);
- whether creating an object that already exists raises;
- whether the LRS binding call raises.

Each operation of the script that changes state is a method on that
catalog. Each method is proved equal to a function on a `World` snapshot,
and the properties are proved about those functions:

- `Paths`: Python's `split('\\')[-1]`, `os.path.dirname` and `+ '\\' +`
  joining on backslash paths.
- `LrsName`: the name check of `updateMessages`, including the fact that
  Python's `$` also matches before one final newline.
- `LrsDetection`: the `GetLRSDataset` scan.
- `Validation`: the feature-dataset checks and `updateMessages` over a
  `ToolParameters` object.
- `SchemaItems`: the three `Create*` helpers with their shared one-element
  `passFail` list, modelled as an `array<Verdict>`.
- `Pipeline`: `CreateLRS` and `execute`.

An exception that escapes a function is a `raised` result (`ScanRaised`,
`RaisedAt(stage)`). An exception caught by `except BaseException` is the
message the handler adds.

Two details of `updateMessages` shape what a user sees:

- A dataset error returns from `updateMessages` before the name is read
  (`CreateSchemaItems.py:72`, `:77`, `:82`, `:88`). The name is checked
  only when the dataset parameter is unaltered or passes all four checks.
- The name checks are an `if`/`elif` chain (`CreateSchemaItems.py:99-104`),
  so at most one name message is set.

`CreateCenterlineSequenceTable` calls `CreateTable` twice: once outside any
`try` (line 263) and once inside one (line 266). The model keeps both calls.
On a runtime that raises when the object already exists, the second call
fails. The "could not create" message is then added, the bare table stays
behind without fields, and `execute` stops (`Pipeline.NoRunCompletesWhenCreateRaisesOnExisting`,
`Pipeline.TableFailureLeavesBareTable`). On a runtime that overwrites
instead, the table is created and populated.

## Model

| member | source | states |
|---|---|---|
| LrsName.NameVerdicts | CreateSchemaItems.py:94-104 | For a non-empty name, each verdict of the `if`/`elif` chain holds exactly when its condition holds. A leading space always gives the space error. Otherwise a character outside the class (other than one final newline) gives the special-characters error. Otherwise more than 32 characters gives the length error. The name is accepted exactly when none of these applies. |
| LrsName.MatchesPatternIff | CreateSchemaItems.py:96-97 | `re.search('^[a-zA-Z0-9_\- ]+$', s)` succeeds exactly when `s` is non-empty and every character is in the class, except that a single final newline after at least one character is tolerated. |
| LrsName.AllNameCharsIff | CreateSchemaItems.py:96 | The character-class check holds exactly when every character is a letter, a digit, `_`, `-` or a space. |
| LrsName.TrailingNewlineTolerated | CreateSchemaItems.py:96-104 | An accepted name shorter than 32 characters stays accepted with one newline appended, because of how Python's `$` works. |
| Paths.Split | CreateSchemaItems.py:173 | `split('\\')` returns at least one piece, and exactly one when the path has no separator. |
| Paths.SplitRoundTrip | CreateSchemaItems.py:173 | Joining the pieces of `split('\\')` with backslashes gives the path back. |
| Paths.SplitPiecesAreSegments | CreateSchemaItems.py:173 | No piece of `split('\\')` contains a backslash. |
| Paths.SplitLastIsLastSegment | CreateSchemaItems.py:173 | The last element of `split('\\')` is the text after the last backslash, or the whole path when it has none. |
| Paths.LastSepEndSpec | CreateSchemaItems.py:172-173 | The split point found is just after a backslash, and no backslash follows it. |
| Paths.SplitJoin | CreateSchemaItems.py:172-175 | For a parent without a trailing backslash and a name without one, `dirname` of `parent + '\\' + name` is the parent and the last segment is the name. |
| Paths.RebuildPath | CreateSchemaItems.py:172-175 | `dirname(p) + '\\' + p.split('\\')[-1]` gives `p` back when a single backslash with something before it precedes the last segment. |
| Platform.FieldNames | CreateSchemaItems.py:85 | `[field.name for field in fields]` has one name per field, in order. |
| Platform.Catalog.Describe | CreateSchemaItems.py:117-124 | Describing a path yields its item exactly when the path is in the catalog. Otherwise it yields nothing, which is where `execute` raises. |
| Platform.Catalog.CreateFeatureclass | CreateSchemaItems.py:186-191 | It raises when the container is missing, the path is refused, or the object exists on a runtime that raises on existing objects. Otherwise it writes a new empty feature class at `container\name`. |
| Platform.Catalog.CreateTable | CreateSchemaItems.py:263-269 | The same as `CreateFeatureclass` for a table without geometry. |
| Platform.Catalog.AddField | CreateSchemaItems.py:194-200 | It appends exactly one named field to the object's field list. Everything else is unchanged. |
| Platform.Catalog.AddGlobalIDs | CreateSchemaItems.py:203 | It appends the GlobalID field to the object. Everything else is unchanged. |
| Platform.Catalog.EnableEditorTracking | CreateSchemaItems.py:204-205 | It appends the four named tracking fields and turns editor tracking on for the object. Everything else is unchanged. |
| Platform.Catalog.AddError | CreateSchemaItems.py:133 | It appends one message to the tool's messages. Nothing else changes. |
| Platform.Catalog.CheckOutExtension | CreateSchemaItems.py:313 | It logs one check-out. Nothing else changes. |
| Platform.Catalog.CheckInExtension | CreateSchemaItems.py:329 | It logs one check-in. Nothing else changes. |
| Platform.Catalog.CreateLRSFromExistingDataset | CreateSchemaItems.py:315-324 | It logs the attempt. It raises when the runtime rejects the binding or the LRS path is taken. Otherwise it adds the LRS object next to the centerline and changes nothing else. |
| LrsDetection.LrsSeenOnlyUnderDatasetName | CreateSchemaItems.py:343-352 | For a dataset `ws\ds`, adding an object with LRS metadata at `ws\ds\name` makes the guard see an LRS exactly when `name` is `ds`, or when it saw one already. |
| LrsDetection.GetLRSDataset | CreateSchemaItems.py:331-355 | The loop's result is the scan over the workspace's datasets. A found dataset is the first listed one whose inner object carries LRS metadata, with every earlier one skipped. |
| LrsDetection.ScanFindsFirst | CreateSchemaItems.py:342-353 | The scan finds a dataset exactly when some listed dataset is the first with LRS metadata, and then returns that dataset. |
| LrsDetection.ScanEndsIff | CreateSchemaItems.py:342-355 | The scan returns `None` exactly when every listed dataset is skipped: its inner object does not describe, or it carries no LRS metadata. |
| LrsDetection.ScanRaisesIff | CreateSchemaItems.py:343-349 | The scan raises exactly when some dataset's own describe (outside the `try`) fails before any hit. |
| Validation.DatasetVerdicts | CreateSchemaItems.py:69-92 | The four dataset checks apply in order, and each rejection holds exactly when the checks before it passed and its own check failed. A dataset is accepted exactly when all four pass, and the derived workspace is then `dirname(path)`. |
| Validation.ToolParameters.UpdateMessages | CreateSchemaItems.py:63-106 | An altered dataset gets exactly the first failing check's message, or the workspace output when all pass. The name is checked only when the dataset is unaltered or accepted, and then gets exactly the chain's one message. An empty name or a failing describe raises. Nothing else changes. |
| SchemaItems.VersioningIff | CreateSchemaItems.py:202-205 | A created object keeps its fixed fields first. It has the GlobalID field, all four tracking fields and editor tracking exactly when the workspace is branch-versioned. |
| SchemaItems.FixedFieldsExcludeVersioning | CreateSchemaItems.py:194-200 | No fixed field list already holds the GlobalID field or a tracking field, so those appear only when versioning is on. |
| SchemaItems.AddVersioning | CreateSchemaItems.py:202-205 | When branch-versioned, the GlobalID field and the four tracking fields are appended and editor tracking is turned on. Otherwise the object is unchanged. |
| SchemaItems.AddRedlineFields | CreateSchemaItems.py:194-200 | The seven Redline fields are appended in order. Nothing else changes. |
| SchemaItems.AddCalibrationPointFields | CreateSchemaItems.py:233-237 | The five Calibration_Point fields are appended in order. Nothing else changes. |
| SchemaItems.AddCenterlineSequenceFields | CreateSchemaItems.py:272-276 | The five Centerline_Sequence fields are appended in order. Nothing else changes. |
| SchemaItems.FeatureClassStepKeeps | CreateSchemaItems.py:170-208 | A feature-class helper never removes or replaces an object and never raises. It writes "Fail" exactly when its target exists, and adds its failure message exactly when the target is absent and nothing was created. Whatever it creates sits at `dirname(p)\lastSegment(p)` with the fixed fields and the versioning additions. |
| SchemaItems.CenterlineSequenceStepKeeps | CreateSchemaItems.py:247-284 | The table helper never removes or replaces an object. It writes "Fail" exactly when its target exists. It raises exactly when the unguarded `CreateTable` does, and the world is then unchanged. It reports its failure exactly on a runtime that raises on existing objects, leaving a bare table. Otherwise it creates the populated table. |
| SchemaItems.CreateRedlineFeatureClass | CreateSchemaItems.py:170-208 | The helper's effect on the catalog, `passFail[0]` and its return value is the Redline step. |
| SchemaItems.CreateCalibrationPointFeatureClass | CreateSchemaItems.py:210-245 | The helper's effect on the catalog, `passFail[0]` and its return value is the Calibration_Point step. |
| SchemaItems.CreateCenterlineSequenceTable | CreateSchemaItems.py:247-284 | The helper's effect on the catalog, `passFail[0]`, its return value and the escaping exception is the Centerline_Sequence step. |
| Pipeline.LrsStepBrackets | CreateSchemaItems.py:313-329 | The license is checked out before and checked in after exactly one binding attempt, whether or not it raises. A raise adds only "Could not create LRS dataset." A success adds only the LRS object. |
| Pipeline.CreateLRS | CreateSchemaItems.py:286-329 | The function's effect is the LRS step for the request it builds: the name is the last segment of its output path, and the centerline is RoadCenterline in that path's parent. |
| Pipeline.Execute | CreateSchemaItems.py:107-164 | The method's outcome and final catalog are the run of the pipeline on the initial catalog. |
| Pipeline.RunKeepsExisting | CreateSchemaItems.py:128-162 | No run removes or alters an object that existed before it. |
| Pipeline.RunExplainsStops | CreateSchemaItems.py:130-156 | An early return adds exactly one message of the stage that stopped it, either "already exists" or "could not create". A raise adds none. A completed run adds at most the LRS failure message. |
| Pipeline.RunBracketsLicense | CreateSchemaItems.py:158-162 | The license log changes only in a completed run. There it gains exactly check-out, one binding attempt with the run's request, and check-in. |
| Pipeline.RerunStopsAtRedline | CreateSchemaItems.py:130-134 | Running again after a completed run adds the Redline "already exists" message and changes nothing else. |
| Pipeline.ExistingRedlineStops | CreateSchemaItems.py:130-134 | An existing Redline feature class stops the run with only its "already exists" message added. |
| Pipeline.ExistingCalibrationPointStops | CreateSchemaItems.py:140-144 | An existing Calibration_Point stops the run after Redline was created. The new Redline stays, with no rollback, and only the "already exists" message is added. |
| Pipeline.ExistingTableStops | CreateSchemaItems.py:150-154 | An existing Centerline_Sequence table stops the run after both feature classes were created. Both stay, and only the "already exists" message is added. |
| Pipeline.RunKeepsAfterRedline | CreateSchemaItems.py:138-162 | Once the Redline step has created its object, the final catalog keeps every object present right after that step. |
| Pipeline.RunKeepsAfterCalibrationPoint | CreateSchemaItems.py:148-162 | Once both feature-class steps have created their objects, the run does not stop at either of them, and the table stage and the LRS step keep every object present right after the Calibration_Point step. |
| Pipeline.CreatedRedlineStays | CreateSchemaItems.py:138-162 | If Redline was absent and not refused, the run gets past the Redline stage. The new Redline feature class is still in the final catalog with its fields, however the run ends, so nothing is rolled back. |
| Pipeline.CreatedFeatureClassesStay | CreateSchemaItems.py:148-162 | If both feature classes were absent and not refused, the run reaches the table stage. Both new feature classes remain whether the table stage finds its table, reports a failure, raises from the unguarded `CreateTable`, or the run completes. |
| Pipeline.SchemaVersioning | CreateSchemaItems.py:202-205 | Each of the three objects a run adds has GlobalID, the four tracking fields and editor tracking exactly when the branch-versioning flag is set. |
| Pipeline.CompletedRunVersioning | CreateSchemaItems.py:123-162 | After a completed run, Redline, Calibration_Point and Centerline_Sequence carry GlobalID, the four tracking fields and editor tracking exactly when RoadCenterline is branch-versioned. |
| Pipeline.NoRunCompletesWhenCreateRaisesOnExisting | CreateSchemaItems.py:263-269 | On a runtime that raises when creating an existing object, no run completes. |
| Pipeline.TableFailureLeavesBareTable | CreateSchemaItems.py:263-269 | A run whose only new message is the table's "could not create" happened on a runtime that raises on existing objects. It stopped at the table stage and left a new table without fields. |
| Pipeline.BareTableIsReported | CreateSchemaItems.py:152-156 | Conversely, a run that stops at the table stage leaving a new bare table has added exactly the table's "could not create" message. |
| Pipeline.JoinedDatasetTargets | CreateSchemaItems.py:128-150 | For a dataset `ws\ds`, Redline and Calibration_Point go into the feature dataset and Centerline_Sequence into the workspace. Each helper's rebuilt target is the path it was given. |
| Pipeline.JoinedDatasetTargetsDistinct | CreateSchemaItems.py:128-150 | The three targets are distinct from each other, from the workspace and from RoadCenterline. The table path equals the feature dataset path exactly when the dataset is named Centerline_Sequence. |
| Pipeline.CompletesIff | CreateSchemaItems.py:107-164 | A run on `ws\ds` completes exactly when the dataset, RoadCenterline and workspace exist, none of the three targets exists or is refused, and the runtime does not raise on existing objects. |
| Pipeline.RunRequestNames | CreateSchemaItems.py:286-324 | The binding request of a run names the LRS `lrsName`, puts it at `ws\ds\lrsName` and uses the dataset's RoadCenterline and the three new objects. |
| Pipeline.LrsPathAmongTargets | CreateSchemaItems.py:160-161 | The LRS path is never the table path. It coincides with Redline or Calibration_Point exactly when the name is `Redline` or `Calibration_Point`. |
| Pipeline.CompletedRunSchema | CreateSchemaItems.py:123-156 | A completed run is the LRS step applied to the catalog with exactly the three schema objects added. Each has its fixed fields and, when RoadCenterline is branch-versioned, the versioning fields. |
| Pipeline.LrsAfterSchema | CreateSchemaItems.py:313-326 | After the schema step, the LRS is added exactly when the runtime accepts the binding, its path was free and the name is neither `Redline` nor `Calibration_Point`. Otherwise only the LRS failure message is added. |
| Pipeline.AcceptedDatasetRuns | CreateSchemaItems.py:117-124 | A dataset that passes validation never makes `execute` raise while describing its inputs. The table stage raises only when the runtime refuses the table. |
| Pipeline.FieldMapNamesSchemaFields | CreateSchemaItems.py:289-307 | Every field name the binding call is given exists in the field list of the object it refers to. RoadCenterline's is `cl_id`. |

## Left out

- Spatial references, geometry details, Z/M flags, field types, lengths and nullability are not modelled. Fields are names with an opaque kind tag, and only the shape (polyline, point) is kept.
- Progressor labels and `arcpy.env.workspace` are not modelled. The workspace is passed explicitly.
- `getParameterInfo`, `isLicensed`, `updateParameters` and `__init__` are left out: they are tool metadata with no behaviour.
- The unused locals `featureDatasetName`, `featureDataset` and `workspaceDir` of `execute` (lines 113-114, 120) are left out.
- `arcpy.Describe`, `ListDatasets`, `ListFields` and `Exists` are lookups in the catalog map. `Describe(workspaceDir).catalogPath` is taken to be the path itself, and a dataset listed under a workspace is taken to sit at `workspace\name`.
- `CreateLRSFromExistingDataset` is modelled as an opaque call that either adds the LRS object or raises. Its validation of the field map is not modelled.
- `os.path.dirname` is modelled for backslash paths only. Drive letters, UNC prefixes and forward slashes are not handled.
- `valueAsText` returning `None` (an empty parameter) is not modelled. Parameter values are strings.
- Python string indexing on an empty name raises `IndexError`. `LrsName.CheckName` therefore requires a non-empty name, and `Validation.ToolParameters.UpdateMessages` reports the empty-name case as a raise.
- Calls into the runtime are assumed to raise only as `Platform.Behaviour` says. `AddField`, `AddGlobalIDs`, `EnableEditorTracking`, `CheckOutExtension` and `CheckInExtension` never raise in the model, though none is guarded in the code (lines 194-205, 233-242, 272-281, 313, 329). Reading `desc.LrsMetadata` (line 351) is assumed to succeed on every described object. A raise at any of these points would escape `execute` or `updateMessages` and leave a partly populated object behind, which the model's outcomes do not express.
- Pipeline.CreatedRedlineStays: stated only for `ws\ds` paths. `Pipeline.RunKeepsAfterRedline` holds for every path.
- Pipeline.CreatedFeatureClassesStay: stated only for `ws\ds` paths. `Pipeline.RunKeepsAfterCalibrationPoint` holds for every path.
- Pipeline.SchemaVersioning: stated only for `ws\ds` paths.
- Pipeline.CompletedRunVersioning: stated only for `ws\ds` paths.
- LrsDetection.LrsSeenOnlyUnderDatasetName: stated only for `ws\ds` paths and names without a backslash.
- Pipeline.CompletesIff: stated only for a feature dataset written as `ws\ds` with no doubled or trailing backslash. `Pipeline.Execute` itself covers every path.
- Pipeline.CompletedRunSchema: stated only for `ws\ds` paths as above.
- Pipeline.LrsAfterSchema: stated only for `ws\ds` paths and LRS names without a backslash.
- Pipeline.RunRequestNames: stated only for `ws\ds` paths and LRS names without a backslash.
- Pipeline.LrsPathAmongTargets: stated only for `ws\ds` paths and LRS names without a backslash.
- Pipeline.AcceptedDatasetRuns: stated only for `ws\ds` paths.
- Pipeline.ExistingRedlineStops: stated only for `ws\ds` paths. `Pipeline.RunExplainsStops` and `Pipeline.RunKeepsExisting` hold for every path.
- Pipeline.ExistingCalibrationPointStops: stated only for `ws\ds` paths.
- Pipeline.ExistingTableStops: stated only for `ws\ds` paths.
- Pipeline.JoinedDatasetTargets: stated only for `ws\ds` paths.
- Pipeline.JoinedDatasetTargetsDistinct: stated only for `ws\ds` paths.
- Paths.RebuildPath: stated only for paths whose last separator is single and not leading. With doubled separators, `dirname` strips them and the rebuilt path differs.
