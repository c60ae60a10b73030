# CADLoader, modelled in Dafny

This project models the logic that the runtime CAD import sample keeps for itself. Parsing, tessellation and licensing are left to the PiXYZ plugin, and the scene graph is left to Unity. The `CADLoader` component keeps these pieces:

- **A single-flight admission guard and the import lifecycle.** `LoadCAD` checks three ordered rejection rules. It then raises the `isImporting` flag, starts the import timer for the first file of a batch, notifies `ImportStarted`, and schedules the import coroutine on a fresh `CoroutineScheduler` with a fresh `PiXYZ4UnityLoader`. When the load finishes, the coroutine's tail does the following:
  - lowers the flag;
  - records the elapsed time since the batch start in `cadImportTiming`;
  - places the imported model;
  - notifies `ImportEnded` only for the last file of a batch;
  - marks the importer done, drops it and stops the scheduler.

  `Progress` and `ProgressStatus` report 0 and `""` whenever no loader is held.
- **The bounds union (`getSize`).** It folds the renderers' axis-aligned boxes with `Encapsulate`. If there is no renderer, it returns the default zero box.
- **The recentering of the imported model and the default LOD settings.** The model's new local position is a pure function of the measured box. The only LOD setting passes the quality through and fixes the threshold at 0.01.

Files:

- `geometry.dfy` (module `Geometry`) holds the parts of Unity's `Bounds` that the loader uses:
  - a box as its two corners over `real`;
  - `Encapsulate` as the componentwise min/max;
  - the left fold `Hull` with its characterisation: it encloses every box, it is the least box that does, its corners are attained, and it does not depend on the order of the boxes.
- `cad_loader.dfy` (module `CadImport`) holds:
  - the `getSize` loop, the recentering and the LOD settings;
  - the loader's state as a value (`LoaderState`) with the pure transitions `LoadCADState` and `CompleteImportState`, and batch lemmas over them;
  - the class `CADLoader` with the source's fields. Its methods are proved to move `State()` exactly as those transitions say.

Notifications are counted in the ghost fields `importStartedFired` and `importEndedFired`. A C# event with no subscriber is `null` and is not raised. The model records this as `hasImportStartedHandler` and `hasImportEndedHandler`, and a notification counts only when a handler is subscribed.

`File.Exists(cadFileName)` becomes the boolean parameter `fileExists`. `Time.realtimeSinceStartup` becomes the parameter `now`. The external load is the opaque gap between `LoadCAD` and `CompleteImport`. `CompleteImport` receives the bounds of the renderers under the parent's first child as `childRenderers`, and returns the local position it gives to the imported model.

Three behaviours of the code worth stating plainly:

- **Recentering (line 166).** The new height is `(0.5 - center.y) - size.y / 2`, which is 0.5 minus the top of the box: line 166 puts the box's TOP, not its bottom, at 0.5. `RecenteredPosition` states exactly this.
- **Empty renderer list.** `getSize` then yields `new Bounds()`, the zero box at the world origin.
- **Second existence check.** The file is looked up again just before the import runs (lines 130-133); a missing file is only logged and the import goes on, so this check changes nothing in the model.

## Model

| member | source | states |
|---|---|---|
| `Geometry.Encapsulate` | Assets/PiXYZ/Samples/Runtime_Import_Boiler_Plate/Scripts/CADLoader.cs:123 | the encapsulated box encloses both boxes |
| `Geometry.EncapsulateIsLeast` | Assets/PiXYZ/Samples/Runtime_Import_Boiler_Plate/Scripts/CADLoader.cs:123 | every box enclosing both boxes encloses their encapsulation, so `Encapsulate` is the smallest common box |
| `Geometry.Hull` | Assets/PiXYZ/Samples/Runtime_Import_Boiler_Plate/Scripts/CADLoader.cs:115-124 | the left fold of `Encapsulate` over a non-empty list of boxes encloses every box of the list |
| `Geometry.HullIsLeast` | Assets/PiXYZ/Samples/Runtime_Import_Boiler_Plate/Scripts/CADLoader.cs:115-124 | any box enclosing all the boxes encloses their union, so the union is the least enclosing box |
| `Geometry.HullCornersAttained` | Assets/PiXYZ/Samples/Runtime_Import_Boiler_Plate/Scripts/CADLoader.cs:115-124 | on every axis the union's min corner is the min corner of some box and its max corner the max corner of some box |
| `Geometry.HullIgnoresOrder` | Assets/PiXYZ/Samples/Runtime_Import_Boiler_Plate/Scripts/CADLoader.cs:111-124 | two lists holding the same boxes in any order or multiplicity have the same union, so, over the reals, the order of the renderers does not matter |
| `CadImport.GetSize` | Assets/PiXYZ/Samples/Runtime_Import_Boiler_Plate/Scripts/CADLoader.cs:109-126 | the `first`-flag loop returns the default zero box for no renderer and otherwise the union of all renderer boxes, which encloses every one of them |
| `CadImport.RecenteredPosition` | Assets/PiXYZ/Samples/Runtime_Import_Boiler_Plate/Scripts/CADLoader.cs:166 | x and z are the negated horizontal center and y is 0.5 minus the top of the box; shifting the box by the result centers it horizontally on 0 and puts its top at 0.5 |
| `CadImport.PlaceImportedModel` | Assets/PiXYZ/Samples/Runtime_Import_Boiler_Plate/Scripts/CADLoader.cs:165-166 | the position given to the imported model is the recentering of the bounds `getSize` measures |
| `CadImport.GetDefaultLODSettings` | Assets/PiXYZ/Samples/Runtime_Import_Boiler_Plate/Scripts/CADLoader.cs:202-210 | the LOD descriptor keeps the requested quality and always has threshold 0.01 |
| `CadImport.LodSettingsList` | Assets/PiXYZ/Samples/Runtime_Import_Boiler_Plate/Scripts/CADLoader.cs:141-142 | the import configures exactly one LOD, the default one for the requested quality |
| `CadImport.CheckCADLoader` | Assets/PiXYZ/Samples/Runtime_Import_Boiler_Plate/Scripts/CADLoader.cs:60-82 | accepts exactly when not importing, a scene root is set and the file name is non-empty and exists; a running import refuses first, then a missing root, then a bad file path |
| `CadImport.LoadCADState` | Assets/PiXYZ/Samples/Runtime_Import_Boiler_Plate/Scripts/CADLoader.cs:90-107 | a refused load changes nothing, and nothing changes while importing; an accepted load raises the flag, restarts the timer only when `index <= 1`, delivers `ImportStarted` once if subscribed, captures file, root and arguments for the coroutine, and keeps the in-flight invariant |
| `CadImport.CompleteImportState` | Assets/PiXYZ/Samples/Runtime_Import_Boiler_Plate/Scripts/CADLoader.cs:162-174 | completion lowers the flag, drops the loader, sets the timing to `now` minus the batch start and delivers `ImportEnded` only for the last file of a batch, if subscribed |
| `CadImport.ImportFromKeepsBatchStart` | Assets/PiXYZ/Samples/Runtime_Import_Boiler_Plate/Scripts/CADLoader.cs:95-170 | files 2, 3, ... of a batch keep the batch start time, each delivers `ImportStarted` and only the last delivers `ImportEnded` |
| `CadImport.BatchTiming` | Assets/PiXYZ/Samples/Runtime_Import_Boiler_Plate/Scripts/CADLoader.cs:95-170 | a batch imported on an idle loader ends idle with the timing spanning the first file's `LoadCAD` to the last file's completion, one `ImportStarted` per file and one `ImportEnded` in all |
| `CadImport.CADLoader.constructor` | Assets/PiXYZ/Samples/Runtime_Import_Boiler_Plate/Scripts/CADLoader.cs:13-41 | a new loader is idle, holds no loader or scheduler, has both times at 0 and has delivered nothing |
| `CadImport.CADLoader.Progress` | Assets/PiXYZ/Samples/Runtime_Import_Boiler_Plate/Scripts/CADLoader.cs:35 | the importer's progress while a loader is held, 0 otherwise |
| `CadImport.CADLoader.ProgressStatus` | Assets/PiXYZ/Samples/Runtime_Import_Boiler_Plate/Scripts/CADLoader.cs:34 | the importer's stage label while a loader is held, empty otherwise |
| `CadImport.CADLoader.LoadCAD` | Assets/PiXYZ/Samples/Runtime_Import_Boiler_Plate/Scripts/CADLoader.cs:90-107 | the new state is `LoadCADState` of the old one; a refused call leaves every field unchanged, including loader and scheduler; an accepted one installs a fresh loader and scheduler |
| `CadImport.CADLoader.StartImport` | Assets/PiXYZ/Samples/Runtime_Import_Boiler_Plate/Scripts/CADLoader.cs:95-106 | the accepted path: the state moves as the accepted branch of `LoadCADState` says, with a fresh loader and a fresh scheduler running the coroutine |
| `CadImport.CADLoader.CompleteImport` | Assets/PiXYZ/Samples/Runtime_Import_Boiler_Plate/Scripts/CADLoader.cs:154-176 | the new state is `CompleteImportState` of the old one; the returned position is the recentering of the renderers' union; the dropped importer reads "Done !" at 1; the scheduler is stopped; `Progress` is 0 and `ProgressStatus` empty afterwards |
| `CadImport.CADLoader.ReleaseImporter` | Assets/PiXYZ/Samples/Runtime_Import_Boiler_Plate/Scripts/CADLoader.cs:173-176 | the importer is marked done and dropped, the scheduler stopped, and nothing else in the state changes |

## Left out

- PiXYZ calls: `CheckLicense`, `setSourceCoordinatesSystem`, `configure` and `loadFileRuntime` (lines 43-58, 145-152). They belong to a closed-source native library. The load is an opaque step between `LoadCAD` and `CompleteImport`. The arguments that would reach `configure` are kept only as the captured `ImportArgs` and as `LodSettingsList`.
- `Update`, the coroutine scheduler's inner workings, the `yield` points and the busy wait `while (!_routine.finished);` (lines 84-88, 148-152). These are cooperative scheduling driven by Unity's frame loop. The scheduler is reduced to "has coroutines or not".
- Code run by notification subscribers. Such code could call back into the loader, for example a `LoadCAD` from inside `ImportEnded`, which is raised after the flag drops but before `loader` is cleared and the scheduler is stopped. Subscribers are modelled only as present or absent, and each delivery as a counter increment.
- `CreateUnityColliders` (lines 181-199). Its only call site is commented out, and it works only through Unity mesh and component APIs.
- Scene-graph semantics: `GetComponentsInChildren`, `GetChild(0)` (and its failure when the parent has no child), transforms, world versus local space, and `isStatic` (line 160). The model keeps only the list of renderer boxes and the position value assigned. It makes no claim about where the model ends up in the world.
- Float rounding. Times, boxes and positions are `real`. Unity's `Bounds` stores center and extents, and `Encapsulate` re-derives them from the new corners in single precision, so the union at line 123 is rounded too, as are the center, size and recentering arithmetic and the timing subtraction. The order-independence of the union (`HullIgnoresOrder`) is a property of the real-valued model. The threshold `0.01f` is modelled as the real 0.01, not as its nearest single-precision value.
- `ModelImportedHandler` (line 29): it is declared, but no event uses it.
- The inspector-only fields `multiFileName`, `tubFileName`, `cadFolderName`, `cadFolderStartIndex` and `cadFolderStopIndex` (lines 17-21). No modelled code reads them.
- `Assets/PiXYZ/Scripts/PiXYZImportSettings.cs`: it is a serialisable data holder with no logic.
- CheckCADLoader: a null `cadFileName` (a public field, line 16) throws a NullReferenceException at line 75, out of `LoadCAD`, before any field changes; in the model the file name is a `string` and is never null, so that exception path is not modelled.
- `Debug.Log` output: the logged reasons survive only as the `Admission` value of `CheckCADLoader`, which returns a bool in the source (`Admitted` is `true`).
