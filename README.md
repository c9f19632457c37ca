# flame-family custom actions, modelled in Dafny

flame-family is a set of Python custom actions for Autodesk Flame. They show
up in the right-click menus of the Action, Batch, MediaHub, media panel and
export contexts. Most of each script is glue around the host API. This
project models the parts that are self-contained logic:

- **Projection Creator** (action): saves an Action setup to a text file and
  searches it line by line through module globals. It names a new camera,
  projector or diffuse map uniquely, computes node positions and patches
  the setup's lines in place.
- **Post-export dependency examples** (export): build the Backburner
  `cmdjob` command line with its dependency flag and read the job id back
  from the command's output. Their `postExportAsset` hooks collect job ids.
  An idle-loop callback re-imports exported clips once their jobs complete.
- **Freeze frame with Mux** (batch): picks the first free context slot,
  places and configures the Mux, and chooses the matte socket.
- **Import file to Batch group** (MediaHub): the three-character extension
  scope check, plus the Batch group and Render node it sets up per file.
- **Reveal in Finder** (media panel): the directory of each clip's media,
  the opener command, and the scope checks.
- **Logik installer**: the version strings, the three-line config file
  (default, save, load), the `split(' ', 6)` of the tar command, and the
  decision taken after extraction.

Each Python file is one module. `Py` holds the Python built-ins the scripts
rely on, with Python 2 semantics:
- `str.rsplit`, `split` with and without maxsplit, `join`, `splitlines`,
  `in` on strings, `int()` and `str()`;
- negative list indexing;
- `os.path.join`;
- list assignment that can raise IndexError.

Host objects, the file system and the Backburner manager are inputs. A
Python global that was never assigned is `None`, and reading it is a
NameError.

Where a script mutates things step by step, the model is imperative:
- Projection Creator's globals are fields of class `ActionScript`. Its
  searches are `while` loops. The setup is patched in an `array`.
- The hooks append into a `UserData` object.
- `ReImportCallback` pops and re-appends its pending list.
- The Mux and the Batch group are classes whose fields the action sets.

The methods of `ActionScript` are proved against step functions on a
`Globals` value (`FindLineStep`, `LocateStep`, `PlaceCameraStep`,
`DiffuseProjectionStep`, …): each method has the step's outcome, its error
and its value, and leaves the state the step describes. Lemmas about the
step functions then say when each part of the script succeeds and which
error it raises otherwise. In the other modules, methods state their
results directly or as a function of their inputs.

## Model

| member | source | states |
|---|---|---|
| ProjectionCreator.FirstMatchFrom | custom-actions/action/Projection_Creator_v1_2.py:13-16 | the index found is the first one at or after k whose line contains the item; None means no such line exists |
| ProjectionCreator.LastMatch | custom-actions/action/Projection_Creator_v1_2.py:251-255 | the index found contains the item and no later line does; None means no line does |
| ProjectionCreator.LastToken | custom-actions/action/Projection_Creator_v1_2.py:37 | `rsplit(' ', 1)[1]` succeeds iff the line has a space, and the token has no space in it |
| ProjectionCreator.LastTokenSplits | custom-actions/action/Projection_Creator_v1_2.py:37 | the token is the second field of `rsplit(' ', 1)`, and the line is some head, a space, then the token (newline included) |
| ProjectionCreator.FindLineStep | custom-actions/action/Projection_Creator_v1_2.py:9-16 | findLine changes no global other than `itemLine` |
| ProjectionCreator.FindLineFirst | custom-actions/action/Projection_Creator_v1_2.py:9-16 | when some line contains the item, `itemLine` is the 1-based number of the first such line; otherwise nothing changes |
| ProjectionCreator.FindLineLoopStep | custom-actions/action/Projection_Creator_v1_2.py:18-29 | findLineLoop changes no global other than `itemLine` |
| ProjectionCreator.FindLineLoopFirst | custom-actions/action/Projection_Creator_v1_2.py:18-29 | `itemLine` becomes the smallest 0-based index at or after k whose line contains the item; IndexError happens iff there is no such line |
| ProjectionCreator.GetLineValueStep | custom-actions/action/Projection_Creator_v1_2.py:31-38 | getLineValue changes no global other than `itemValue` |
| ProjectionCreator.GetLineValueToken | custom-actions/action/Projection_Creator_v1_2.py:31-38 | on a line of the file, `itemValue` becomes its last token; it fails iff that line has no space; a number outside the file changes nothing |
| ProjectionCreator.ReadValueStep | custom-actions/action/Projection_Creator_v1_2.py:31-38 | getLineValue then a read of `itemValue`: on success the only global changed is `itemValue`, holding the value returned; ReadValueOf states which value and which error |
| ProjectionCreator.ReadValueOf | custom-actions/action/Projection_Creator_v1_2.py:31-38 | inside the file the read gives the line's last token, or IndexError when the line has no space; outside it, the value read before, or NameError when none was |
| ProjectionCreator.ParentScan | custom-actions/action/Projection_Creator_v1_2.py:85-99 | findParent's backward recursion from line `i`; ParentScanFinds, ParentScanSkips and ParentScanNearest state where it stops and which parent it reads |
| ProjectionCreator.ParentScanFinds | custom-actions/action/Projection_Creator_v1_2.py:85-99 | a successful findParent stops at or before the start, on a line containing 'Name', and names that line's token minus its last character ('scene' gives None) |
| ProjectionCreator.ParentScanSkips | custom-actions/action/Projection_Creator_v1_2.py:92-99 | every line passed over between the start and the line found lacks 'Name' |
| ProjectionCreator.ParentScanNearest | custom-actions/action/Projection_Creator_v1_2.py:85-99 | the scan settles on exactly the nearest 'Name' line at or before the start |
| ProjectionCreator.ParentScanHit | custom-actions/action/Projection_Creator_v1_2.py:92-96 | a start line containing 'Name' is its own answer |
| ProjectionCreator.ParentScanMiss | custom-actions/action/Projection_Creator_v1_2.py:97-99 | a start line without 'Name' defers to the line before it |
| ProjectionCreator.FindParentStep | custom-actions/action/Projection_Creator_v1_2.py:85-101 | findParent changes only `childNum` and `cameraParentName` |
| ProjectionCreator.CameraAt | custom-actions/action/Projection_Creator_v1_2.py:56-73 | indexing the list headed by 'null camera' works iff the Python index is in range and not 0, and yields that camera |
| ProjectionCreator.ResultCameraIndex | custom-actions/action/Projection_Creator_v1_2.py:54-65 | `int(itemValue) + 1`, overridden by 1 when the action has a single camera; SingleCameraIsResult states that case |
| ProjectionCreator.SingleCameraIsResult | custom-actions/action/Projection_Creator_v1_2.py:64-67 | with a single camera, the result camera is that camera, whatever the channel value |
| ProjectionCreator.ValueAfterStep | custom-actions/action/Projection_Creator_v1_2.py:48-52 | the value read is the last token of the line `offset` lines after the first line containing the item; the file is untouched |
| ProjectionCreator.ChildParentStep | custom-actions/action/Projection_Creator_v1_2.py:80-101 | finding the `Child <n>` line and its parent leaves the file untouched |
| ProjectionCreator.ResultCameraStep | custom-actions/action/Projection_Creator_v1_2.py:42-101 | getResultCamera leaves the freshly saved setup as the file and does not touch `nodeCameraNameLine`; ResultCameraFound states the parent it records |
| ProjectionCreator.ValueAfterFound | custom-actions/action/Projection_Creator_v1_2.py:48-52 | with the item first on line i and a token `offset` lines on, findLine then getLineValue yield that token and set `itemLine` to i + 1 |
| ProjectionCreator.ChildParentFound | custom-actions/action/Projection_Creator_v1_2.py:80-101 | with `Child <number>` first on line `child`, the nearest 'Name' line at or before `child + 1` gives the parent and `childNum` |
| ProjectionCreator.ResultCameraReaches | custom-actions/action/Projection_Creator_v1_2.py:48-80 | once the channel, the camera picked by ResultCameraIndex and its number are read, getResultCamera is the `Child <number>` lookup in the saved setup |
| ProjectionCreator.ResultCameraFound | custom-actions/action/Projection_Creator_v1_2.py:42-101 | getResultCamera end to end: the parent recorded is ParentName of the nearest 'Name' line at or before the line after the camera's `Child` line |
| ProjectionCreator.Candidate | custom-actions/action/Projection_Creator_v1_2.py:221-224 | one candidate name `base_n`, cut back at its last '_' when it ends in '0'; CandidateShape states the result |
| ProjectionCreator.CandidateShape | custom-actions/action/Projection_Creator_v1_2.py:221-224 | candidates 0, 10, 20, … collapse to the bare base name; any other n gives `base_n` |
| ProjectionCreator.NameBoundFree | custom-actions/action/Projection_Creator_v1_2.py:218-231 | some suffix number always gives a free name, so the recursive naming terminates |
| ProjectionCreator.FreeIndexFrom | custom-actions/action/Projection_Creator_v1_2.py:226-231 | the number found is the first one from n whose candidate is not in use |
| ProjectionCreator.UniqueName | custom-actions/action/Projection_Creator_v1_2.py:218-231 | the chosen name is not among the existing names, and is the candidate of the first free number |
| ProjectionCreator.UniqueNameShape | custom-actions/action/Projection_Creator_v1_2.py:365-378 | every smaller candidate is taken; the name is the base or `base_n` with n not a multiple of 10 |
| ProjectionCreator.UniqueNameFreeBase | custom-actions/action/Projection_Creator_v1_2.py:163-176 | when the base is unused, the name is the base without suffix |
| ProjectionCreator.CameraScan | custom-actions/action/Projection_Creator_v1_2.py:396-402 | the 'Node Camera' loop with its extra `next()`; CameraScanNoCamera, CameraScanReaches, CameraScanSingle and CameraScanUndercounts state what it records |
| ProjectionCreator.CameraScanNoCamera | custom-actions/action/Projection_Creator_v1_2.py:396-402 | without 'Node Camera' lines the scan leaves `nodeCameraNameLine` as it was |
| ProjectionCreator.CameraScanReaches | custom-actions/action/Projection_Creator_v1_2.py:396-402 | before the first camera line the enumeration number stays one ahead of the index |
| ProjectionCreator.CameraScanSingle | custom-actions/action/Projection_Creator_v1_2.py:396-402 | with one mono camera, the scan records that camera line's 1-based number |
| ProjectionCreator.CameraScanUndercounts | custom-actions/action/Projection_Creator_v1_2.py:397-399 | a second camera block is numbered one short, because the line `next()` consumes is never counted |
| ProjectionCreator.ScopeGeo | custom-actions/action/Projection_Creator_v1_2.py:471-479 | true iff some selected item is a Surface or a Geom |
| ProjectionCreator.LastNode | custom-actions/action/Projection_Creator_v1_2.py:244-246 | the loop leaves the last selected node; an empty selection leaves none |
| ProjectionCreator.PosXLineStep | custom-actions/action/Projection_Creator_v1_2.py:292-297 | the target is one past the first PosX line after the node's name line; the file is untouched |
| ProjectionCreator.PosXLineOutcome | custom-actions/action/Projection_Creator_v1_2.py:292-297 | with the name in the file, the search succeeds iff a PosX line follows the name's line, leaving `itemLine` on it; otherwise IndexError |
| ProjectionCreator.PosXLineFound | custom-actions/action/Projection_Creator_v1_2.py:292-297 | a name followed by a PosX line yields one past that line |
| ProjectionCreator.ProjectorBlockLines | custom-actions/action/Projection_Creator_v1_2.py:248-255 | PosX/PosY are lines +7 and +8 of the last 'Node Projector' block, or 0 and 0 without one |
| ProjectionCreator.Positions | custom-actions/action/Projection_Creator_v1_2.py:312-323 | exactly `str(int(x) + 300)` for both X values and `str(int(y) + 150)` for the camera Y; it fails iff a base value is not an integer |
| ProjectionCreator.WritePosition | custom-actions/action/Projection_Creator_v1_2.py:329-333 | a PosX/PosY pair is written at `at` and `at+1`; every other line and the length are kept; IndexError when out of range |
| ProjectionCreator.CameraContents | custom-actions/action/Projection_Creator_v1_2.py:329-333 | exactly the four position lines change (later writes win); the line count and all other lines are unchanged |
| ProjectionCreator.SetLine | custom-actions/action/Projection_Creator_v1_2.py:329 | `contents[i] = text` on the array: the list assignment, or IndexError leaving it alone |
| ProjectionCreator.SetPosition | custom-actions/action/Projection_Creator_v1_2.py:329-333 | the array ends as WritePosition says |
| ProjectionCreator.PatchCamera | custom-actions/action/Projection_Creator_v1_2.py:325-338 | the in-place patch of `contents` yields exactly CameraContents |
| ProjectionCreator.PatchedCamera | custom-actions/action/Projection_Creator_v1_2.py:306-338 | exactly CameraPatchOf: the base from the projector block when there is one, otherwise from the geometry; it succeeds iff both base values are integers and both position pairs lie in the file; ValueError for a non-integer, IndexError for a line past the end |
| ProjectionCreator.CameraPatchOf | custom-actions/action/Projection_Creator_v1_2.py:312-333 | the patch exists iff both base values are integers and the written lines exist (ValueError, else IndexError); it records the names, indices and offset positions and writes exactly CameraContents |
| ProjectionCreator.ProjectorBaseStep | custom-actions/action/Projection_Creator_v1_2.py:248-262 | the file is unchanged, and a projector block was used iff some line contains 'Node Projector'; ProjectorBaseOutcome states the values read |
| ProjectionCreator.ProjectorBaseOutcome | custom-actions/action/Projection_Creator_v1_2.py:248-262 | without a projector block nothing is read; with one, the reads succeed iff its PosX and PosY lines have a space, giving their last tokens; IndexError otherwise |
| ProjectionCreator.TargetsStep | custom-actions/action/Projection_Creator_v1_2.py:277-304 | the geometry's, the projector's and the camera's PosX searches in turn, as TargetsOutcome and TargetsReached state |
| ProjectionCreator.TargetsOutcome | custom-actions/action/Projection_Creator_v1_2.py:277-304 | with every name in the file, the searches succeed iff each name is followed by a PosX line, returning one past each; IndexError otherwise |
| ProjectionCreator.TargetsReached | custom-actions/action/Projection_Creator_v1_2.py:277-304 | the searches return the indices one past the PosX lines found |
| ProjectionCreator.PositionStep | custom-actions/action/Projection_Creator_v1_2.py:306-310 | getLineValue(n) and getLineValue(n + 1): only `itemValue` changes, to the Y value; PositionRead states the tokens |
| ProjectionCreator.PositionRead | custom-actions/action/Projection_Creator_v1_2.py:306-310 | two lines holding tokens x and y are read as the position (x, y) |
| ProjectionCreator.LocateStep | custom-actions/action/Projection_Creator_v1_2.py:277-310 | the searches then the geometry's position, with the file unchanged; LocateNotGeometry, LocateGeometry and LocateFound state its outcome |
| ProjectionCreator.LocateNotGeometry | custom-actions/action/Projection_Creator_v1_2.py:277-310 | a last node that is neither Surface nor Geom ends in NameError (`geoPosXLineNum` unbound) when the searches succeed, IndexError otherwise |
| ProjectionCreator.LocateGeometry | custom-actions/action/Projection_Creator_v1_2.py:277-310 | for geometry, the searches and reads succeed iff every PosX line is found and the geometry's two lines have a space, giving the indices and tokens; every failure is IndexError |
| ProjectionCreator.LocateFound | custom-actions/action/Projection_Creator_v1_2.py:277-310 | with every PosX line found and the geometry's tokens present, the step returns exactly those indices and tokens |
| ProjectionCreator.PlaceCameraStep | custom-actions/action/Projection_Creator_v1_2.py:244-338 | the base read, the last node, the searches and the patch in source order; PlaceCameraThrough and PlaceCameraLocated state what it comes down to |
| ProjectionCreator.PlaceCameraThrough | custom-actions/action/Projection_Creator_v1_2.py:244-338 | once the base read and the searches succeed, the placement is CameraPatchOf of what they read, with the patched lines written back |
| ProjectionCreator.PlaceCameraLocated | custom-actions/action/Projection_Creator_v1_2.py:244-338 | once the base and all lines are found, the placement has the outcome, error and patch of CameraPatchOf |
| ProjectionCreator.CameraPatchPlaced | custom-actions/action/Projection_Creator_v1_2.py:312-333 | with the target lines in the file, the patch exists iff the base values are integers (ValueError otherwise) and places both nodes as PlacedFrom says |
| ProjectionCreator.PlaceCameraGeometryPatch | custom-actions/action/Projection_Creator_v1_2.py:244-338 | without a projector block, a placeable setup gives the same outcome, error and patch as CameraPatchOf from the geometry's position |
| ProjectionCreator.PlaceCameraFromGeometry | custom-actions/action/Projection_Creator_v1_2.py:244-338 | without a projector block, a placeable setup is patched iff the geometry's values are integers (ValueError otherwise), from the geometry's position |
| ProjectionCreator.PlaceCameraProjectorPatch | custom-actions/action/Projection_Creator_v1_2.py:244-338 | with a readable projector block, a placeable setup gives the same outcome, error and patch as CameraPatchOf from the block's position |
| ProjectionCreator.PlaceCameraFromProjector | custom-actions/action/Projection_Creator_v1_2.py:244-338 | with a projector block, a placeable setup is patched iff the block's values are integers (ValueError otherwise), from the block's position |
| ProjectionCreator.PlaceCameraNotGeometry | custom-actions/action/Projection_Creator_v1_2.py:244-310 | an empty selection, or a last node that is not geometry, ends in NameError |
| ProjectionCreator.CameraProjectionStep | custom-actions/action/Projection_Creator_v1_2.py:213-342 | getResultCamera, the two unique names, then the placement; CameraProjectionFromGeometry, CameraProjectionFromProjector and CameraProjectionNoResultCamera state its outcome |
| ProjectionCreator.CameraProjectionFromGeometry | custom-actions/action/Projection_Creator_v1_2.py:213-342 | end to end without a projector block: success iff the geometry's values are integers, under the two unique names; ValueError otherwise |
| ProjectionCreator.CameraProjectionFromProjector | custom-actions/action/Projection_Creator_v1_2.py:213-342 | end to end with a projector block: success iff the block's values are integers, under the two unique names; ValueError otherwise |
| ProjectionCreator.CameraProjectionNoResultCamera | custom-actions/action/Projection_Creator_v1_2.py:233-235 | a failing getResultCamera ends the projection with its error |
| ProjectionCreator.IndexOf | custom-actions/action/Projection_Creator_v1_2.py:142 | `list.index` returns the first position of the name |
| ProjectionCreator.DiffuseCamera | custom-actions/action/Projection_Creator_v1_2.py:119-142 | whether `frame_<n>` exists and the index MapCamera gets; DiffuseCameraIndex states both |
| ProjectionCreator.DiffuseCameraIndex | custom-actions/action/Projection_Creator_v1_2.py:119-142 | the camera counts as existing iff `frame_<n>` is a camera; MapCamera's index names that camera's first position among the action's cameras (a created one appended last) |
| ProjectionCreator.Shifted | custom-actions/action/Projection_Creator_v1_2.py:410-417 | `str(int(str(x)) + d)` is the decimal text of x + d |
| ProjectionCreator.DiffuseContents | custom-actions/action/Projection_Creator_v1_2.py:451-456 | MapCamera (index − 1) and MapCoordType PROJECTION are written; the camera position only when the camera was created; nothing else changes |
| ProjectionCreator.PatchDiffuse | custom-actions/action/Projection_Creator_v1_2.py:447-461 | the in-place patch yields exactly DiffuseContents |
| ProjectionCreator.ScanNodeCameras | custom-actions/action/Projection_Creator_v1_2.py:396-402 | the loop with `next()` computes CameraScan, including StopIteration on a final camera line |
| ProjectionCreator.SourceValuesStep | custom-actions/action/Projection_Creator_v1_2.py:409-413 | the X read as `int()` then the Y: only `itemValue` changes, to the Y value; SourceValuesOf states the values and errors |
| ProjectionCreator.SourceValuesOf | custom-actions/action/Projection_Creator_v1_2.py:406-413 | the reads succeed iff the PosX token is an integer and the next line has a space; ValueError for a non-integer, IndexError otherwise; the values are the parsed X and the Y token |
| ProjectionCreator.SourceCameraStep | custom-actions/action/Projection_Creator_v1_2.py:396-413 | the scan, findLineLoop('PosX') and the reads: the file is unchanged and `itemLine` holds the PosX index returned; SourceCameraFails and SourceCameraFound state the outcome |
| ProjectionCreator.SourceCameraFails | custom-actions/action/Projection_Creator_v1_2.py:396-404 | the scan's error is passed on; no camera found is NameError; no PosX line after it is IndexError |
| ProjectionCreator.SourceCameraFound | custom-actions/action/Projection_Creator_v1_2.py:396-413 | once the scan and the PosX search succeed, the reads succeed iff the X token is an integer and the lines have a space (ValueError, else IndexError), and read what SourceRead says |
| ProjectionCreator.DiffuseLinesStep | custom-actions/action/Projection_Creator_v1_2.py:431-443 | the map's, the camera's and the PosX searches; DiffuseLinesOf states what they find |
| ProjectionCreator.DiffuseLinesOf | custom-actions/action/Projection_Creator_v1_2.py:431-443 | the searches succeed iff a PosX line follows the camera's line (IndexError otherwise); the map's line falls back on `itemLine` when the name is absent |
| ProjectionCreator.WriteDiffuseStep | custom-actions/action/Projection_Creator_v1_2.py:415-461 | the searches then the writes over the resaved setup; WriteDiffuseReaches and WriteDiffuseOutcome state what it comes down to |
| ProjectionCreator.DiffuseWriteOf | custom-actions/action/Projection_Creator_v1_2.py:447-461 | a successful write records the names, the camera, X + 200, the lines `posX + 1`, `mapLine + 21` and `mapLine + 23`, and contents patched as DiffuseContents says |
| ProjectionCreator.WriteDiffuseReaches | custom-actions/action/Projection_Creator_v1_2.py:431-461 | once the PosX line after the camera is found, the writes have DiffuseWriteOf's outcome, error and patch |
| ProjectionCreator.DiffuseTargetsFound | custom-actions/action/Projection_Creator_v1_2.py:431-456 | the lines the writes target follow from the map's line and the PosX line found |
| ProjectionCreator.DiffuseWriteWrote | custom-actions/action/Projection_Creator_v1_2.py:447-461 | a successful write at those lines records what the diffuse projection records |
| ProjectionCreator.WriteDiffuseBounds | custom-actions/action/Projection_Creator_v1_2.py:431-461 | with the PosX line found, the writes succeed iff every written line is in the file; IndexError otherwise |
| ProjectionCreator.WriteDiffuseRecords | custom-actions/action/Projection_Creator_v1_2.py:431-461 | a successful write records the names, the camera, X + 200, and lines written as DiffuseTargets and DiffusePatched say |
| ProjectionCreator.WriteDiffuseFound | custom-actions/action/Projection_Creator_v1_2.py:431-461 | with the PosX line found, the writes succeed iff every written line exists (IndexError otherwise) and record DiffuseWrote |
| ProjectionCreator.WriteDiffuseOutcome | custom-actions/action/Projection_Creator_v1_2.py:431-461 | the writes succeed iff a PosX line follows the camera's line and every written line is in the file; every failure is IndexError; success records what was written where |
| ProjectionCreator.PlaceDiffuseStep | custom-actions/action/Projection_Creator_v1_2.py:396-461 | the scan and reads, the camera from createCurFrameCamera, then the writes; PlaceDiffuseFails and PlaceDiffuseFound state its outcome |
| ProjectionCreator.PlaceDiffuseFails | custom-actions/action/Projection_Creator_v1_2.py:396-404 | from the scan on: the scan's error, NameError without a camera, IndexError without a PosX line |
| ProjectionCreator.PlaceDiffuseFound | custom-actions/action/Projection_Creator_v1_2.py:396-461 | from the scan on, with camera and PosX found: success iff the reads and the writes find what they need; ValueError for a non-integer X, IndexError otherwise; success reads SourceRead and writes DiffuseWrote |
| ProjectionCreator.DiffuseWroteDone | custom-actions/action/Projection_Creator_v1_2.py:415-461 | reading the source camera and writing under the unique name is all of DiffuseDone |
| ProjectionCreator.DiffuseProjectionStep | custom-actions/action/Projection_Creator_v1_2.py:359-465 | getResultCamera, the unique map name, then the placement; DiffuseProjectionNoResultCamera, DiffuseProjectionFails and DiffuseProjectionFound state its outcome |
| ProjectionCreator.DiffuseProjectionNoResultCamera | custom-actions/action/Projection_Creator_v1_2.py:390-392 | a failing getResultCamera ends the projection with its error |
| ProjectionCreator.DiffuseProjectionFails | custom-actions/action/Projection_Creator_v1_2.py:390-404 | end to end: the scan's error, NameError without a camera, IndexError without a PosX line |
| ProjectionCreator.DiffuseProjectionFound | custom-actions/action/Projection_Creator_v1_2.py:359-465 | end to end with camera and PosX found: success iff the reads and writes find what they need (ValueError for a non-integer X, IndexError otherwise); success is DiffuseDone |
| ProjectionCreator.ActionScript.constructor | custom-actions/action/Projection_Creator_v1_2.py:196-198 | a session starts on the saved setup with no global assigned |
| ProjectionCreator.ActionScript.FindLine | custom-actions/action/Projection_Creator_v1_2.py:9-16 | the loop leaves the state FindLineStep describes |
| ProjectionCreator.ActionScript.FindLineLoop | custom-actions/action/Projection_Creator_v1_2.py:18-29 | the loop (the recursion, flattened) leaves the state FindLineLoopStep describes, or fails as it does |
| ProjectionCreator.ActionScript.GetLineValue | custom-actions/action/Projection_Creator_v1_2.py:31-38 | `itemValue` is the last token of line n, or unchanged when n is outside the file |
| ProjectionCreator.ActionScript.FindParent | custom-actions/action/Projection_Creator_v1_2.py:85-99 | the backward loop ends where ParentScan does, with the parent it names |
| ProjectionCreator.ActionScript.ValueAfter | custom-actions/action/Projection_Creator_v1_2.py:48-52 | findLine then getLineValue, as ValueAfterStep |
| ProjectionCreator.ActionScript.ChildParent | custom-actions/action/Projection_Creator_v1_2.py:80-101 | as ChildParentStep |
| ProjectionCreator.ActionScript.GetResultCamera | custom-actions/action/Projection_Creator_v1_2.py:42-101 | as ResultCameraStep, with every error it can raise |
| ProjectionCreator.ActionScript.PosXLine | custom-actions/action/Projection_Creator_v1_2.py:292-297 | the PosX target of the named node |
| ProjectionCreator.ActionScript.ReadProjectorBase | custom-actions/action/Projection_Creator_v1_2.py:248-262 | the outcome, error and values of ProjectorBaseStep; a block is found iff the setup has a 'Node Projector' line, and the values are the tokens 7 and 8 lines below its last one |
| ProjectionCreator.ActionScript.Locate | custom-actions/action/Projection_Creator_v1_2.py:277-310 | the outcome, error and new state of LocateStep; non-geometry fails; otherwise the three PosX targets and the geometry's base values |
| ProjectionCreator.ActionScript.FindTargets | custom-actions/action/Projection_Creator_v1_2.py:277-304 | the outcome, error and new state of TargetsStep |
| ProjectionCreator.ActionScript.ReadPosition | custom-actions/action/Projection_Creator_v1_2.py:306-310 | the outcome, error and values of PositionStep; on success, the tokens of the two lines |
| ProjectionCreator.ActionScript.PlaceCamera | custom-actions/action/Projection_Creator_v1_2.py:244-338 | the outcome, error, patch and new state of PlaceCameraStep; the base is read as BaseRead; the targets are found; positions are offset and patched |
| ProjectionCreator.ActionScript.CreateCameraProjection | custom-actions/action/Projection_Creator_v1_2.py:213-342 | the outcome, error, patch and new state of CameraProjectionStep; getResultCamera's errors are passed on; the camera and projector get unique names; the patched file is exactly the four position writes |
| ProjectionCreator.ActionScript.ReadSourceCamera | custom-actions/action/Projection_Creator_v1_2.py:396-413 | the outcome, error and values of SourceCameraStep; scan errors are passed on; with no camera found, NameError; otherwise the source camera's X and Y as SourceRead says |
| ProjectionCreator.ActionScript.ReadSourceValues | custom-actions/action/Projection_Creator_v1_2.py:409-413 | the outcome, error and values of SourceValuesStep |
| ProjectionCreator.ActionScript.PlaceDiffuse | custom-actions/action/Projection_Creator_v1_2.py:396-461 | the outcome, error, patch and new state of PlaceDiffuseStep; scan errors are passed on; success is DiffuseDone |
| ProjectionCreator.ActionScript.WriteDiffuse | custom-actions/action/Projection_Creator_v1_2.py:415-461 | the outcome, error, patch and new state of WriteDiffuseStep; the camera is `frame_<n>` at X + 200; lines +21/+23 after the map's are found and written as DiffuseContents |
| ProjectionCreator.ActionScript.FindDiffuseLines | custom-actions/action/Projection_Creator_v1_2.py:431-443 | the outcome, error and new state of DiffuseLinesStep |
| ProjectionCreator.ActionScript.WriteDiffuseLines | custom-actions/action/Projection_Creator_v1_2.py:447-461 | exactly the diffuse writes of DiffuseWriteOf |
| ProjectionCreator.ActionScript.CreateDiffuseProjection | custom-actions/action/Projection_Creator_v1_2.py:359-465 | the outcome, error, patch and new state of DiffuseProjectionStep; errors of getResultCamera and of the scan are passed on; success means DiffuseDone |
| Backburner.CmdJob | custom-actions/export/post_export_dependency.py:57-62 | the joined executable path is /opt/Autodesk/backburner/cmdjob |
| Backburner.Arguments | custom-actions/export/post_export_dependency.py:64-75 | `-userRights`, `-timeout:600`, the quoted job name and description in that order, then `-dependencies:` exactly when the argument is truthy |
| Backburner.BuildArguments | custom-actions/export/post_export_dependency.py:64-75 | the successive appends build exactly Arguments |
| Backburner.ArgumentsJoined | custom-actions/export/post_export_dependency.py:77-81 | the joined arguments are the fixed flags, name and description separated by single spaces, then the dependencies flag when present |
| Backburner.FullCommand | custom-actions/export/post_export_dependency.py:77-81 | the executable, the space-joined arguments and cmd separated by spaces; CreateBackburnerJob states it written out |
| Backburner.DepsTextRoundTrip | custom-actions/export/post_export_dependency.py:73 | a list of ids without commas is recovered by splitting the flag text on ',' |
| Backburner.DigitRun | custom-actions/export/post_export_dependency.py:91 | the greedy `\d+` takes every digit from p and stops at a non-digit or the end |
| Backburner.SearchFrom | custom-actions/export/post_export_dependency.py:92 | `re.search` returns the first offset where the look-behind and a digit match |
| Backburner.JobId | custom-actions/export/post_export_dependency.py:91-102 | None iff no offset matches; otherwise the whole digit run at the first offset that matches, right after the marker |
| Backburner.JobIdOfSubmission | custom-actions/export/post_export_dependency.py:91-97 | after any text without a match of its own, the marker and an id followed by a non-digit yield exactly that id |
| Backburner.JobIdOfBareSubmission | custom-actions/export/post_export_dependency.py:91-97 | output that starts with the marker yields exactly the id after it |
| Backburner.DigitRunOf | custom-actions/export/post_export_dependency.py:91 | the digit run is exactly the id when a non-digit follows it |
| Backburner.CreateBackburnerJob | custom-actions/export/post_export_dependency.py:37-102 | the command line is executable, space, joined arguments, space, cmd; the id is JobId of the output |
| Backburner.PythonJobCommand | custom-actions/export/post_export_dependency.py:205-214 | script path, function and space-joined arguments; no arguments raises TypeError |
| Backburner.UserData.constructor | custom-actions/export/post_export_dependency.py:127 | the list starts empty |
| Backburner.UserData.Append | custom-actions/export/post_export_dependency.py:125 | `append` adds one item at the end |
| Backburner.ZipPostExportAsset | custom-actions/export/post_export_dependency.py:120-125 | only in background mode is the asset's job id appended |
| Backburner.BackgroundIds | custom-actions/export/post_export_dependency.py:124-125 | the ids of the assets, in export order |
| Backburner.ExportWithZipHook | custom-actions/export/post_export_dependency.py:127-133 | in background mode the list holds every id in export order; in foreground it stays empty |
| Backburner.ZipCommand | custom-actions/export/post_export_dependency.py:143 | `zip -r <dir>.zip <dir>`; ExportMovieAndZip states the full command around it |
| Backburner.ExportMovieAndZip | custom-actions/export/post_export_dependency.py:127-144 | the zip job depends on all the collected ids; in foreground, or without assets, it carries no dependencies flag |
| Backburner.RenamePostExportAsset | custom-actions/export/post_export_dependency.py:241-256 | foreground renames `path` to `path_renamed` at once; background submits `rename_function` depending on the asset's job |
| Backburner.ReimportPostExportAsset | custom-actions/export/post_export_dependency.py:348-358 | appends the pair (job id, full path) |
| Backburner.JobsOf | custom-actions/export/post_export_dependency.py:354-358 | the pairs of the assets, in export order |
| Backburner.ExportWithReimportHook | custom-actions/export/post_export_dependency.py:360-366 | the collected list is exactly JobsOf the assets |
| Backburner.Poll | custom-actions/export/post_export_dependency.py:407-442 | one pop of the job list, as PollWaiting, PollComplete and PollFailed state; IndexError on an empty list |
| Backburner.PollWaiting | custom-actions/export/post_export_dependency.py:410-431 | a job that is not complete is put back, so the pending list is unchanged; the callback is rescheduled and nothing is imported |
| Backburner.PollComplete | custom-actions/export/post_export_dependency.py:432-442 | a complete job is removed and its path imported; rescheduling happens iff jobs remain |
| Backburner.PollFailed | custom-actions/export/post_export_dependency.py:413-419 | a failed query drops the job, with no import and no reschedule |
| Backburner.Paths | custom-actions/export/post_export_dependency.py:410 | the paths of the pending jobs, in order |
| Backburner.Reverse | custom-actions/export/post_export_dependency.py:410 | the pop order: last element first |
| Backburner.Run | custom-actions/export/post_export_dependency.py:407-444 | the callback called for as long as it reschedules itself, as RunAllComplete and RunStallsOnLast state |
| Backburner.RunAllComplete | custom-actions/export/post_export_dependency.py:407-444 | when every job is complete, the repeated calls import every path, last exported first, and leave nothing pending |
| Backburner.RunStallsOnLast | custom-actions/export/post_export_dependency.py:410-431 | while the last job is not complete, no job is ever imported and the list never changes |
| Backburner.ReImportCallback.constructor | custom-actions/export/post_export_dependency.py:393-394 | the callback holds the collected job list |
| Backburner.ReImportCallback.Call | custom-actions/export/post_export_dependency.py:407-442 | one call: IndexError on an empty list; otherwise the new pending list and the effect are as Poll says |
| FreezeFrame.FreeSlotFrom | custom-actions/batch/freeze_frame_using_mux.py:11-17 | the slot found is the smallest free one from k to 10; None iff all of them are taken |
| FreezeFrame.GetContext | custom-actions/batch/freeze_frame_using_mux.py:6-17 | the `range(1, 11)` loop returns the first free slot, or None |
| FreezeFrame.NextSlotLater | custom-actions/batch/freeze_frame_using_mux.py:14-16 | once the slot found is taken, the next search finds a later slot or none |
| FreezeFrame.ScopeNode | custom-actions/batch/freeze_frame_using_mux.py:19-25 | true iff some selected item is a node |
| FreezeFrame.MatteFrom | custom-actions/batch/freeze_frame_using_mux.py:55-59 | the first socket at index ≥ max(k, 1) whose lower-case name contains "matte" or "alpha"; None iff there is no such socket |
| FreezeFrame.MatteSocket | custom-actions/batch/freeze_frame_using_mux.py:54-60 | the counter-and-break loop never picks socket 0 and finds exactly MatteFrom |
| FreezeFrame.MatteIgnoresLater | custom-actions/batch/freeze_frame_using_mux.py:59 | sockets after the chosen one do not affect the choice |
| FreezeFrame.Mux.constructor | custom-actions/batch/freeze_frame_using_mux.py:38 | a created Mux with the host's initial attribute values |
| FreezeFrame.AddMuxAndFreeze | custom-actions/batch/freeze_frame_using_mux.py:27-60 | the Mux goes at X + 200 with the same Y; context is set only when a slot is free; the range is active at the current frame, Repeat First/Last; a Default link, then at most one matte link to Matte_0 |
| ImportBatchGroup.ScopeFile | custom-actions/batch/Import_File_to_Batchgroup_v1_0.py:37-46 | true iff some path ends in '.' and three word characters (`$` also before a final newline); false on an empty selection |
| ImportBatchGroup.ThreeCharExtension | custom-actions/batch/Import_File_to_Batchgroup_v1_0.py:43 | a dot and three word characters at the end match |
| ImportBatchGroup.FourCharExtension | custom-actions/batch/Import_File_to_Batchgroup_v1_0.py:43 | a four-character extension such as ".tiff" does not match |
| ImportBatchGroup.NoDot | custom-actions/batch/Import_File_to_Batchgroup_v1_0.py:43 | a path without a dot does not match |
| ImportBatchGroup.BatchGroup.constructor | custom-actions/batch/Import_File_to_Batchgroup_v1_0.py:14-16 | the group starts with the given name, duration and reels |
| ImportBatchGroup.BatchGroup.TakeNodes | custom-actions/batch/Import_File_to_Batchgroup_v1_0.py:19-21 | every node overwrites name and duration, so the last node wins; without nodes nothing changes and the old loop variable survives |
| ImportBatchGroup.NextClip | custom-actions/batch/Import_File_to_Batchgroup_v1_0.py:19-21 | after the node loop the loop variable is the group's last node, or the previous file's value when the group has none |
| ImportBatchGroup.ImportOf | custom-actions/batch/Import_File_to_Batchgroup_v1_0.py:12-33 | one pass: IndexError without a clip on reel 1 (met first), NameError when no node was ever seen, success iff neither; the group takes its last node's name and duration (else 'New Batch', 100), the Render node reads the loop variable's duration and the clip's start time |
| ImportBatchGroup.ImportClip | custom-actions/batch/Import_File_to_Batchgroup_v1_0.py:12-33 | equals ImportOf and leaves NextClip as the loop variable; reels Elements/Plates/PreRenders/Ref with shelf Renders, clip in Plates; the Render node has the clip's duration, both timecodes from the first clip of reel 1, '<batch iteration>' at (400, −30); IndexError without a clip there, NameError without a node |
| ImportBatchGroup.LastNodeBefore | custom-actions/batch/Import_File_to_Batchgroup_v1_0.py:19 | the loop variable is the last node of the latest file that had nodes; None iff no earlier file had any |
| ImportBatchGroup.ImportSelection | custom-actions/batch/Import_File_to_Batchgroup_v1_0.py:8-35 | each done file j is exactly ImportOf of file j with the loop variable the earlier files left (so its reel 1 had a clip and its fields are all fixed); the run ends normally iff every file imports, else with ImportOf's own error for the first file that does not |
| Reveal.TrimToDir | custom-actions/media-panel/reveal_in_finder.py:12 | the prefix before the last '/' (the name after it has no '/'), or the whole path without one |
| Reveal.TrimToDirOf | custom-actions/media-panel/reveal_in_finder.py:12 | `dir + "/" + name` trims back to `dir` |
| Reveal.Opener | custom-actions/media-panel/reveal_in_finder.py:27-35 | `open` on Darwin and `xdg-open` otherwise, with the directory as the only argument |
| Reveal.DirToOpen | custom-actions/media-panel/reveal_in_finder.py:12-15 | a directory is opened iff the trimmed path is not empty |
| Reveal.RootFileOpensNothing | custom-actions/media-panel/reveal_in_finder.py:14-15 | a file directly under '/' opens nothing |
| Reveal.FirstFilePath | custom-actions/media-panel/reveal_in_finder.py:11 | version 0, track 0, segment 0's file path; AttributeError for an item without `versions` (not a clip), else IndexError iff one of the lists is empty |
| Reveal.RevealClip | custom-actions/media-panel/reveal_in_finder.py:7-15 | at most one command per clip, all with the platform's opener; the loop ends normally iff every item has a file path, else with IndexError or AttributeError |
| Reveal.RevealClipStops | custom-actions/media-panel/reveal_in_finder.py:10-15 | when item k is the first without a file path, the directories of items 0..k−1 are opened in order and the loop fails with item k's error |
| Reveal.RevealClipOpens | custom-actions/media-panel/reveal_in_finder.py:10-15 | with every path found, the commands open each non-empty directory in selection order |
| Reveal.OpenAll | custom-actions/media-panel/reveal_in_finder.py:10-15 | at most one command per path |
| Reveal.BatchClipDir | custom-actions/media-panel/reveal_in_finder.py:21-24 | None media paths are skipped; otherwise the first and last characters are dropped before trimming |
| Reveal.QuotedMediaPath | custom-actions/media-panel/reveal_in_finder.py:22-25 | a quoted media path opens the directory inside the quotes |
| Reveal.RevealBatchClip | custom-actions/media-panel/reveal_in_finder.py:17-25 | at most one command per item; none when every media path is None |
| Reveal.MediaPaths | custom-actions/media-panel/reveal_in_finder.py:20-22 | the unquoted media paths of the items that have one, in order; RevealBatchClipOpens states what is opened for them |
| Reveal.RevealBatchClipOpens | custom-actions/media-panel/reveal_in_finder.py:17-25 | the Batch reveal opens exactly what the clip reveal opens for the unquoted media paths, None ones skipped |
| Reveal.ScopeBatchClip | custom-actions/media-panel/reveal_in_finder.py:39-46 | true iff some item has type 'Clip' |
| Reveal.ScopeClip | custom-actions/media-panel/reveal_in_finder.py:48-55 | true iff some item is a clip |
| LogikInstaller.DotVersion | custom-actions/main/logik_installer.py:8-9 | `VERSION` with '_' replaced by '.' is "v1.3" |
| LogikInstaller.ConfigPath | custom-actions/main/logik_installer.py:12 | the versioned config folder; ConfigFile states the file inside it |
| LogikInstaller.ConfigFile | custom-actions/main/logik_installer.py:12-13 | the config file is `config` inside the versioned Config folder |
| LogikInstaller.Insert | custom-actions/main/logik_installer.py:33-37 | `list.insert`: x lands at i with the rest shifted; an index past the end appends |
| LogikInstaller.ConfigLines | custom-actions/main/logik_installer.py:85-89 | the config is exactly three lines: title, "Install Path:", and the path |
| LogikInstaller.Written | custom-actions/main/logik_installer.py:91-94 | the text `print >>` leaves for the lines in turn; WrittenSnoc, WriteLines and SplitWritten state it |
| LogikInstaller.WrittenSnoc | custom-actions/main/logik_installer.py:92-93 | each `print >>` adds the line and a newline after what was written |
| LogikInstaller.WriteLines | custom-actions/main/logik_installer.py:91-94 | the file holds every line followed by a newline, in order |
| LogikInstaller.BreakIndex | custom-actions/main/logik_installer.py:47 | the first line break, with no break before it |
| LogikInstaller.SplitLines | custom-actions/main/logik_installer.py:47 | `splitlines()` of an empty text is empty, and only of one |
| LogikInstaller.BreakIndexOf | custom-actions/main/logik_installer.py:47 | a line without breaks ends at the newline written after it |
| LogikInstaller.SplitLinesCons | custom-actions/main/logik_installer.py:47 | splitting a written line peels exactly that line off |
| LogikInstaller.SplitWritten | custom-actions/main/logik_installer.py:47 | splitting what was written gives back the lines, when none contains a break |
| LogikInstaller.ConfigText | custom-actions/main/logik_installer.py:85-94 | the title, the label and the install path as written; SaveLoad, DefaultLoads and BrokenPathTruncated state what loads back |
| LogikInstaller.LoadText | custom-actions/main/logik_installer.py:46-53 | the third line; it fails iff the text has fewer than three lines |
| LogikInstaller.HeaderLines | custom-actions/main/logik_installer.py:87-88 | the title and label contain no line break |
| LogikInstaller.SaveLoad | custom-actions/main/logik_installer.py:85-94 | saving then loading returns the saved path, for paths without line breaks |
| LogikInstaller.DefaultLoads | custom-actions/main/logik_installer.py:33-49 | the default config loads as "/opt/Autodesk" |
| LogikInstaller.WrittenBreak | custom-actions/main/logik_installer.py:92-93 | writing a line containing a newline writes the same text as two lines |
| LogikInstaller.BrokenPathTruncated | custom-actions/main/logik_installer.py:89-94 | a path with a newline in it loads back as its first line only |
| LogikInstaller.ConfigStore.constructor | custom-actions/main/logik_installer.py:12-13 | a store with folder and file as given |
| LogikInstaller.ConfigStore.WriteConfig | custom-actions/main/logik_installer.py:39-42 | the file then holds the written config; IOError when the folder is missing |
| LogikInstaller.ConfigStore.CheckForConfigFile | custom-actions/main/logik_installer.py:18-28 | the default is written only when the folder or file is missing; an existing file is never overwritten |
| LogikInstaller.ConfigStore.LoadConfigFile | custom-actions/main/logik_installer.py:15-53 | the third line of the existing config, or "/opt/Autodesk" after writing the default |
| LogikInstaller.TarPath | custom-actions/main/logik_installer.py:122 | the tarball's path; TarPathNoSpace states it has no space |
| LogikInstaller.TarPathNoSpace | custom-actions/main/logik_installer.py:122 | the tarball path has no space |
| LogikInstaller.TarCommand | custom-actions/main/logik_installer.py:126 | the tar command text before the split; TarCommandFields and TarSplit state its fields |
| LogikInstaller.TarCommandFields | custom-actions/main/logik_installer.py:126 | the command is seven fields, each followed by a single space except the last |
| LogikInstaller.TarSplit | custom-actions/main/logik_installer.py:126-128 | `split(' ', 6)` gives exactly seven fields; the last is the install path verbatim, spaces included |
| LogikInstaller.AfterInstall | custom-actions/main/logik_installer.py:136-140 | the tarball is removed (done) iff the install folder is not empty |
| LogikInstaller.InstallButton | custom-actions/main/logik_installer.py:76-140 | the typed path is saved first (IOError without the folder); the argv is the seven tar fields; then AfterInstall decides |
| Py.RSplitOnce | custom-actions/media-panel/reveal_in_finder.py:12 | `rsplit(c, 1)`: one field iff c is absent, otherwise head, c, tail with no c in the tail |
| Py.RSplitOnceAt | custom-actions/action/Projection_Creator_v1_2.py:169 | `rsplit` cuts at the last separator |
| Py.Unquote | custom-actions/media-panel/reveal_in_finder.py:22 | `[1:-1]` drops exactly the first and last characters; shorter strings give "" |
| Py.SplitJoin | custom-actions/export/post_export_dependency.py:73 | splitting a join on a separator the parts lack gives back the parts |
| Py.SplitNSeven | custom-actions/main/logik_installer.py:128 | `split(c, 6)` of seven fields, the first six free of c, gives the seven fields |
| Py.ReplaceChar | custom-actions/main/logik_installer.py:9 | `replace` of one character: same length, each occurrence substituted |
| Py.Lower | custom-actions/batch/freeze_frame_using_mux.py:57 | `lower()` maps each character |
| Py.ToInt | custom-actions/action/Projection_Creator_v1_2.py:54 | `int()` succeeds iff the text parses as an integer |
| Py.ParseIntOfIntToStr | custom-actions/action/Projection_Creator_v1_2.py:313-317 | `int(str(n))` is n, even with trailing whitespace after it |
| Py.PyIndex | custom-actions/action/Projection_Creator_v1_2.py:90 | Python list indexing: negative indices count from the end; in range iff −len ≤ i < len |
| Py.SetAt | custom-actions/action/Projection_Creator_v1_2.py:329 | list assignment: the one index changes and nothing else; IndexError out of range |
| Py.PathJoin | custom-actions/export/post_export_dependency.py:243-246 | `os.path.join`: an absolute second part wins; an empty first part gives the second; a first part ending in '/' is concatenated; otherwise the parts are joined with a single '/' |

## Left out

- Host API calls are replaced by inputs, or are not modelled. This covers `flame.batch` queries, node creation, renaming and connection, `save_node_setup`/`load_node_setup`, `execute_shortcut`, `import_clip`, `go_to`, `schedule_idle_event` and the Wiretap state query. The module comment of each file says what stands in for them.
- Processes, network and files are not modelled: `subprocess.Popen` for cmdjob, tar and the openers, `urllib.urlretrieve`, `time.sleep`, `os.remove`, `os.makedirs`, `shutil.rmtree`, `print` and `os.rename`. The model returns the command instead of starting it and takes what the script reads back (cmdjob's output, the install folder's listing) as inputs.
- PySide2 windows (`main_window`, `browse_button`, `done_window`, the cursor) are outside the model. `error_window` builds a message box that is never shown, so AfterInstall records only the failed outcome.
- Python's recursion limit is not modelled. findLineLoop, findParent and the name generators recurse; they are loops and recursive functions without a depth bound here.
- createDiffuseProjection's global `newCameraLineNum` (line 438) only carries the camera's name line into the following findLineLoop. The model passes that value on inside DiffuseLinesStep and does not keep it as a field of `ActionScript`.
- ProjectionCreator.DiffuseCamera: assumes a camera created by the shortcut lands last among the action's cameras, as `newActionCameraList[-1]` assumes. What the host really does is not modelled.
- Projection names as the host stores them (`str(node.name)[1:-1]`) are taken to be the names assigned. createCurFrameCamera's naming is modelled on the camera names, not on the host's PyAttribute objects.
- createLightLinkedCameraProjection adds only a host `connect_nodes` call to createCameraProjection, so it has no member of its own.
- The camera branch of createCurFrameCamera (163-178) is covered through UniqueName. The temporary name 'tempCameraName' is not modelled.
- export_movie_and_reimport_foreground only calls `import_clip` with the full path (FullPath), so it has no member of its own. `rename_function` is only `os.rename`.
- export_movies, get_export_dir and get_export_root (clock-based folder names), and the `get_*_custom_ui_actions` menu tables, are not part of this model.
- When its arguments are missing, PythonJobCommand reports TypeError for `" ".join(None)`, as the code does. create_backburner_job's `isinstance(dependencies, list)` test becomes the `Deps` datatype.
- ReImportCallback's `__init__` starts a Wiretap client and may raise. Only the job list it stores is modelled.
- Behaviour kept as the code has it, although other readings are possible:
  - the 'Node Camera' scan's line count drifts after each camera block (CameraScanUndercounts);
  - PosX lines are located with a 1-based number used as a 0-based start;
  - the PosY value keeps the token's trailing newline;
  - the re-import poller always polls the last job, so one unfinished job starves the others (RunStallsOnLast).
- Bytes versus text, and encodings, are not modelled. Strings are sequences of characters, and `\w` is the ASCII class.
