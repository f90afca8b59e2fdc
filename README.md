# Zigurous debug tools, modelled in Dafny

This project models the stateful core of a Unity debugging package:

- **The mesh debugger editor window.** It binds to the mesh of the selected game object and pages through its triangles with a jump field and Previous/Next buttons. It shows each corner's vertex index and UV, and draws the current face in the scene view with coloured markers, dotted edges and index labels.
- **Two console loggers.** `Zigurous.Debug.Log` and `Zigurous.Debugging.Debug` prefix every message and show null as a fixed string. They join several messages into one line through a shared `StringBuilder`. The first clears the builder before each call, the second after it.
- **The FPS display's format string.** It is `"0"` or `"0."` followed by one `'0'` per decimal, built with a capacity computed in 32-bit `int`.
- **The pause component in a player build.** It sets `Time.timeScale` to 0 or 1, toggled by an input action or by a key with an optional held modifier.

Files:

- `wrappers.dfy`: `Option` (a reference that may be null) and `Result` (a value or the exception a call throws).
- `string_builder.dfy`: the parts of `System.Text.StringBuilder` that are used: `Append`, `Insert(index, value, count)` and `Clear`.
- `scene.dfy`: meshes, components, the game-object tree, and `GetComponentInChildren` as a depth-first, pre-order search.
- `face_navigation.dfy`: C#'s truncating `%`, and the jump, Previous and Next steps over faces.
- `mesh_debugger.dfy`: the `MeshDebugger` class, face resolution, and the overlay as a sequence of `Handles` calls.
- `log_format.dfy`: the message text shared by both loggers, and the Unity console as an appended list of entries.
- `log.dfy` and `debug_log.dfy`: the two logger classes.
- `fps_display.dfy`: the `FPSDisplay` format builder, with `int` wrap-around written out.
- `pause_application.dfy`: the `PauseApplication` class and its state machine.

Foreign calls are parameters of the methods that make them:

- `Transform.TransformPoint`, the editor skin's label style, the jump field's value and the button presses are method parameters.
- What `Input.GetKeyDown`/`GetKey` report is a method parameter.
- `InputAction.CallbackContext` is a method parameter.
- `ToString()` of a logged object is the `shown` string of an `Obj`.

The model covers both `#if` variants that change behaviour:

- `UNITY_EDITOR || DEVELOPMENT_BUILD` is a constant of each logger.
- `UNITY_ASSERTIONS` is a second constant of `Log`.

## Model

| member | source | states |
|---|---|---|
| Scene.FaceWithinTriangles | Editor/MeshDebugger.cs:106-108 | every face below the face count has all three corner entries inside the index buffer |
| Scene.Preorder | Editor/MeshDebugger.cs:42 | the search order starts at the selected object itself and is non-empty |
| Scene.FirstFound | Editor/MeshDebugger.cs:42 | nothing is found exactly when no object in the order carries the component; otherwise the result is the component of an object with no carrier before it |
| Scene.FirstFoundIsFirst | Editor/MeshDebugger.cs:42 | the first carrier in depth-first order is the one returned |
| MeshDebugging.SelectedMesh | Editor/MeshDebugger.cs:36-58 | no selected object binds no mesh |
| MeshDebugging.MeshFilterWins | Editor/MeshDebugger.cs:42-48 | the shared mesh of the first MeshFilter under the selection is bound, whatever SkinnedMeshRenderers exist |
| MeshDebugging.SkinnedMeshFallback | Editor/MeshDebugger.cs:49-57 | with no MeshFilter anywhere under the selection, the first SkinnedMeshRenderer's shared mesh is bound |
| MeshDebugging.NoMeshFound | Editor/MeshDebugger.cs:36-58 | no mesh is bound if and only if no object under the selection carries either component |
| MeshDebugging.MeshDebugger.OnSelectionChange | Editor/MeshDebugger.cs:34-65 | the selection's mesh is bound, the face count is its face count (0 without a mesh), face and jump field go back to 0, the MeshFilter field goes stale when nothing is selected, and the window invariant holds |
| FaceNavigation.CsRemainder | Editor/MeshDebugger.cs:91 | C#'s remainder lies strictly between -n and n; it is the Euclidean one for a non-negative dividend, and for a negative dividend it is non-positive and equals either that remainder or that remainder minus n |
| FaceNavigation.JumpTo | Editor/MeshDebugger.cs:78-85 | a typed value is taken exactly when it names a face; otherwise the face is unchanged, with no error |
| FaceNavigation.PreviousFace | Editor/MeshDebugger.cs:89-96 | Previous always lands in [0, numFaces) and is the true residue of current - 1 |
| FaceNavigation.NextFace | Editor/MeshDebugger.cs:98-100 | Next from any face lands in [0, numFaces) and is the residue of current + 1 |
| FaceNavigation.Navigate | Editor/MeshDebugger.cs:78-100 | jump, then Previous, then Next keeps the current face within [0, numFaces); with no button pressed the pass is just the jump |
| FaceNavigation.NextStep | Editor/MeshDebugger.cs:98-100 | Next moves to the following face and wraps from the last face to 0 |
| FaceNavigation.PreviousStep | Editor/MeshDebugger.cs:89-96 | Previous moves to the preceding face and wraps from 0 to the last face |
| FaceNavigation.PreviousUndoesNext | Editor/MeshDebugger.cs:89-100 | Previous undoes Next and Next undoes Previous |
| FaceNavigation.NextTimesIsOffset | Editor/MeshDebugger.cs:98-100 | k presses of Next from a face land on (face + k) mod numFaces |
| FaceNavigation.NextCycle | Editor/MeshDebugger.cs:98-100 | numFaces presses of Next return to the starting face |
| MeshDebugging.Corners | Editor/MeshDebugger.cs:106-108 | a face's corners are the triangle entries 3f, 3f+1 and 3f+2 |
| MeshDebugging.CornersTileTriangles | Editor/MeshDebugger.cs:106-108 | face after face, the corners read back the index buffer in order, with nothing skipped or repeated |
| MeshDebugging.ResolveFace | Editor/MeshDebugger.cs:106-112 | the red, green and blue indices are exactly triangles[3f..3f+3], and each UV shown is the UV at that same index |
| MeshDebugging.MeshDebugger.OnGUI | Editor/MeshDebugger.cs:67-113 | without a mesh only the notice is shown and nothing changes; otherwise the jump field takes the typed value, the face moves by jump, Previous and Next in that order, the labels show the face count and the face before the pass, and the readout is the resolved face reached |
| MeshDebugging.Overlay | Editor/MeshDebugger.cs:138-163 | whatever colour was in force before, the calls draw red, green and blue markers at p1, p2 and p3, white dotted edges p1-p2, p2-p3 and p3-p1, and the three index labels |
| MeshDebugging.OverlayRendersOutline | Editor/MeshDebugger.cs:138-163 | the thirteen Handles calls render to exactly those three markers, three edges and three labels, in that order |
| MeshDebugging.NewLabelStyle | Editor/MeshDebugger.cs:152-158 | the label style is a new copy of the skin's label with white text, 40 by 20, centred, size 12, overflow clipping |
| MeshDebugging.MeshDebugger.OnSceneGUI | Editor/MeshDebugger.cs:115-166 | without a mesh nothing is drawn or changed; otherwise the three corners are transformed by the bound component's transform, the label style is built on the first draw only and then kept, and the draw calls are the overlay of the current face |
| LogFormat.SingleText | Runtime/Log.cs:52-58 | a single message is logged as the prefix followed by the message's text, or by the null-reference string for null |
| LogFormat.JoinSplit | Runtime/Log.cs:334-354 | joining two non-empty runs of messages puts exactly one delimiter between them |
| LogFormat.TerminatedThenLast | Runtime/Log.cs:334-354 | every message but the last followed by a delimiter, then the last without one, is the joined text: there is no trailing delimiter |
| LogFormat.JoinLength | Runtime/Log.cs:334-354 | n messages joined take their own lengths plus exactly n - 1 delimiters |
| LogFormat.JoinEdgeCases | Runtime/Log.cs:328-332 | a null array is shown as the null-reference string alone, an empty array as nothing, one message as itself |
| LogFormat.UnityConsole.Emit | Runtime/Log.cs:55 | each console call appends exactly one entry with its level, text and context |
| Logging.Log.Join | Runtime/Log.cs:325-356 | the builder gains exactly the joined text (the null-reference string for a null array) and nothing else |
| Logging.Log.Message | Runtime/Log.cs:39-90 | in a development build one Log entry is emitted: the prefix (the custom one or Log.prefix) and the message or null-reference string, with the context passed through; the builder is cleared first, so nothing earlier leaks in |
| Logging.Log.Messages | Runtime/Log.cs:96-104 | in a development build one Log entry is emitted, Log.prefix followed by the joined messages, so an empty array logs the prefix alone |
| Logging.Log.Warning | Runtime/Log.cs:110-161 | as Message, at the Warning level |
| Logging.Log.Warnings | Runtime/Log.cs:168-176 | as Messages, at the Warning level |
| Logging.Log.Error | Runtime/Log.cs:182-233 | as Message, at the Error level |
| Logging.Log.Errors | Runtime/Log.cs:240-248 | as Messages, at the Error level |
| Logging.Log.Assertion | Runtime/Log.cs:254-305 | as Message, at the Assert level, and only when assertions are also compiled in; otherwise nothing changes |
| Logging.Log.Assertions | Runtime/Log.cs:312-320 | as Messages, at the Assert level, and only when assertions are also compiled in |
| Debugging.Debug.Join | Runtime/Scripts/Log.cs:169-200 | the builder gains exactly the joined text (the null-reference string for a null array) and nothing else |
| Debugging.Debug.Log | Runtime/Scripts/Log.cs:38-63 | in a development build one Log entry is emitted: whatever the builder held, then the prefix and the message or null-reference string; the builder is empty afterwards |
| Debugging.Debug.LogMany | Runtime/Scripts/Log.cs:68-76 | in a development build one Log entry is emitted: the builder's earlier content, the prefix and the joined messages; the builder is empty afterwards |
| Debugging.Debug.LogWarning | Runtime/Scripts/Log.cs:81-106 | as Log, at the Warning level |
| Debugging.Debug.LogWarnings | Runtime/Scripts/Log.cs:112-120 | as LogMany, at the Warning level |
| Debugging.Debug.LogError | Runtime/Scripts/Log.cs:125-150 | as Log, at the Error level |
| Debugging.Debug.LogErrors | Runtime/Scripts/Log.cs:156-164 | as LogMany, at the Error level |
| FpsDisplay.Wrap32 | Runtime/FPSDisplay.cs:81-82 | int arithmetic keeps in-range values and wraps values just above int.MaxValue down by 2^32 |
| FpsDisplay.CapacityNegative | Runtime/FPSDisplay.cs:81-84 | the capacity is negative exactly for decimals below -1 and for the two largest ints, where the sum wraps; from -1 to int.MaxValue - 2 it is 1 + decimals, plus 1 when there are decimals |
| FpsDisplay.WholeNumberFormat | Runtime/FPSDisplay.cs:81-93 | with -1 or 0 decimals the format is "0" |
| FpsDisplay.DecimalFormat | Runtime/FPSDisplay.cs:85-91 | with decimals the format is "0." followed by exactly that many '0's, and its length is the capacity computed up front |
| FpsDisplay.NegativeDecimalsFail | Runtime/FPSDisplay.cs:81-84 | decimals below -1 make the builder's constructor throw, with the negative capacity 1 + decimals |
| FpsDisplay.RecomputeIdempotent | Runtime/FPSDisplay.cs:55-63 | rebuilding the format from the same decimals twice gives what once gives, and a successful rebuild does not depend on the old format |
| FpsDisplay.FPSDisplay.SetDisplayFormat | Runtime/FPSDisplay.cs:79-94 | the field holds the format for the given decimals, or keeps its old value while the constructor's exception is returned |
| FpsDisplay.FPSDisplay.SetDecimals | Runtime/FPSDisplay.cs:45-53 | the stored decimals become the value before the rebuild, so a throwing rebuild leaves the new decimals beside the old format |
| FpsDisplay.FPSDisplay.Awake | Runtime/FPSDisplay.cs:60-63 | the format is rebuilt from the stored decimals, which do not change |
| FpsDisplay.FPSDisplay.OnValidate | Runtime/FPSDisplay.cs:55-58 | the format is rebuilt from the stored decimals, which do not change |
| Pausing.Toggle | Runtime/PauseApplication.cs:76-80 | a toggle flips the paused flag and leaves the time scale in step with it |
| Pausing.Paused | Runtime/PauseApplication.cs:105-113 | pausing leaves the flag set and the time scale at 0 |
| Pausing.Resumed | Runtime/PauseApplication.cs:118-126 | resuming leaves the flag clear and the time scale at 1 |
| Pausing.PauseResumeIdempotent | Runtime/PauseApplication.cs:105-126 | a paused (resumed) state with the time scale in step is exactly what Pause (Resume) leaves, so both are idempotent |
| Pausing.ToggleTwice | Runtime/PauseApplication.cs:72-82 | two toggles restore a state whose time scale is in step; from any state, toggles after the first alternate between the same two states |
| Pausing.UpdateTogglesOnlyThroughGate | Runtime/PauseApplication.cs:86-99 | an Update flips the flag exactly when the key went down and the modifier is None or held, and otherwise changes nothing |
| Pausing.PauseApplication.Pause | Runtime/PauseApplication.cs:105-113 | the flag is set and the global time scale becomes 0 |
| Pausing.PauseApplication.Resume | Runtime/PauseApplication.cs:118-126 | the flag is cleared and the global time scale becomes 1 |
| Pausing.PauseApplication.OnPause | Runtime/PauseApplication.cs:72-82 | a performed callback toggles the state; any other callback changes nothing |
| Pausing.PauseApplication.Update | Runtime/PauseApplication.cs:86-100 | the state after a frame is the gated toggle of the state before it |

## Left out

- A mesh component whose `sharedMesh` is null is not modelled: every component in the tree carries a mesh. The window would throw at `currentMesh.triangles` there.
- `GetComponentInChildren` skips inactive objects; the model's tree has only active objects.
- MeshDebugging.MeshDebugger.OnGUI: requires a face count above 0 and UV entries for every triangle index. The window throws for a mesh with fewer than three indices (`% 0`) or an out-of-range index, and those exceptions are not modelled.
- MeshDebugging.MeshDebugger.OnSceneGUI: requires a face count above 0 and vertex entries for every triangle index, for the same reason.
- The jump field and buttons are taken as inputs to one GUI pass. `EditorGUILayout` layout, `Repaint`, the window and menu registration, and the `SceneView` subscription are not part of this model.
- Marker size (`0.2 * HandleUtility.GetHandleSize`), dotted-line spacing and the `Quaternion.identity`/`EventType.Repaint` arguments are left out. Only positions, colours, indices and the label style are recorded.
- Label and readout text formatting (`int.ToString()` and the UV's float formatting) is not modelled: the index and UV values themselves are recorded.
- Logged objects are seen only through the string their `ToString()` returns. A `ToString()` that throws or returns null is not modelled.
- A null prefix, null delimiter or null null-reference string (all public static fields) is not modelled: they are strings.
- FpsDisplay.FPSDisplay.SetDisplayFormat: for 1 to int.MaxValue - 2 decimals the model always succeeds. Such a builder could exhaust memory or exceed the builder's maximum capacity long before that, which is not modelled.
- `FPSDisplay.Update` and `UpdateDisplay` (refresh timing on float clock values, the frame rate, and `float.ToString(format)`) are not part of this model.
- `PauseApplication` in the editor (`EditorApplication.isPaused`) and the input action's lifecycle (`Awake`, `OnEnable`, `OnDisable`, `OnDestroy`) are not part of this model.
- `Time.timeScale` is a real number assigned only 0 and 1; float representation is not modelled.
