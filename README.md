# Face-landmark overlay demo: a verified model

The demo is a single browser script, `script.js`. It shows a webcam feed and
runs a face-landmark detector on each new video frame. On top of the frame it
draws:

- contour lines for the face oval, eyes, eyebrows and irises;
- a number at every landmark;
- four filled polygons;
- a two-piece lip fill.

It also lists the first face's blendshape scores in a side panel.

This project models the three parts of the script that hold the logic:

- **The capture state machine** (`frame_loop.dfy`). The class
  `FrameLoop.FaceDemo` holds the script's module-level variables: whether the
  landmarker is loaded, `runningMode`, `webcamRunning`, the button text,
  `lastVideoTime` and the cached `results`. `EnableCam` is the button's
  guarded toggle. `PredictWebcam` is one iteration of the frame loop: it
  resizes the canvas, switches the mode, runs the detector only when the video
  time has moved, draws every face, updates the panel and asks for the next
  frame. What the script asks of the outside world is appended to an event log:
  the camera request, `setOptions`, `detectForVideo` and
  `requestAnimationFrame`. What the world hands back arrives as parameters: the
  frame size, the video time and the detection.
- **The overlay path builders** (`canvas.dfy`, `lip_path.dfy`, `overlay.dfy`).
  The canvas's 2D context is an append-only log of commands. A point is named
  by the index of its landmark. A landmark index with nothing behind it makes
  the script throw: it reads `.x` of `undefined`. So every drawing routine is
  specified by a `Drawn` value, which holds the commands issued before the
  routine ended and a flag saying whether it ran to its end.
  - An exception ends the routine. It also ends the whole per-face loop and the
    rest of the iteration, so neither the panel update nor the next-frame
    request happens in that frame.
  - The lip outline is the pure part. It takes a JavaScript `slice` window of
    the lip connection table, with clamped bounds. It flattens each connection
    to its start and then its end. For the second half of each outline it
    reverses the list.
- **The blendshape panel** (`blend_shapes.dfy`). An empty list leaves the panel
  as it was. Otherwise the panel shows one item per category of the first
  face, in order. Each item is labelled with the display name, or the category
  name when the display name is empty.

Each drawing method is proved against a function of the face's landmark count:
`ShapeCommands`, `LipCommands`, `NumberCommands`, `FaceCommands` and
`FacesCommands`. The properties of those functions are proved as lemmas.

Where the code does less than one might expect, the model follows the code:

- A refused camera permission does not turn the toggle back. The code has no
  failure branch on the camera promise.
- A lip outline is not walked back to its first point. The lower outline ends
  at the start of table entry 20, not necessarily where it began, and
  `closePath` closes it (`LipPath.LowerOutlineWalk`).
- `enableCam` requests the camera on every accepted click, including the click
  that turns capture off.
- `results` is proved to be set before it is read. The first frame always
  detects, because `lastVideoTime` starts at -1. So the read
  `results.faceLandmarks` never sees `undefined`.
- A face with 450 landmarks or fewer, the empty landmark set included, makes
  `drawShape` read a missing landmark and throw. That ends the frame: no panel
  update and no next-frame request (`Overlay.SparseFaceEndsFrame`,
  `Overlay.FaceOkIff`).

## Model

| member | source | states |
|---|---|---|
| FrameLoop.FaceDemo.constructor | script.js:72-73 | The page starts with `lastVideoTime` -1 and no results (lines 72-73), and with no landmarker, mode "IMAGE" and capture off (lines 7-10). The canvas log is empty, the button text and the panel hold what the page markup gives, and the state invariant holds. |
| FrameLoop.FaceDemo.Valid | script.js:84-92 | The state invariant. The mode is "VIDEO" exactly when one `setOptions` to "VIDEO" has been logged. There is never a second one and never one to "IMAGE". Every detection is logged in "VIDEO" mode after that switch. `results` is present exactly when `lastVideoTime` is not -1, and that time is then non-negative. Nothing is logged before the landmarker is loaded. |
| FrameLoop.MustDetect | script.js:89 | The detector runs exactly when the frame's time differs from the last time seen. |
| FrameLoop.FaceDemo.FinishLoading | script.js:17-26 | When loading finishes, the landmarker is set and the demos are shown; nothing else changes and the invariant is kept. |
| FrameLoop.FaceDemo.EnableCam | script.js:48-70 | Before the landmarker is loaded the click changes nothing and requests no camera. Once it is loaded, a click flips `webcamRunning`, sets the button text to match the new state and appends one camera request, in either direction. The mode, `lastVideoTime` and `results` are untouched, and the invariant is kept. |
| FrameLoop.ButtonLabel | script.js:54-60 | The text is "DISABLE PREDICTIONS" exactly when capture is on and "ENABLE PREDICTIONS" exactly when it is off. |
| FrameLoop.FirstFrameDetects | script.js:89-91 | With `lastVideoTime` at its initial -1 (script.js line 72), every video time (all are non-negative) makes the detector run. |
| FrameLoop.FaceDemo.RefreshResults | script.js:84-92 | The mode is "VIDEO" afterwards, and one `setOptions` is logged exactly when it was "IMAGE". The detector is logged, in "VIDEO" mode, exactly when the time moved, and `results` is then the new detection; otherwise the previous results are kept. `lastVideoTime` equals the frame's time, results are always present afterwards, and the invariant (at most one mode switch, every detection after it) is kept. |
| FrameLoop.FaceDemo.RequestNextFrame | script.js:168-170 | One next-frame request is appended exactly when capture is on; nothing else changes. |
| FrameLoop.FaceDemo.PredictWebcam | script.js:75-173 | One iteration does the following. It resizes the canvas to the frame. It switches the mode and deduplicates detections as `RefreshResults` states. The canvas then receives exactly `FacesCommands` of the faces in the current results. If every face completed, the panel becomes `PanelAfter` of the blendshapes and a next frame is requested exactly when capture is on. If a face threw, the panel is unchanged and no frame is requested. The invariant is kept. |
| Canvas.Context.Issue | script.js:35 | A canvas call appends its command to the log and changes nothing else. |
| Canvas.ChainOk | script.js:95-164 | A loop of routines completes exactly when every routine in it completes. |
| Canvas.ChainThrowStops | script.js:95-164 | Once a routine in the loop has thrown, the routines after it add nothing. |
| Canvas.ChainConcat | script.js:95-164 | Running two lists of routines one after the other is the same as running their concatenation. |
| Canvas.ChainNext | script.js:95-164 | A loop of k+1 routines is the loop of k routines followed by routine k. |
| Canvas.LineTosConcat | script.js:203-208 | The lines to a concatenated point list are the lines to each part, in order. |
| LipPath.Slice | script.js:234 | JavaScript's `slice(start, end)` for non-negative bounds: both are clamped to the length, and crossed bounds give the empty window. |
| LipPath.LipPoints | script.js:234-238 | The points `drawLip(startIdx, endIdx, reverse)` walks: the endpoints of the clamped window, reversed when `reverse` is set. |
| LipPath.LowerOutline | script.js:248-249 | The lower lip outline: window 0..10 forward, then window 20..30 reversed. |
| LipPath.UpperOutline | script.js:256-257 | The upper lip outline: window 10..20 forward, then window 30..40 reversed. |
| LipPath.Endpoints | script.js:234-237 | `flatMap` gives two points per connection: entry i contributes its start at 2i and its end at 2i+1. |
| LipPath.Reverse | script.js:238 | The reversed list has the same length, with position i holding the element from the mirrored position. |
| LipPath.ReverseReverse | script.js:238 | Reversing twice gives back the original list. |
| LipPath.SliceLength | script.js:234 | A clamped `slice` window has hi - lo entries when the clamped bounds are ordered, and none otherwise. |
| LipPath.LipPointsWalk | script.js:233-238 | For any table and any window bounds, `drawLip` walks 2·k points, where k is the size of the clamped window. Walked forward, entry i gives points 2i (start) and 2i+1 (end). Walked in reverse, the same points come in the opposite order. |
| LipPath.ReversedWindowRestores | script.js:238 | Reversing a reversed window's points gives the forward walk of the same window. |
| LipPath.ForwardWindow | script.js:234-237 | A full ten-entry window walked forward gives 20 points, the start and end of each entry in order. |
| LipPath.BackwardWindow | script.js:234-238 | A full ten-entry window walked backward gives 20 points, ending at the start of the window's first entry. |
| LipPath.FullOutline | script.js:246-249 | One outline is window s forward and then window s+20 backward: 40 points, with each entry's endpoints at the stated positions. |
| LipPath.LowerOutlineWalk | script.js:246-249 | With at least 30 table entries, the lower lip outline is 40 points: entries 0-9 forward, then entries 20-29 backward. |
| LipPath.UpperOutlineWalk | script.js:254-257 | With the full 40-entry table, the upper lip outline is 40 points: entries 10-19 forward, then entries 30-39 backward. |
| Canvas.Then | script.js:194-218 | One routine after another: the commands of both when the first completes. When the first throws, only its commands, and the second never runs. |
| Canvas.Chain | script.js:95-164 | A loop of routines, left to right: the first routine that throws ends the loop, and its commands are the last in the log. |
| Overlay.Step | script.js:199-207 | One canvas call. A call that reads a landmark issues its command when the index has a landmark. Otherwise it throws before issuing anything, as `.x` of `undefined` does. `NoLandmark` is the read through `indices[0]` of an empty list, which always throws. |
| Overlay.Run | script.js:194-218 | The calls of a routine, one after another through `Chain`, on a face with the given number of landmarks. |
| Overlay.Trace | script.js:239-243 | The `forEach` line walk over a point list, as a run of `lineTo` calls. |
| Overlay.RunOne | script.js:194-218 | A routine of one call does what that call does. |
| Overlay.RunConcat | script.js:194-218 | Running two call lists in sequence is running their concatenation. |
| Overlay.RunDraws | script.js:211-217 | Calls that read no landmark never throw and issue exactly their commands. |
| Overlay.LineOpsConcat | script.js:203-208 | The calls of a line walk over a concatenated list are the calls over each part, in order. |
| Overlay.FirstMissing | script.js:203-208 | The result is the first position whose index has no landmark (every earlier index has one), or the length of the list when there is none. |
| Overlay.FirstMissingIs | script.js:203-208 | Any position with these two defining properties is the first missing one. |
| Overlay.TraceSnoc | script.js:203-208 | A walk extended by one point is the old walk followed by one more `lineTo` call. |
| Overlay.TraceCons | script.js:203-208 | A walk with one more point in front is that `lineTo` call followed by the rest of the walk. |
| Overlay.TraceStopsAtFirstMissing | script.js:239-243 | A `forEach` line walk draws one line to each point before the first point with no landmark. It throws exactly when such a point exists. |
| Overlay.TraceComplete | script.js:239-243 | A walk completes exactly when every point has a landmark, and it then draws one line to every point, in order. |
| Overlay.TracePoints | script.js:239-243 | The loop issues exactly the walk's commands and reports whether it completed. The same walk is the `forEach` of `drawShape` (script.js lines 203-208). |
| Overlay.ShapeCommands | script.js:194-218 | What `drawShape(landmarks, indices)` issues: `beginPath`, a move to the first index, a line to every index, then close, fill and stroke with the fixed styles. It stops at the first missing landmark. |
| Overlay.ShapeStages | script.js:194-218 | `drawShape` is: begin the path, move to the first index, walk every index, then close, fill and stroke. |
| Overlay.ShapeOkIff | script.js:194-218 | `drawShape` completes exactly when the index list is non-empty and every index names a landmark. |
| Overlay.ShapeComplete | script.js:194-218 | A well-formed shape issues `beginPath`, a move to the first index, one line to every index in order (the first index again among them), then `closePath`, the fill style, `fill`, the stroke style and `stroke`. |
| Overlay.FailedShapeUnfilled | script.js:194-218 | A shape that throws has begun a path but never closes, fills or strokes it. |
| Overlay.DrawShape | script.js:194-218 | The method issues exactly `ShapeCommands` and reports whether the shape completed. |
| Overlay.LipFill | script.js:247-252 | One lip block: `beginPath`, the line walks over two point lists, then `closePath`, the fill style and `fill`. It stops at the first missing landmark. |
| Overlay.LipCommands | script.js:246-260 | What `fillLipsWithColor` issues: the lower-lip block over windows 0..10 and 20..30 reversed, then the upper-lip block over windows 10..20 and 30..40 reversed, each with its own style. The second block runs only if the first completed. |
| Overlay.LipFillStages | script.js:247-252 | One lip block is: begin the path, walk the first window, walk the second window, then close and fill. |
| Overlay.AllBelowConcat | script.js:239-243 | Every point of a concatenation names a landmark exactly when every point of each part does. |
| Overlay.LipFillComplete | script.js:246-252 | One lip block completes exactly when its whole outline names landmarks. It is then one path along the whole outline, closed and filled. |
| Overlay.LipPairComplete | script.js:246-260 | The two lip blocks in sequence complete exactly when both outlines name landmarks, and then they are two closed filled paths. |
| Overlay.LipsComplete | script.js:231-261 | `fillLipsWithColor` completes exactly when the lower and the upper outlines both name landmarks only. It then issues two closed filled paths, the lower lip's and then the upper lip's, each with its own fill style. |
| Overlay.DrawLip | script.js:233-244 | `drawLip` issues exactly the line walk over the window's points and reports whether it completed. |
| Overlay.LipFillThrowsFirst | script.js:247-248 | A lip block whose first walk throws has issued only `beginPath` and that walk. |
| Overlay.LipFillThrowsSecond | script.js:247-249 | A lip block whose second walk throws has issued `beginPath` and both walks, and is never closed. |
| Overlay.LipFillCloses | script.js:247-252 | A lip block whose two walks complete ends with `closePath`, the fill style and `fill`. |
| Overlay.FillLip | script.js:246-252 | One lip block issues exactly `LipFill` of its two windows and reports whether it completed. The upper-lip block (script.js lines 254-260) is the same method with other windows and style. |
| Overlay.FillLipsWithColor | script.js:231-261 | The routine issues exactly `LipCommands`: the lower lip, then the upper lip unless the lower one threw. |
| Overlay.NumberCommands | script.js:176-188 | What `displayLandmarkNumbers` issues: the font, the fill colour, then `fillText(i)` at landmark i for every i in index order. |
| Overlay.DisplayLandmarkNumbers | script.js:176-188 | The routine sets the font and fill colour, then issues one `fillText` per landmark, in index order, whose text is that landmark's index. |
| Overlay.ConnectorCalls | script.js:96-149 | The eight `drawConnectors` calls of one face, back to front, each with its landmark group and the style the script passes. The face oval is drawn twice, first black with width 2 and then light grey. The commented-out tesselation and lip calls are not among them. `RenderFace` issues these eight commands one by one, as the script does. |
| Overlay.FaceCommands | script.js:96-162 | What one face issues: the eight connector calls, the numbers, the four polygons and the lip fill, in that order. It stops at the first throw. |
| Overlay.FacesCommands | script.js:94-165 | What the loop over `results.faceLandmarks` issues: one `FaceCommands` per face in detection order. It stops at the first face that throws. |
| Overlay.PolygonsBelow | script.js:155-159 | Every index of the four polygons is at most 450. |
| Overlay.FaceOkIff | script.js:95-163 | A face renders without throwing exactly when it has more than 450 landmarks and both lip outlines name landmarks only. |
| Overlay.FaceLayers | script.js:96-162 | A face that renders is layered back to front: connectors, numbers, the four polygons, the lips. |
| Overlay.LabelsAfterConnectors | script.js:176-188 | A log that starts with the connector calls and the numbers holds every landmark's number, in index order, right after the font and colour. |
| Overlay.StagesKeepPrefix | script.js:96-162 | What a face issued in its first stage stays at the front of its log, whatever the later stages do. |
| Overlay.FaceLabelsEveryLandmark | script.js:95-162 | Every face gets one number per landmark, in index order, even when a later shape throws. |
| Overlay.RenderFace | script.js:96-162 | One iteration of the face loop issues exactly `FaceCommands` and reports whether it completed. |
| Overlay.NoFacesNoDrawing | script.js:94-95 | With no face, nothing is drawn and the loop completes. |
| Overlay.FacesOkIff | script.js:94-165 | The face loop completes exactly when every face renders without throwing. |
| Overlay.ThrowEndsFrame | script.js:94-165 | Once a face throws, the faces after it draw nothing. |
| Overlay.SparseFaceEndsFrame | script.js:155-159 | A face with 450 landmarks or fewer, the empty one included, throws in the polygons, and the face loop then does not complete. |
| Overlay.FullMeshRenders | script.js:94-165 | When every face has more than 450 landmarks and the lip outlines name landmarks only, the face loop runs to its end. |
| Overlay.RenderFaces | script.js:94-165 | The face loop issues exactly `FacesCommands` and reports whether it completed. |
| BlendShapes.Label | script.js:277-279 | The label is the display name when it is non-empty and the category name otherwise. It is empty only when both names are. |
| BlendShapes.Items | script.js:274-285 | There is one item per category, in order, each built from its own category. |
| BlendShapes.PanelAfter | script.js:266-288 | What the panel holds after `drawBlendShapes`. For an empty list it is the previous content. Otherwise it is one item per category of the first face. |
| BlendShapes.EmptyLeavesPanel | script.js:267-269 | An empty blendshape list leaves the panel as it was. |
| BlendShapes.OnlyFirstFace | script.js:274 | The faces after the first never change the panel, and neither does the panel's previous content. |
| BlendShapes.PanelListsFirstFace | script.js:274-287 | With at least one face, the panel lists that face's categories, one item each, in order, each carrying its score and the label fallback. |
| BlendShapes.Panel.constructor | script.js:5 | The panel element starts with the given items. |
| BlendShapes.DrawBlendShapes | script.js:266-288 | The loop leaves the panel holding exactly `PanelAfter` of its previous items and the blendshape list. |

## Left out

- Loading the landmarker (script.js:13-28) involves the network and WebAssembly. It is reduced to `FinishLoading`, which sets the loaded flag and shows the demos. The options passed to the library are not modelled.
- What `drawConnectors` draws belongs to the library. Each call is logged as one `Connectors` command with its landmark group and style.
- Camera support, the `getUserMedia` promise, the stream binding and the `loadeddata` listener (script.js:37-46, 66-69) are browser I/O. Each accepted click logs one camera request. `addEventListener` registers the same `predictWebcam` function each time, so only one listener ever exists. Each accepted click does get a new stream, though, and sets `video.srcObject` (script.js:66-67). So `loadeddata` fires again and `predictWebcam` runs one more time. That includes the click that turns capture off: that extra iteration detects and draws but does not reschedule. The model does not tie a `CameraRequested` event to the `PredictWebcam` call it later causes. `PredictWebcam` may run at any time once the landmarker is loaded.
- Floating-point work is not modelled. That covers the style sizing from the aspect ratio (script.js:76-82), the pixel scaling of landmark coordinates (script.js:182-183, 200, 205-206, 240-241), and the score's `* 100` and `toFixed(4)` (script.js:281-282). Points stay landmark indices and a panel item keeps its raw score.
- `async`/`await` and the timing of `requestAnimationFrame` are not modelled. One iteration is one sequential step, so the model does not capture interleavings of iterations, clicks and the pending `setOptions` promise. `performance.now()` is passed to the library only, and it is left out.
- The detector and `setOptions` are foreign calls. A detection is an arbitrary input, and the calls are logged as events. `Detection.faceLandmarks` is always a sequence, so the guard `if (results.faceLandmarks)` (script.js:94) always passes and is not modelled. That matches the library's result type, and an empty JavaScript array is truthy anyway.
- `console.log` and `console.warn` diagnostics are left out, and so is the panel's HTML markup beyond each item's label and score.
- The script as given does not perform the image-click detection path (the `imageContainers` are never used), so it is not part of this model.
- The page's initial button text and panel content come from the markup, which is not part of this model. Both are constructor parameters.
- The lip connection table `FACE_LANDMARKS_LIPS` belongs to the library. It is a parameter (`FaceDemo.lips`). The outline lemmas state its content where the table has the 30 or 40 entries they need.
