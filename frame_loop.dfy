/** The capture state machine: the module-level state of the demo, the
    guarded camera toggle and one iteration of the webcam frame loop.
    The library, the camera and the browser's frame scheduling are outside the
    model; what the code asks of them is appended to an event log, and what
    they hand back (the frame size, the video time, the detection results)
    arrives as parameters. */
module FrameLoop {
  import opened Wrappers
  import opened Canvas
  import opened LipPath
  import opened Overlay
  import opened BlendShapes

  /** The landmarker's `runningMode`: "IMAGE" or "VIDEO". */
  datatype Mode = Image | Video

  /** What `detectForVideo` returns: per-face landmarks and per-face blendshapes. */
  datatype Detection = Detection(faceLandmarks: seq<Face>, faceBlendshapes: seq<Classifications>)

  /** A request the code makes of the world outside the model. */
  datatype Event =
    | CameraRequested                       // getUserMedia({ video: true })
    | OptionsSet(mode: Mode)                // faceLandmarker.setOptions({ runningMode })
    | Detected(mode: Mode, videoTime: real) // detectForVideo, with the mode in force and the frame's time
    | FrameRequested                        // requestAnimationFrame(predictWebcam)

  /** The webcam button's text while capture is on or off. */
  function ButtonLabel(running: bool): (r: string)
    ensures r == "DISABLE PREDICTIONS" <==> running
    ensures r == "ENABLE PREDICTIONS" <==> !running
  {
    if running then "DISABLE PREDICTIONS" else "ENABLE PREDICTIONS"
  }

  /** The detector runs only for a frame whose time differs from the last one seen. */
  function MustDetect(lastVideoTime: real, currentTime: real): bool {
    lastVideoTime != currentTime
  }

  /** Before any detection `lastVideoTime` is -1, below every video time, so the first frame is always detected. */
  lemma FirstFrameDetects(currentTime: real)
    requires currentTime >= 0.0
    ensures MustDetect(-1.0, currentTime)
  {
  }

  class FaceDemo {
    var landmarkerLoaded: bool   // `faceLandmarker` has been assigned
    var demosVisible: bool       // the demos section has lost its `invisible` class
    var runningMode: Mode
    var webcamRunning: bool
    var buttonText: string
    var lastVideoTime: real
    var results: Option<Detection>
    var events: seq<Event>
    const canvas: Context        // the overlay canvas's 2D context
    const blendPanel: Panel      // the `video-blend-shapes` element
    const lips: seq<Connection>  // FACE_LANDMARKS_LIPS, the library's lip connection table

    /** The mode only ever switches to "VIDEO", and it does so once, by one
        `setOptions` call; every detection runs in "VIDEO" mode after that call;
        `results` is set exactly when a detection has happened, and
        `lastVideoTime` is that detection's time; nothing reaches the outside
        world before the landmarker is loaded. */
    ghost predicate Valid()
      reads this
    {
      && (runningMode == Video <==> OptionsSet(Video) in events)
      && (forall i :: 0 <= i < |events| && events[i].OptionsSet? ==> events[i].mode == Video)
      && (forall i, j :: 0 <= i < j < |events| && events[i].OptionsSet? ==> !events[j].OptionsSet?)
      && (forall i :: 0 <= i < |events| && events[i].Detected? ==>
            events[i].mode == Video && OptionsSet(Video) in events[..i])
      && (results.None? <==> lastVideoTime == -1.0)
      && (results.Some? ==> lastVideoTime >= 0.0)
      && (events != [] ==> landmarkerLoaded)
      && (demosVisible ==> landmarkerLoaded)
    }

    /** The page as loaded: no landmarker yet, mode "IMAGE", capture off,
        `lastVideoTime` -1 and no results. The button's first text and the
        panel's first content come from the page markup. */
    constructor (lips: seq<Connection>, initialButtonText: string, initialPanel: seq<PanelItem>)
      ensures Valid()
      ensures !landmarkerLoaded && !demosVisible && runningMode == Image && !webcamRunning
      ensures buttonText == initialButtonText && lastVideoTime == -1.0 && results == None && events == []
      ensures this.lips == lips && fresh(canvas) && fresh(blendPanel) && canvas.log == []
      ensures blendPanel.items == initialPanel
    {
      landmarkerLoaded := false;
      demosVisible := false;
      runningMode := Image;
      webcamRunning := false;
      buttonText := initialButtonText;
      lastVideoTime := -1.0;
      results := None;
      events := [];
      canvas := new Context();
      blendPanel := new Panel(initialPanel);
      this.lips := lips;
    }

    /** `createFaceLandmarker` resolving: the landmarker is set and the demos are shown. */
    method FinishLoading()
      requires Valid()
      modifies this
      ensures Valid()
      ensures landmarkerLoaded && demosVisible
      ensures runningMode == old(runningMode) && webcamRunning == old(webcamRunning)
      ensures buttonText == old(buttonText) && lastVideoTime == old(lastVideoTime)
      ensures results == old(results) && events == old(events)
    {
      landmarkerLoaded := true;
      demosVisible := true;
    }

    /** The webcam button's click handler. */
    method EnableCam()
      requires Valid()
      modifies this
      ensures Valid()
      ensures !old(landmarkerLoaded) ==> unchanged(this)
      ensures old(landmarkerLoaded) ==>
        && webcamRunning == !old(webcamRunning)
        && buttonText == ButtonLabel(webcamRunning)
        && events == old(events) + [CameraRequested]
      ensures landmarkerLoaded == old(landmarkerLoaded) && demosVisible == old(demosVisible)
      ensures runningMode == old(runningMode) && lastVideoTime == old(lastVideoTime) && results == old(results)
    {
      if !landmarkerLoaded {
        return;
      }
      if webcamRunning {
        webcamRunning := false;
        buttonText := "ENABLE PREDICTIONS";
      } else {
        webcamRunning := true;
        buttonText := "DISABLE PREDICTIONS";
      }
      events := events + [CameraRequested];
    }

    /** The start of an iteration after the canvas resize: switch to "VIDEO"
        mode if still in "IMAGE" mode, then run the detector if the frame's
        time has moved, keeping the previous results otherwise. */
    method RefreshResults(currentTime: real, detection: Detection)
      requires Valid() && landmarkerLoaded && currentTime >= 0.0
      modifies this
      ensures Valid()
      ensures landmarkerLoaded && demosVisible == old(demosVisible)
      ensures webcamRunning == old(webcamRunning) && buttonText == old(buttonText)
      ensures runningMode == Video
      ensures lastVideoTime == currentTime
      ensures results == if MustDetect(old(lastVideoTime), currentTime) then Some(detection) else old(results)
      ensures old(results).None? ==> results == Some(detection)
      ensures results.Some?
      ensures events == old(events)
        + (if old(runningMode) == Image then [OptionsSet(Video)] else [])
        + (if MustDetect(old(lastVideoTime), currentTime) then [Detected(Video, currentTime)] else [])
    {
      if runningMode == Image {
        runningMode := Video;
        events := events + [OptionsSet(Video)];
      }
      ghost var switched := events;
      if lastVideoTime != currentTime {
        lastVideoTime := currentTime;
        results := Some(detection);
        events := events + [Detected(runningMode, currentTime)];
        assert events[..|switched|] == switched;
      }
    }

    /** The end of an iteration: ask for the next frame while capture is on. */
    method RequestNextFrame()
      requires Valid() && landmarkerLoaded
      modifies this
      ensures Valid()
      ensures events == old(events) + (if webcamRunning then [FrameRequested] else [])
      ensures landmarkerLoaded == old(landmarkerLoaded) && demosVisible == old(demosVisible)
      ensures webcamRunning == old(webcamRunning) && buttonText == old(buttonText) && runningMode == old(runningMode)
      ensures lastVideoTime == old(lastVideoTime) && results == old(results)
    {
      if webcamRunning {
        events := events + [FrameRequested];
        assert events[..|old(events)|] == old(events);
      }
    }

    /** One iteration of `predictWebcam` for a frame of `videoWidth` by
        `videoHeight` pixels at `currentTime`; `detection` is what the detector
        returns if it is called. `completed` is false when drawing a face threw:
        the iteration then ends there, before the panel update and before
        scheduling the next frame. */
    method PredictWebcam(videoWidth: nat, videoHeight: nat, currentTime: real, detection: Detection)
        returns (completed: bool)
      requires Valid() && landmarkerLoaded && currentTime >= 0.0
      modifies this, canvas, blendPanel
      ensures Valid()
      ensures landmarkerLoaded && demosVisible == old(demosVisible)
      ensures webcamRunning == old(webcamRunning) && buttonText == old(buttonText)
      ensures runningMode == Video
      ensures lastVideoTime == currentTime
      ensures results == if MustDetect(old(lastVideoTime), currentTime) then Some(detection) else old(results)
      ensures old(results).None? ==> results == Some(detection)
      ensures results.Some? &&
        var frame := FacesCommands(results.value.faceLandmarks, lips);
        && canvas.log == old(canvas.log) + [Resize(videoWidth, videoHeight)] + frame.cmds
        && completed == frame.ok
        && blendPanel.items ==
             (if completed then PanelAfter(old(blendPanel.items), results.value.faceBlendshapes)
              else old(blendPanel.items))
      ensures events == old(events)
        + (if old(runningMode) == Image then [OptionsSet(Video)] else [])
        + (if MustDetect(old(lastVideoTime), currentTime) then [Detected(Video, currentTime)] else [])
        + (if completed && webcamRunning then [FrameRequested] else [])
    {
      canvas.Issue(Resize(videoWidth, videoHeight));
      RefreshResults(currentTime, detection);
      var frame := results.value;
      ghost var drawn := FacesCommands(frame.faceLandmarks, lips);
      completed := RenderFaces(canvas, frame.faceLandmarks, lips);
      assert completed == drawn.ok;
      if !completed {
        return;
      }
      DrawBlendShapes(blendPanel, frame.faceBlendshapes);
      RequestNextFrame();
    }
  }
}
