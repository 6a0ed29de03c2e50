/** The overlay canvas's 2D context, modelled as the append-only log of the
    commands issued to it. A point is the index of the landmark it is taken
    from; the pixel position (normalised coordinate times canvas size) is not
    modelled. */
module Canvas {
  /** The landmark groups whose connectors the drawing utility strokes. */
  datatype Group = FaceOval | RightEye | RightEyebrow | LeftEye | LeftEyebrow | RightIris | LeftIris

  /** The `lineWidth` of a connector style, when the style gives one. */
  datatype LineWidth = DefaultWidth | Width(px: nat)

  datatype Command =
    | Resize(width: nat, height: nat)                                // canvas.width / canvas.height := frame size
    | Connectors(group: Group, color: string, lineWidth: LineWidth)  // one drawConnectors call
    | SetFont(font: string)
    | SetFillStyle(style: string)
    | SetStrokeStyle(style: string)
    | BeginPath
    | MoveTo(point: nat)
    | LineTo(point: nat)
    | ClosePath
    | Fill
    | Stroke
    | FillText(text: nat, at: nat)                                   // the number `text` at landmark `at`

  class Context {
    var log: seq<Command>

    constructor ()
      ensures log == []
    {
      log := [];
    }

    method Issue(c: Command)
      modifies this
      ensures log == old(log) + [c]
    {
      log := log + [c];
    }
  }

  /** What a drawing routine leaves behind: the commands it issued and whether
      it ran to its end. `ok == false` means it threw after issuing `cmds`. */
  datatype Drawn = Drawn(cmds: seq<Command>, ok: bool)

  function Emit(cs: seq<Command>): Drawn {
    Drawn(cs, true)
  }

  /** `a` followed by `b`, unless `a` threw: an exception ends the routine. */
  function Then(a: Drawn, b: Drawn): Drawn {
    if a.ok then Drawn(a.cmds + b.cmds, b.ok) else a
  }

  /** One `lineTo` per point, in order. */
  function LineTos(points: seq<nat>): seq<Command> {
    seq(|points|, i requires 0 <= i < |points| => LineTo(points[i]))
  }

  lemma LineTosConcat(a: seq<nat>, b: seq<nat>)
    ensures LineTos(a + b) == LineTos(a) + LineTos(b)
  {
    assert forall i :: 0 <= i < |a| + |b| ==> LineTos(a + b)[i] == (LineTos(a) + LineTos(b))[i];
  }

  /** Routines run one after another, as a loop runs them: the first one that
      throws ends the run. */
  function Chain(steps: seq<Drawn>): Drawn
    decreases |steps|
  {
    if steps == [] then Emit([]) else Then(Chain(steps[..|steps| - 1]), steps[|steps| - 1])
  }

  lemma ChainNext(steps: seq<Drawn>, k: nat)
    requires k < |steps|
    ensures Chain(steps[..k + 1]) == Then(Chain(steps[..k]), steps[k])
  {
    assert steps[..k + 1][..k] == steps[..k];
  }

  /** A run completes exactly when every routine in it does. */
  lemma {:induction false} ChainOk(steps: seq<Drawn>)
    ensures Chain(steps).ok <==> forall i :: 0 <= i < |steps| ==> steps[i].ok
    decreases |steps|
  {
    if steps != [] {
      var init := steps[..|steps| - 1];
      ChainOk(init);
      assert forall i :: 0 <= i < |init| ==> init[i] == steps[i];
    }
  }

  /** Once a routine has thrown, the routines after it issue nothing. */
  lemma {:induction false} ChainThrowStops(steps: seq<Drawn>, j: nat)
    requires j <= |steps|
    requires !Chain(steps[..j]).ok
    ensures Chain(steps) == Chain(steps[..j])
    decreases |steps| - j
  {
    if j < |steps| {
      var init := steps[..|steps| - 1];
      assert init[..j] == steps[..j];
      ChainThrowStops(init, j);
    } else {
      assert steps[..j] == steps;
    }
  }

  /** What a routine issued before the next one ran stays at the front of the log. */
  lemma ThenKeepsPrefix(a: Drawn, b: Drawn)
    ensures a.cmds <= Then(a, b).cmds
  {
  }

  /** The log after a routine that completed and then another one, written as one run. */
  lemma LogThen(log: seq<Command>, a: Drawn, b: Drawn)
    requires a.ok
    ensures log + a.cmds + b.cmds == log + Then(a, b).cmds
  {
  }

  /** Commands issued one at a time are the log extended by their list. */
  lemma IssuedThree(log: seq<Command>, a: Command, b: Command, c: Command)
    ensures log + [a] + [b] + [c] == log + [a, b, c]
  {
  }

  lemma IssuedFive(log: seq<Command>, a: Command, b: Command, c: Command, d: Command, e: Command)
    ensures log + [a] + [b] + [c] + [d] + [e] == log + [a, b, c, d, e]
  {
  }

  lemma ThenAssoc(a: Drawn, b: Drawn, c: Drawn)
    ensures Then(Then(a, b), c) == Then(a, Then(b, c))
  {
  }

  /** Running two lists of routines one after the other is running their concatenation. */
  lemma {:induction false} ChainConcat(a: seq<Drawn>, b: seq<Drawn>)
    ensures Chain(a + b) == Then(Chain(a), Chain(b))
    decreases |b|
  {
    if b == [] {
      assert a + b == a;
    } else {
      var init := b[..|b| - 1];
      assert (a + b)[..|a + b| - 1] == a + init;
      ChainConcat(a, init);
      ThenAssoc(Chain(a), Chain(init), b[|b| - 1]);
    }
  }
}
