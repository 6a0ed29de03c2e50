/** The per-face overlay: connector layers, landmark numbers, four filled
    polygons and the two-piece lip fill, each issued to the canvas log.
    A landmark index with no landmark behind it makes the source's drawing code
    throw (it reads `.x` of `undefined`); the commands issued before that stay
    on the canvas and the rest of the routine does not run. */
module Overlay {
  import opened Canvas
  import opened LipPath

  /** A normalised landmark as the detector returns it. Which commands are
      issued depends only on how many landmarks a face has. */
  datatype Landmark = Landmark(x: real, y: real, z: real)
  type Face = seq<Landmark>

  const ShapeFill := "rgba(255, 0, 0, 0.5)"
  const ShapeStroke := "rgba(0, 0, 0, .1)"
  const LowerLipFill := "rgba(0, 0, 0, 0.75)"
  const UpperLipFill := "rgba(0, 0, 0, .75)"
  const LabelFont := "5px Arial"
  const LabelColor := "blue"

  /** The four closed polygons drawn on every face, as landmark-index lists. */
  const Polygon1: seq<nat> := [117, 50, 205, 36, 100, 120, 230, 229, 117]
  const Polygon2: seq<nat> := [346, 280, 425, 266, 329, 349, 450, 449, 346]
  const Polygon3: seq<nat> := [55, 107, 66, 105, 63, 46, 53, 52, 65, 55]
  const Polygon4: seq<nat> := [285, 336, 296, 334, 293, 276, 283, 282, 295, 285]

  /** The connector layers, back to front, with their styles. */
  const ConnectorCalls: seq<Command> := [
    Connectors(FaceOval, "#000000", Width(2)),
    Connectors(RightEye, "#FF3030", Width(0)),
    Connectors(RightEyebrow, "#FF3030", DefaultWidth),
    Connectors(LeftEye, "#30FF30", DefaultWidth),
    Connectors(LeftEyebrow, "#30FF30", DefaultWidth),
    Connectors(FaceOval, "#E0E0E0", DefaultWidth),
    Connectors(RightIris, "#FF3030", DefaultWidth),
    Connectors(LeftIris, "#000000", DefaultWidth)
  ]

  /** Every point names a landmark of a face with `n` landmarks. */
  predicate AllBelow(points: seq<nat>, n: nat) {
    forall i :: 0 <= i < |points| ==> points[i] < n
  }

  // ---------------------------------------------------------------- programs

  /** One canvas call made by the drawing code. A call whose point is read from
      the face's landmarks throws when the index has no landmark behind it;
      `NoLandmark` is a point read through an undefined index, which always throws. */
  datatype Op =
    | Draw(c: Command)
    | MoveToLandmark(p: nat)
    | LineToLandmark(p: nat)
    | NoLandmark

  /** One call on a face of `n` landmarks. */
  function Step(n: nat, op: Op): Drawn {
    match op
    case Draw(c) => Emit([c])
    case MoveToLandmark(p) => if p < n then Emit([MoveTo(p)]) else Drawn([], false)
    case LineToLandmark(p) => if p < n then Emit([LineTo(p)]) else Drawn([], false)
    case NoLandmark => Drawn([], false)
  }

  function Steps(n: nat, ops: seq<Op>): seq<Drawn> {
    seq(|ops|, i requires 0 <= i < |ops| => Step(n, ops[i]))
  }

  /** The calls `ops` made in order on a face of `n` landmarks: the first one
      that throws ends the routine. */
  function Run(n: nat, ops: seq<Op>): Drawn {
    Chain(Steps(n, ops))
  }

  lemma RunOne(n: nat, op: Op)
    ensures Run(n, [op]) == Step(n, op)
  {
    var steps := Steps(n, [op]);
    assert steps == [Step(n, op)];
    assert steps[..0] == [];
    assert Chain(steps) == Then(Chain([]), Step(n, op));
    assert [] + Step(n, op).cmds == Step(n, op).cmds;
  }

  lemma RunConcat(n: nat, a: seq<Op>, b: seq<Op>)
    ensures Run(n, a + b) == Then(Run(n, a), Run(n, b))
  {
    assert Steps(n, a + b) == Steps(n, a) + Steps(n, b);
    ChainConcat(Steps(n, a), Steps(n, b));
  }

  /** Calls with no landmark operand. */
  function Draws(cs: seq<Command>): seq<Op> {
    seq(|cs|, i requires 0 <= i < |cs| => Draw(cs[i]))
  }

  /** Calls with no landmark operand never throw and issue exactly their commands. */
  lemma {:induction false} RunDraws(n: nat, cs: seq<Command>)
    ensures Run(n, Draws(cs)) == Emit(cs)
    decreases |cs|
  {
    if cs != [] {
      var init, last := cs[..|cs| - 1], cs[|cs| - 1];
      assert Draws(cs) == Draws(init) + [Draw(last)];
      RunDraws(n, init);
      RunConcat(n, Draws(init), [Draw(last)]);
      RunOne(n, Draw(last));
      assert init + [last] == cs;
    }
  }

  // ---------------------------------------------------------------- tracing

  /** `points.forEach(p => lineTo(landmarks[p]))`, as calls. */
  function LineOps(points: seq<nat>): seq<Op> {
    seq(|points|, i requires 0 <= i < |points| => LineToLandmark(points[i]))
  }

  lemma LineOpsConcat(a: seq<nat>, b: seq<nat>)
    ensures LineOps(a + b) == LineOps(a) + LineOps(b)
  {
  }

  /** The line walk over `points` on a face of `n` landmarks. */
  function Trace(n: nat, points: seq<nat>): Drawn {
    Run(n, LineOps(points))
  }

  /** The position of the first point with no landmark, or `|points|`. */
  function FirstMissing(n: nat, points: seq<nat>): (k: nat)
    ensures k <= |points|
    ensures forall i :: 0 <= i < k ==> points[i] < n
    ensures k < |points| ==> points[k] >= n
  {
    if points == [] || points[0] >= n then 0 else 1 + FirstMissing(n, points[1..])
  }

  lemma FirstMissingIs(n: nat, points: seq<nat>, k: nat)
    requires k <= |points|
    requires forall i :: 0 <= i < k ==> points[i] < n
    requires k < |points| ==> points[k] >= n
    ensures FirstMissing(n, points) == k
  {
  }

  /** A trace extended by one point. */
  lemma TraceSnoc(n: nat, points: seq<nat>, last: nat)
    ensures Trace(n, points + [last]) == Then(Trace(n, points), Step(n, LineToLandmark(last)))
  {
    LineOpsConcat(points, [last]);
    RunConcat(n, LineOps(points), LineOps([last]));
    assert LineOps([last]) == [LineToLandmark(last)];
    RunOne(n, LineToLandmark(last));
  }

  /** A trace started at one more point in front. */
  lemma TraceCons(n: nat, p: nat, rest: seq<nat>)
    ensures Trace(n, [p] + rest) == Then(Step(n, LineToLandmark(p)), Trace(n, rest))
  {
    LineOpsConcat([p], rest);
    RunConcat(n, LineOps([p]), LineOps(rest));
    assert LineOps([p]) == [LineToLandmark(p)];
    RunOne(n, LineToLandmark(p));
  }

  /** A trace draws a line to every point before the first one with no
      landmark, and throws exactly when there is such a point. */
  lemma {:induction false} TraceStopsAtFirstMissing(n: nat, points: seq<nat>)
    ensures var k := FirstMissing(n, points);
      Trace(n, points) == Drawn(LineTos(points[..k]), k == |points|)
    decreases |points|
  {
    if points == [] {
      assert Steps(n, LineOps(points)) == [];
    } else {
      var p, rest := points[0], points[1..];
      assert [p] + rest == points;
      TraceCons(n, p, rest);
      if p < n {
        TraceStopsAtFirstMissing(n, rest);
        var k := FirstMissing(n, rest);
        assert points[..k + 1] == [p] + rest[..k];
        LineTosConcat([p], rest[..k]);
        assert LineTos([p]) == [LineTo(p)];
      } else {
        assert LineTos(points[..0]) == [];
      }
    }
  }

  /** A trace completes exactly when every point has a landmark, and then it
      draws one line to every point, in order. */
  lemma TraceComplete(n: nat, points: seq<nat>)
    ensures Trace(n, points).ok <==> AllBelow(points, n)
    ensures AllBelow(points, n) ==> Trace(n, points) == Emit(LineTos(points))
  {
    TraceStopsAtFirstMissing(n, points);
    if AllBelow(points, n) {
      FirstMissingIs(n, points, |points|);
      assert points[..|points|] == points;
    }
  }

  method TracePoints(ctx: Context, face: Face, points: seq<nat>) returns (ok: bool)
    modifies ctx
    ensures ctx.log == old(ctx.log) + Trace(|face|, points).cmds
    ensures ok == Trace(|face|, points).ok
  {
    var i := 0;
    while i < |points|
      invariant 0 <= i <= |points|
      invariant Trace(|face|, points[..i]).ok
      invariant ctx.log == old(ctx.log) + Trace(|face|, points[..i]).cmds
    {
      assert points[..i + 1] == points[..i] + [points[i]];
      TraceSnoc(|face|, points[..i], points[i]);
      if points[i] >= |face| {
        assert points == points[..i + 1] + points[i + 1..];
        LineOpsConcat(points[..i + 1], points[i + 1..]);
        RunConcat(|face|, LineOps(points[..i + 1]), LineOps(points[i + 1..]));
        return false;
      }
      ctx.Issue(LineTo(points[i]));
      i := i + 1;
    }
    assert points[..i] == points;
    return true;
  }

  // ---------------------------------------------------------------- drawShape

  const ShapeClose: seq<Command> := [ClosePath, SetFillStyle(ShapeFill), Fill, SetStrokeStyle(ShapeStroke), Stroke]

  /** `moveTo(landmarks[indices[0]])`; with no first index the point is undefined. */
  function MoveToFirst(indices: seq<nat>): Op {
    if |indices| > 0 then MoveToLandmark(indices[0]) else NoLandmark
  }

  /** The calls of `drawShape(landmarks, indices)`. */
  function ShapeOps(indices: seq<nat>): seq<Op> {
    [Draw(BeginPath), MoveToFirst(indices)] + LineOps(indices) + Draws(ShapeClose)
  }

  function ShapeCommands(n: nat, indices: seq<nat>): Drawn {
    Run(n, ShapeOps(indices))
  }

  /** The shape in stages: begin, move, the line walk, close and paint. */
  lemma ShapeStages(n: nat, indices: seq<nat>)
    ensures ShapeCommands(n, indices) ==
      Then(Then(Then(Emit([BeginPath]), Step(n, MoveToFirst(indices))), Trace(n, indices)), Emit(ShapeClose))
  {
    var head := [Draw(BeginPath), MoveToFirst(indices)];
    assert head == [Draw(BeginPath)] + [MoveToFirst(indices)];
    RunConcat(n, [Draw(BeginPath)], [MoveToFirst(indices)]);
    RunOne(n, Draw(BeginPath));
    RunOne(n, MoveToFirst(indices));
    RunConcat(n, head, LineOps(indices));
    RunConcat(n, head + LineOps(indices), Draws(ShapeClose));
    RunDraws(n, ShapeClose);
  }

  /** The shape completes exactly when `indices` is non-empty and every index names a landmark. */
  lemma ShapeOkIff(n: nat, indices: seq<nat>)
    ensures ShapeCommands(n, indices).ok <==> |indices| > 0 && AllBelow(indices, n)
  {
    ShapeStages(n, indices);
    TraceComplete(n, indices);
  }

  /** A well-formed shape is one closed, filled, stroked path: move to the first
      index, a line to every index in order (the first one again included), close. */
  lemma ShapeComplete(n: nat, indices: seq<nat>)
    requires |indices| > 0 && AllBelow(indices, n)
    ensures ShapeCommands(n, indices) == Drawn([BeginPath, MoveTo(indices[0])] + LineTos(indices) + ShapeClose, true)
    ensures ShapeCommands(n, indices).cmds[2] == LineTo(indices[0])
  {
    ShapeStages(n, indices);
    TraceComplete(n, indices);
  }

  /** A shape that throws leaves an open path behind: it never closes, fills or strokes. */
  lemma FailedShapeUnfilled(n: nat, indices: seq<nat>)
    requires !ShapeCommands(n, indices).ok
    ensures var cmds := ShapeCommands(n, indices).cmds;
      cmds != [] && cmds[0] == BeginPath && ClosePath !in cmds && Fill !in cmds && Stroke !in cmds
  {
    ShapeStages(n, indices);
    TraceStopsAtFirstMissing(n, indices);
    var k := FirstMissing(n, indices);
    var lines := LineTos(indices[..k]);
    assert forall c :: c in lines ==> c.LineTo?;
  }

  method DrawShape(ctx: Context, face: Face, indices: seq<nat>) returns (ok: bool)
    modifies ctx
    ensures ctx.log == old(ctx.log) + ShapeCommands(|face|, indices).cmds
    ensures ok == ShapeCommands(|face|, indices).ok
  {
    ghost var n := |face|;
    ShapeStages(n, indices);
    ctx.Issue(BeginPath);
    // `done` is what the shape has issued so far.
    ghost var done := Then(Emit([BeginPath]), Step(n, MoveToFirst(indices)));
    if |indices| == 0 || indices[0] >= |face| {
      return false;
    }
    ctx.Issue(MoveTo(indices[0]));
    assert ctx.log == old(ctx.log) + done.cmds;
    LogThen(old(ctx.log), done, Trace(n, indices));
    ok := TracePoints(ctx, face, indices);
    done := Then(done, Trace(n, indices));
    if !ok {
      return;
    }
    ghost var before := ctx.log;
    ctx.Issue(ClosePath);
    ctx.Issue(SetFillStyle(ShapeFill));
    ctx.Issue(Fill);
    ctx.Issue(SetStrokeStyle(ShapeStroke));
    ctx.Issue(Stroke);
    IssuedFive(before, ClosePath, SetFillStyle(ShapeFill), Fill, SetStrokeStyle(ShapeStroke), Stroke);
    LogThen(old(ctx.log), done, Emit(ShapeClose));
  }

  // ---------------------------------------------------------------- lips

  function LipClose(style: string): seq<Command> {
    [ClosePath, SetFillStyle(style), Fill]
  }

  /** One closed filled path: `first` then `second`, closed and filled with `style`. */
  function LipFillOps(first: seq<nat>, second: seq<nat>, style: string): seq<Op> {
    [Draw(BeginPath)] + LineOps(first) + LineOps(second) + Draws(LipClose(style))
  }

  /** One lip path on a face of `n` landmarks. */
  function LipFill(n: nat, first: seq<nat>, second: seq<nat>, style: string): Drawn {
    Run(n, LipFillOps(first, second, style))
  }

  /** What `fillLipsWithColor(landmarks, lips)` issues: the lower lip, then the upper. */
  function LipCommands(n: nat, lips: seq<Connection>): Drawn {
    Then(LipFill(n, LipPoints(lips, 0, 10, false), LipPoints(lips, 20, 30, true), LowerLipFill),
         LipFill(n, LipPoints(lips, 10, 20, false), LipPoints(lips, 30, 40, true), UpperLipFill))
  }

  lemma LipFillStages(n: nat, first: seq<nat>, second: seq<nat>, style: string)
    ensures LipFill(n, first, second, style) ==
      Then(Then(Then(Emit([BeginPath]), Trace(n, first)), Trace(n, second)), Emit(LipClose(style)))
  {
    RunOne(n, Draw(BeginPath));
    RunConcat(n, [Draw(BeginPath)], LineOps(first));
    RunConcat(n, [Draw(BeginPath)] + LineOps(first), LineOps(second));
    RunConcat(n, [Draw(BeginPath)] + LineOps(first) + LineOps(second), Draws(LipClose(style)));
    RunDraws(n, LipClose(style));
  }

  lemma AllBelowConcat(a: seq<nat>, b: seq<nat>, n: nat)
    ensures AllBelow(a + b, n) <==> AllBelow(a, n) && AllBelow(b, n)
  {
    if AllBelow(a, n) && AllBelow(b, n) {
      forall i | 0 <= i < |a + b| ensures (a + b)[i] < n {
        if i >= |a| { assert (a + b)[i] == b[i - |a|]; }
      }
    }
    if AllBelow(a + b, n) {
      forall i | 0 <= i < |a| ensures a[i] < n {
        assert (a + b)[i] == a[i];
      }
      forall i | 0 <= i < |b| ensures b[i] < n {
        assert (a + b)[|a| + i] == b[i];
      }
    }
  }

  /** One lip path completes exactly when its outline names landmarks only, and
      then it is a single closed filled path along the whole outline. */
  lemma LipFillComplete(n: nat, first: seq<nat>, second: seq<nat>, style: string)
    ensures LipFill(n, first, second, style).ok <==> AllBelow(first + second, n)
    ensures AllBelow(first + second, n) ==>
      LipFill(n, first, second, style) == Drawn([BeginPath] + LineTos(first + second) + LipClose(style), true)
  {
    LipFillStages(n, first, second, style);
    AllBelowConcat(first, second, n);
    TraceComplete(n, first);
    TraceComplete(n, second);
    LineTosConcat(first, second);
  }

  /** Two lip paths one after the other, for any outlines. */
  lemma LipPairComplete(n: nat, a: seq<nat>, b: seq<nat>, c: seq<nat>, d: seq<nat>)
    ensures Then(LipFill(n, a, b, LowerLipFill), LipFill(n, c, d, UpperLipFill)).ok <==>
      AllBelow(a + b, n) && AllBelow(c + d, n)
    ensures AllBelow(a + b, n) && AllBelow(c + d, n) ==>
      Then(LipFill(n, a, b, LowerLipFill), LipFill(n, c, d, UpperLipFill)) ==
      Drawn([BeginPath] + LineTos(a + b) + LipClose(LowerLipFill)
            + [BeginPath] + LineTos(c + d) + LipClose(UpperLipFill), true)
  {
    LipFillComplete(n, a, b, LowerLipFill);
    LipFillComplete(n, c, d, UpperLipFill);
  }

  /** The lip fill completes exactly when both outlines name landmarks only, and
      then it is two closed filled paths, one along each outline. */
  lemma LipsComplete(n: nat, lips: seq<Connection>)
    ensures LipCommands(n, lips).ok <==> AllBelow(LowerOutline(lips), n) && AllBelow(UpperOutline(lips), n)
    ensures AllBelow(LowerOutline(lips), n) && AllBelow(UpperOutline(lips), n) ==>
      LipCommands(n, lips) == Drawn([BeginPath] + LineTos(LowerOutline(lips)) + LipClose(LowerLipFill)
                                    + [BeginPath] + LineTos(UpperOutline(lips)) + LipClose(UpperLipFill), true)
  {
    var a, b := LipPoints(lips, 0, 10, false), LipPoints(lips, 20, 30, true);
    var c, d := LipPoints(lips, 10, 20, false), LipPoints(lips, 30, 40, true);
    assert LowerOutline(lips) == a + b && UpperOutline(lips) == c + d;
    LipPairComplete(n, a, b, c, d);
  }

  method DrawLip(ctx: Context, face: Face, lips: seq<Connection>, startIdx: nat, endIdx: nat, reverse: bool)
      returns (ok: bool)
    modifies ctx
    ensures ctx.log == old(ctx.log) + Trace(|face|, LipPoints(lips, startIdx, endIdx, reverse)).cmds
    ensures ok == Trace(|face|, LipPoints(lips, startIdx, endIdx, reverse)).ok
  {
    var points := LipPoints(lips, startIdx, endIdx, reverse);
    ok := TracePoints(ctx, face, points);
  }

  /** A lip path that throws in its first walk: the path was begun, nothing more. */
  lemma LipFillThrowsFirst(log: seq<Command>, n: nat, first: seq<nat>, second: seq<nat>, style: string)
    requires !Trace(n, first).ok
    ensures !LipFill(n, first, second, style).ok
    ensures log + [BeginPath] + Trace(n, first).cmds == log + LipFill(n, first, second, style).cmds
  {
    LipFillStages(n, first, second, style);
  }

  /** A lip path that throws in its second walk: begun and walked, never closed. */
  lemma LipFillThrowsSecond(log: seq<Command>, n: nat, first: seq<nat>, second: seq<nat>, style: string)
    requires Trace(n, first).ok && !Trace(n, second).ok
    ensures !LipFill(n, first, second, style).ok
    ensures log + [BeginPath] + Trace(n, first).cmds + Trace(n, second).cmds
         == log + LipFill(n, first, second, style).cmds
  {
    LipFillStages(n, first, second, style);
  }

  /** A lip path whose walks both complete: begun, walked, closed and filled. */
  lemma LipFillCloses(log: seq<Command>, n: nat, first: seq<nat>, second: seq<nat>, style: string)
    requires Trace(n, first).ok && Trace(n, second).ok
    ensures LipFill(n, first, second, style).ok
    ensures log + [BeginPath] + Trace(n, first).cmds + Trace(n, second).cmds + LipClose(style)
         == log + LipFill(n, first, second, style).cmds
  {
    LipFillStages(n, first, second, style);
  }

  /** One of the two blocks of `fillLipsWithColor`: begin a path, walk one
      window forward and another backward, close and fill with `style`. */
  method FillLip(ctx: Context, face: Face, lips: seq<Connection>, start1: nat, end1: nat, start2: nat, end2: nat,
                 style: string) returns (ok: bool)
    modifies ctx
    ensures var d := LipFill(|face|, LipPoints(lips, start1, end1, false), LipPoints(lips, start2, end2, true), style);
      ctx.log == old(ctx.log) + d.cmds && ok == d.ok
  {
    ghost var n := |face|;
    ghost var first, second := LipPoints(lips, start1, end1, false), LipPoints(lips, start2, end2, true);
    ctx.Issue(BeginPath);
    ok := DrawLip(ctx, face, lips, start1, end1, false);
    if !ok {
      LipFillThrowsFirst(old(ctx.log), n, first, second, style);
      return;
    }
    ok := DrawLip(ctx, face, lips, start2, end2, true);
    if !ok {
      LipFillThrowsSecond(old(ctx.log), n, first, second, style);
      return;
    }
    ghost var before := ctx.log;
    ctx.Issue(ClosePath);
    ctx.Issue(SetFillStyle(style));
    ctx.Issue(Fill);
    IssuedThree(before, ClosePath, SetFillStyle(style), Fill);
    LipFillCloses(old(ctx.log), n, first, second, style);
  }

  method FillLipsWithColor(ctx: Context, face: Face, lips: seq<Connection>) returns (ok: bool)
    modifies ctx
    ensures ctx.log == old(ctx.log) + LipCommands(|face|, lips).cmds
    ensures ok == LipCommands(|face|, lips).ok
  {
    ghost var n := |face|;
    ghost var lower := LipFill(n, LipPoints(lips, 0, 10, false), LipPoints(lips, 20, 30, true), LowerLipFill);
    ghost var upper := LipFill(n, LipPoints(lips, 10, 20, false), LipPoints(lips, 30, 40, true), UpperLipFill);
    ok := FillLip(ctx, face, lips, 0, 10, 20, 30, LowerLipFill);
    if !ok { return; }
    LogThen(old(ctx.log), lower, upper);
    ok := FillLip(ctx, face, lips, 10, 20, 30, 40, UpperLipFill);
  }

  // ---------------------------------------------------------------- numbers

  /** One `fillText(i)` at every landmark `i`, in index order. */
  function Labels(n: nat): seq<Command> {
    seq(n, i requires 0 <= i => FillText(i, i))
  }

  /** What `displayLandmarkNumbers(landmarks)` issues on a face of `n` landmarks. */
  function NumberCommands(n: nat): seq<Command> {
    [SetFont(LabelFont), SetFillStyle(LabelColor)] + Labels(n)
  }

  method DisplayLandmarkNumbers(ctx: Context, face: Face)
    modifies ctx
    ensures ctx.log == old(ctx.log) + NumberCommands(|face|)
  {
    ctx.Issue(SetFont(LabelFont));
    ctx.Issue(SetFillStyle(LabelColor));
    var i := 0;
    while i < |face|
      invariant 0 <= i <= |face|
      invariant ctx.log == old(ctx.log) + [SetFont(LabelFont), SetFillStyle(LabelColor)] + Labels(i)
    {
      ctx.Issue(FillText(i, i));
      assert Labels(i + 1) == Labels(i) + [FillText(i, i)];
      i := i + 1;
    }
  }

  // ---------------------------------------------------------------- one face

  /** What one iteration of the per-face loop issues on a face of `n`
      landmarks: connectors and numbers, the four polygons, the lips. */
  function FaceCommands(n: nat, lips: seq<Connection>): Drawn {
    Then(Then(Then(Then(Then(Emit(ConnectorCalls + NumberCommands(n)),
      ShapeCommands(n, Polygon1)), ShapeCommands(n, Polygon2)), ShapeCommands(n, Polygon3)),
      ShapeCommands(n, Polygon4)), LipCommands(n, lips))
  }

  lemma PolygonsBelow()
    ensures AllBelow(Polygon1, 451) && AllBelow(Polygon2, 451) && AllBelow(Polygon3, 451) && AllBelow(Polygon4, 451)
  {
  }

  /** A face renders without throwing exactly when it has more than 450
      landmarks (the largest polygon index is 450) and both lip outlines name
      landmarks only. */
  lemma FaceOkIff(n: nat, lips: seq<Connection>)
    ensures FaceCommands(n, lips).ok <==>
      n > 450 && AllBelow(LowerOutline(lips), n) && AllBelow(UpperOutline(lips), n)
  {
    ShapeOkIff(n, Polygon1);
    ShapeOkIff(n, Polygon2);
    ShapeOkIff(n, Polygon3);
    ShapeOkIff(n, Polygon4);
    LipsComplete(n, lips);
    PolygonsBelow();
    assert Polygon2[6] == 450;
  }

  /** Layering, back to front: connectors, numbers, the four polygons, the lips. */
  lemma FaceLayers(n: nat, lips: seq<Connection>)
    requires FaceCommands(n, lips).ok
    ensures FaceCommands(n, lips).cmds ==
      ConnectorCalls + NumberCommands(n)
      + ShapeCommands(n, Polygon1).cmds + ShapeCommands(n, Polygon2).cmds
      + ShapeCommands(n, Polygon3).cmds + ShapeCommands(n, Polygon4).cmds
      + LipCommands(n, lips).cmds
  {
  }

  lemma StagesKeepPrefix(a: Drawn, b: Drawn, c: Drawn, d: Drawn, e: Drawn, f: Drawn)
    ensures a.cmds <= Then(Then(Then(Then(Then(a, b), c), d), e), f).cmds
  {
    ThenKeepsPrefix(a, b);
    ThenKeepsPrefix(Then(a, b), c);
    ThenKeepsPrefix(Then(Then(a, b), c), d);
    ThenKeepsPrefix(Then(Then(Then(a, b), c), d), e);
    ThenKeepsPrefix(Then(Then(Then(Then(a, b), c), d), e), f);
  }

  /** A log that starts with the connectors and the numbers holds every landmark's number, in index order. */
  lemma LabelsAfterConnectors(cmds: seq<Command>, n: nat)
    requires ConnectorCalls + NumberCommands(n) <= cmds
    ensures |cmds| >= |ConnectorCalls| + 2 + n
    ensures forall i :: 0 <= i < n ==> cmds[|ConnectorCalls| + 2 + i] == FillText(i, i)
  {
    var pre := ConnectorCalls + [SetFont(LabelFont), SetFillStyle(LabelColor)];
    assert ConnectorCalls + NumberCommands(n) == pre + Labels(n);
    forall i | 0 <= i < n ensures cmds[|pre| + i] == FillText(i, i) {
      assert cmds[|pre| + i] == (pre + Labels(n))[|pre| + i] == Labels(n)[i];
    }
  }

  /** Every landmark gets its number, in index order, whatever happens later in the face. */
  lemma FaceLabelsEveryLandmark(n: nat, lips: seq<Connection>)
    ensures var cmds := FaceCommands(n, lips).cmds;
      |cmds| >= |ConnectorCalls| + 2 + n &&
      forall i :: 0 <= i < n ==> cmds[|ConnectorCalls| + 2 + i] == FillText(i, i)
  {
    StagesKeepPrefix(Emit(ConnectorCalls + NumberCommands(n)), ShapeCommands(n, Polygon1), ShapeCommands(n, Polygon2),
                     ShapeCommands(n, Polygon3), ShapeCommands(n, Polygon4), LipCommands(n, lips));
    LabelsAfterConnectors(FaceCommands(n, lips).cmds, n);
  }

  method RenderFace(ctx: Context, face: Face, lips: seq<Connection>) returns (ok: bool)
    modifies ctx
    ensures ctx.log == old(ctx.log) + FaceCommands(|face|, lips).cmds
    ensures ok == FaceCommands(|face|, lips).ok
  {
    ghost var n := |face|;
    ctx.Issue(Connectors(FaceOval, "#000000", Width(2)));
    ctx.Issue(Connectors(RightEye, "#FF3030", Width(0)));
    ctx.Issue(Connectors(RightEyebrow, "#FF3030", DefaultWidth));
    ctx.Issue(Connectors(LeftEye, "#30FF30", DefaultWidth));
    ctx.Issue(Connectors(LeftEyebrow, "#30FF30", DefaultWidth));
    ctx.Issue(Connectors(FaceOval, "#E0E0E0", DefaultWidth));
    ctx.Issue(Connectors(RightIris, "#FF3030", DefaultWidth));
    ctx.Issue(Connectors(LeftIris, "#000000", DefaultWidth));
    DisplayLandmarkNumbers(ctx, face);
    // `done` is what the face has issued so far.
    ghost var done := Emit(ConnectorCalls + NumberCommands(n));
    assert ctx.log == old(ctx.log) + done.cmds;
    LogThen(old(ctx.log), done, ShapeCommands(n, Polygon1));
    ok := DrawShape(ctx, face, Polygon1);
    done := Then(done, ShapeCommands(n, Polygon1));
    if !ok { return; }
    LogThen(old(ctx.log), done, ShapeCommands(n, Polygon2));
    ok := DrawShape(ctx, face, Polygon2);
    done := Then(done, ShapeCommands(n, Polygon2));
    if !ok { return; }
    LogThen(old(ctx.log), done, ShapeCommands(n, Polygon3));
    ok := DrawShape(ctx, face, Polygon3);
    done := Then(done, ShapeCommands(n, Polygon3));
    if !ok { return; }
    LogThen(old(ctx.log), done, ShapeCommands(n, Polygon4));
    ok := DrawShape(ctx, face, Polygon4);
    done := Then(done, ShapeCommands(n, Polygon4));
    if !ok { return; }
    LogThen(old(ctx.log), done, LipCommands(n, lips));
    ok := FillLipsWithColor(ctx, face, lips);
  }

  // ---------------------------------------------------------------- all faces

  /** One rendering per face, in detection order. */
  function FaceRuns(faces: seq<Face>, lips: seq<Connection>): seq<Drawn> {
    seq(|faces|, i requires 0 <= i < |faces| => FaceCommands(|faces[i]|, lips))
  }

  /** What the loop over `results.faceLandmarks` issues: a face that throws ends it. */
  function FacesCommands(faces: seq<Face>, lips: seq<Connection>): Drawn {
    Chain(FaceRuns(faces, lips))
  }

  /** With no face nothing is drawn. */
  lemma NoFacesNoDrawing(lips: seq<Connection>)
    ensures FacesCommands([], lips) == Drawn([], true)
  {
  }

  /** The loop completes exactly when every face does. */
  lemma FacesOkIff(faces: seq<Face>, lips: seq<Connection>)
    ensures FacesCommands(faces, lips).ok <==> forall i :: 0 <= i < |faces| ==> FaceCommands(|faces[i]|, lips).ok
  {
    var runs := FaceRuns(faces, lips);
    ChainOk(runs);
    forall i | 0 <= i < |faces| ensures runs[i].ok == FaceCommands(|faces[i]|, lips).ok {
    }
  }

  /** A face that throws ends the frame: the faces after it draw nothing. */
  lemma ThrowEndsFrame(faces: seq<Face>, lips: seq<Connection>, j: nat)
    requires j <= |faces|
    requires !FacesCommands(faces[..j], lips).ok
    ensures FacesCommands(faces, lips) == FacesCommands(faces[..j], lips)
  {
    assert FaceRuns(faces[..j], lips) == FaceRuns(faces, lips)[..j];
    ChainThrowStops(FaceRuns(faces, lips), j);
  }

  /** A face with 450 landmarks or fewer, the empty face included, makes the
      polygons read a missing landmark: the face throws and the frame ends
      without completing. */
  lemma SparseFaceEndsFrame(faces: seq<Face>, lips: seq<Connection>, j: nat)
    requires j < |faces| && |faces[j]| <= 450
    ensures !FaceCommands(|faces[j]|, lips).ok
    ensures !FacesCommands(faces, lips).ok
  {
    FaceOkIff(|faces[j]|, lips);
    FacesOkIff(faces, lips);
  }

  /** With the detector's full mesh (more than 450 landmarks per face) and a lip
      table whose outlines name landmarks only, every frame renders to its end. */
  lemma FullMeshRenders(faces: seq<Face>, lips: seq<Connection>)
    requires forall i :: 0 <= i < |faces| ==>
      |faces[i]| > 450 && AllBelow(LowerOutline(lips), |faces[i]|) && AllBelow(UpperOutline(lips), |faces[i]|)
    ensures FacesCommands(faces, lips).ok
  {
    forall i | 0 <= i < |faces| ensures FaceCommands(|faces[i]|, lips).ok {
      FaceOkIff(|faces[i]|, lips);
    }
    FacesOkIff(faces, lips);
  }

  method RenderFaces(ctx: Context, faces: seq<Face>, lips: seq<Connection>) returns (ok: bool)
    modifies ctx
    ensures ctx.log == old(ctx.log) + FacesCommands(faces, lips).cmds
    ensures ok == FacesCommands(faces, lips).ok
  {
    ghost var runs := FaceRuns(faces, lips);
    var i := 0;
    while i < |faces|
      invariant 0 <= i <= |faces|
      invariant Chain(runs[..i]).ok
      invariant ctx.log == old(ctx.log) + Chain(runs[..i]).cmds
    {
      ghost var before, face := Chain(runs[..i]), FaceCommands(|faces[i]|, lips);
      assert runs[i] == face;
      ChainNext(runs, i);
      LogThen(old(ctx.log), before, face);
      ok := RenderFace(ctx, faces[i], lips);
      if !ok {
        ChainThrowStops(runs, i + 1);
        return;
      }
      i := i + 1;
    }
    assert runs[..i] == runs;
    return true;
  }
}
