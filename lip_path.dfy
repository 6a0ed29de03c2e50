/** The point list of the lip fill: a window of the lip connection table,
    flattened to its endpoints and, for the second half of each outline,
    reversed. */
module LipPath {
  /** One entry of a landmark connection table. */
  datatype Connection = Connection(start: nat, end: nat)

  /** An array index as JavaScript's `slice` clamps it (non-negative argument). */
  function Clamp(i: nat, len: nat): nat {
    if i < len then i else len
  }

  /** `s.slice(start, end)` for non-negative arguments. */
  function Slice<T>(s: seq<T>, start: nat, end: nat): seq<T> {
    var lo, hi := Clamp(start, |s|), Clamp(end, |s|);
    if lo < hi then s[lo..hi] else []
  }

  /** `flatMap(c => [c.start, c.end])`. */
  function Endpoints(cs: seq<Connection>): (r: seq<nat>)
    ensures |r| == 2 * |cs|
    ensures forall i :: 0 <= i < |cs| ==> r[2 * i] == cs[i].start && r[2 * i + 1] == cs[i].end
  {
    if cs == [] then [] else Endpoints(cs[..|cs| - 1]) + [cs[|cs| - 1].start, cs[|cs| - 1].end]
  }

  /** Array.prototype.reverse, on values. */
  function Reverse<T>(s: seq<T>): (r: seq<T>)
    ensures |r| == |s|
    ensures forall i :: 0 <= i < |s| ==> r[i] == s[|s| - 1 - i]
  {
    if s == [] then [] else [s[|s| - 1]] + Reverse(s[..|s| - 1])
  }

  lemma {:induction false} ReverseReverse<T>(s: seq<T>)
    ensures Reverse(Reverse(s)) == s
  {
    var r := Reverse(s);
    assert forall i :: 0 <= i < |s| ==> Reverse(r)[i] == r[|s| - 1 - i] == s[i];
  }

  /** The points `drawLip(startIdx, endIdx, reverse)` walks. */
  function LipPoints(lips: seq<Connection>, startIdx: nat, endIdx: nat, reverse: bool): seq<nat> {
    var points := Endpoints(Slice(lips, startIdx, endIdx));
    if reverse then Reverse(points) else points
  }

  /** The clamped window has `hi - lo` entries, or none when the bounds cross. */
  lemma SliceLength<T>(s: seq<T>, start: nat, end: nat)
    ensures var lo, hi := Clamp(start, |s|), Clamp(end, |s|);
      |Slice(s, start, end)| == if lo < hi then hi - lo else 0
  {
  }

  /** A lip walk has two points per entry of the clamped window, each entry
      giving its start and then its end; walked in reverse, the same points come
      in the opposite order. */
  lemma LipPointsWalk(lips: seq<Connection>, startIdx: nat, endIdx: nat, reverse: bool)
    ensures var lo, hi := Clamp(startIdx, |lips|), Clamp(endIdx, |lips|);
      |LipPoints(lips, startIdx, endIdx, reverse)| == if lo < hi then 2 * (hi - lo) else 0
    ensures var r, w := LipPoints(lips, startIdx, endIdx, reverse), Slice(lips, startIdx, endIdx);
      forall i :: 0 <= i < |w| ==>
        if reverse then r[|r| - 1 - 2 * i] == w[i].start && r[|r| - 2 - 2 * i] == w[i].end
        else r[2 * i] == w[i].start && r[2 * i + 1] == w[i].end
  {
    var w := Slice(lips, startIdx, endIdx);
    SliceLength(lips, startIdx, endIdx);
    var points := Endpoints(w);
    if reverse {
      var r := Reverse(points);
      forall i | 0 <= i < |w|
        ensures r[|r| - 1 - 2 * i] == w[i].start && r[|r| - 2 - 2 * i] == w[i].end
      {
        assert r[|r| - 1 - 2 * i] == points[2 * i];
        assert r[|r| - 2 - 2 * i] == points[2 * i + 1];
      }
    }
  }

  /** Reversing a reversed window walks it forward again. */
  lemma ReversedWindowRestores(lips: seq<Connection>, startIdx: nat, endIdx: nat)
    ensures Reverse(LipPoints(lips, startIdx, endIdx, true)) == LipPoints(lips, startIdx, endIdx, false)
  {
    ReverseReverse(Endpoints(Slice(lips, startIdx, endIdx)));
  }

  /** The outline of the lower lip: window 0..10 forward, then window 20..30 backward. */
  function LowerOutline(lips: seq<Connection>): seq<nat> {
    LipPoints(lips, 0, 10, false) + LipPoints(lips, 20, 30, true)
  }

  /** The outline of the upper lip: window 10..20 forward, then window 30..40 backward. */
  function UpperOutline(lips: seq<Connection>): seq<nat> {
    LipPoints(lips, 10, 20, false) + LipPoints(lips, 30, 40, true)
  }

  /** A full ten-entry window walked forward. */
  lemma ForwardWindow(lips: seq<Connection>, s: nat)
    requires s + 10 <= |lips|
    ensures var p := LipPoints(lips, s, s + 10, false);
      |p| == 20 && forall i :: 0 <= i < 10 ==> p[2 * i] == lips[s + i].start && p[2 * i + 1] == lips[s + i].end
  {
    LipPointsWalk(lips, s, s + 10, false);
    var p, w := LipPoints(lips, s, s + 10, false), Slice(lips, s, s + 10);
    assert w == lips[s..s + 10];
    forall i | 0 <= i < 10 ensures p[2 * i] == lips[s + i].start && p[2 * i + 1] == lips[s + i].end {
      assert w[i] == lips[s + i];
    }
  }

  /** A full ten-entry window walked backward. */
  lemma BackwardWindow(lips: seq<Connection>, s: nat)
    requires s + 10 <= |lips|
    ensures var p := LipPoints(lips, s, s + 10, true);
      |p| == 20 && forall i :: 0 <= i < 10 ==> p[19 - 2 * i] == lips[s + i].start && p[18 - 2 * i] == lips[s + i].end
  {
    LipPointsWalk(lips, s, s + 10, true);
    var p, w := LipPoints(lips, s, s + 10, true), Slice(lips, s, s + 10);
    assert w == lips[s..s + 10];
    assert |p| == 20;
    forall i | 0 <= i < 10 ensures p[19 - 2 * i] == lips[s + i].start && p[18 - 2 * i] == lips[s + i].end {
      assert w[i] == lips[s + i];
      assert p[|p| - 1 - 2 * i] == w[i].start;
    }
  }

  /** One lip outline from a full table: window `s` forward, then window `s + 20` backward. */
  lemma FullOutline(lips: seq<Connection>, s: nat)
    requires s + 30 <= |lips|
    ensures var o := LipPoints(lips, s, s + 10, false) + LipPoints(lips, s + 20, s + 30, true);
      |o| == 40 &&
      forall i :: 0 <= i < 10 ==>
        o[2 * i] == lips[s + i].start && o[2 * i + 1] == lips[s + i].end &&
        o[39 - 2 * i] == lips[s + 20 + i].start && o[38 - 2 * i] == lips[s + 20 + i].end
  {
    var a, b := LipPoints(lips, s, s + 10, false), LipPoints(lips, s + 20, s + 30, true);
    ForwardWindow(lips, s);
    BackwardWindow(lips, s + 20);
    forall i | 0 <= i < 10
      ensures (a + b)[2 * i] == a[2 * i] && (a + b)[2 * i + 1] == a[2 * i + 1]
      ensures (a + b)[39 - 2 * i] == b[19 - 2 * i] && (a + b)[38 - 2 * i] == b[18 - 2 * i]
    {
    }
  }

  /** With at least 30 table entries the lower outline has 40 points: it walks
      entries 0..9 forward, start then end, and comes back along entries
      20..29, ending at the start of entry 20. */
  lemma LowerOutlineWalk(lips: seq<Connection>)
    requires |lips| >= 30
    ensures var o := LowerOutline(lips);
      |o| == 40 &&
      forall i :: 0 <= i < 10 ==>
        o[2 * i] == lips[i].start && o[2 * i + 1] == lips[i].end &&
        o[39 - 2 * i] == lips[20 + i].start && o[38 - 2 * i] == lips[20 + i].end
  {
    FullOutline(lips, 0);
  }

  /** With the full 40-entry table the upper outline has 40 points: entries
      10..19 forward, then entries 30..39 backward. */
  lemma UpperOutlineWalk(lips: seq<Connection>)
    requires |lips| >= 40
    ensures var o := UpperOutline(lips);
      |o| == 40 &&
      forall i :: 0 <= i < 10 ==>
        o[2 * i] == lips[10 + i].start && o[2 * i + 1] == lips[10 + i].end &&
        o[39 - 2 * i] == lips[30 + i].start && o[38 - 2 * i] == lips[30 + i].end
  {
    FullOutline(lips, 10);
  }
}
