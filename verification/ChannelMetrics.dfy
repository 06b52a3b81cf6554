/** The parallel-use sweep of src/channel-metrics.ts: a coordinate-compressed sweep equals a
    pointwise count of instants. Spans are half-open and instants are integers. */
module ChannelMetrics {
  import opened Basics

  datatype Span = Span(agent: Id, start: Time, end: Time)

  predicate Covers(s: Span, t: Time) { s.start <= t < s.end }

  // ---------------------------------------------------------------- the pointwise measure

  function AgentsAt(spans: seq<Span>, t: Time): set<Id> {
    set i | 0 <= i < |spans| && Covers(spans[i], t) :: spans[i].agent
  }

  predicate Busy(spans: seq<Span>, minimum: nat, t: Time) { |AgentsAt(spans, t)| >= minimum }

  /** How many instants of [from, till) at least `minimum` distinct agents cover. */
  function Measure(spans: seq<Span>, minimum: nat, from: Time, till: Time): nat
    decreases till - from
  {
    if till <= from then 0
    else Measure(spans, minimum, from, till - 1) + (if Busy(spans, minimum, till - 1) then 1 else 0)
  }

  lemma {:induction false} MeasureCountsInstants(spans: seq<Span>, minimum: nat, from: Time, till: Time)
    ensures Measure(spans, minimum, from, till) == |set t | from <= t < till && Busy(spans, minimum, t)|
    decreases till - from
  {
    var here := set t | from <= t < till && Busy(spans, minimum, t);
    if till <= from {
      assert here == {};
    } else {
      MeasureCountsInstants(spans, minimum, from, till - 1);
      var before := set t | from <= t < till - 1 && Busy(spans, minimum, t);
      assert here == before + (if Busy(spans, minimum, till - 1) then {till - 1} else {});
    }
  }

  lemma {:induction false} MeasureSplits(spans: seq<Span>, minimum: nat, from: Time, mid: Time, till: Time)
    requires from <= mid <= till
    ensures Measure(spans, minimum, from, till) == Measure(spans, minimum, from, mid) + Measure(spans, minimum, mid, till)
    decreases till - mid
  {
    if mid < till { MeasureSplits(spans, minimum, from, mid, till - 1); }
  }

  lemma {:induction false} MeasureUnderConstant(spans: seq<Span>, minimum: nat, from: Time, till: Time, busy: bool)
    requires from <= till && forall t :: from <= t < till ==> (Busy(spans, minimum, t) <==> busy)
    ensures Measure(spans, minimum, from, till) == if busy then till - from else 0
    decreases till - from
  {
    if from < till {
      assert Busy(spans, minimum, till - 1) <==> busy;
      MeasureUnderConstant(spans, minimum, from, till - 1, busy);
    }
  }

  lemma {:induction false} MeasureAgrees(a: seq<Span>, b: seq<Span>, minimum: nat, from: Time, till: Time)
    requires forall t :: from <= t < till ==> AgentsAt(a, t) == AgentsAt(b, t)
    ensures Measure(a, minimum, from, till) == Measure(b, minimum, from, till)
    decreases till - from
  {
    if from < till {
      assert AgentsAt(a, till - 1) == AgentsAt(b, till - 1);
      MeasureAgrees(a, b, minimum, from, till - 1);
    }
  }

  // ---------------------------------------------------------------- sorted distinct endpoints

  predicate Increasing(points: seq<Time>) { forall i, j :: 0 <= i < j < |points| ==> points[i] < points[j] }

  function Insert(points: seq<Time>, x: Time): (r: seq<Time>)
    requires Increasing(points)
    ensures Increasing(r) && forall y :: y in r <==> y in points || y == x
  {
    if points == [] then [x]
    else
      var n := |points| - 1;
      assert points == points[..n] + [points[n]];
      if points[n] < x then points + [x]
      else if points[n] == x then points
      else
        var rest := Insert(points[..n], x);
        assert forall i :: 0 <= i < |rest| ==> rest[i] in rest;
        rest + [points[n]]
  }

  predicate IsEndpoint(spans: seq<Span>, x: Time) {
    exists i :: 0 <= i < |spans| && (spans[i].start == x || spans[i].end == x)
  }

  function Points(spans: seq<Span>): (r: seq<Time>)
    ensures Increasing(r) && forall x :: x in r <==> IsEndpoint(spans, x)
  {
    if spans == [] then []
    else
      var n := |spans| - 1;
      assert spans == spans[..n] + [spans[n]];
      Insert(Insert(Points(spans[..n]), spans[n].start), spans[n].end)
  }

  // ---------------------------------------------------------------- the sweep

  function AgentsAcross(spans: seq<Span>, start: Time, end: Time): set<Id> {
    set i | 0 <= i < |spans| && spans[i].start <= start && spans[i].end >= end :: spans[i].agent
  }

  lemma NothingBetween(points: seq<Time>, k: nat, x: Time)
    requires Increasing(points) && k + 1 < |points| && x in points
    ensures x <= points[k] || points[k + 1] <= x
  {
    var a :| 0 <= a < |points| && points[a] == x;
  }

  /** Between two neighbouring endpoints nobody starts or stops. */
  lemma NeighboursAreConstant(spans: seq<Span>, k: nat, t: Time)
    requires k + 1 < |Points(spans)| && Points(spans)[k] <= t < Points(spans)[k + 1]
    ensures AgentsAt(spans, t) == AgentsAcross(spans, Points(spans)[k], Points(spans)[k + 1])
  {
    var points := Points(spans);
    var p, q := points[k], points[k + 1];
    forall i | 0 <= i < |spans|
      ensures Covers(spans[i], t) <==> spans[i].start <= p && spans[i].end >= q
    {
      assert IsEndpoint(spans, spans[i].start) && IsEndpoint(spans, spans[i].end);
      NothingBetween(points, k, spans[i].start);
      NothingBetween(points, k, spans[i].end);
    }
  }

  /** All endpoints lie in [from, till]. */
  predicate Bounds(spans: seq<Span>, from: Time, till: Time) {
    from <= till && forall i :: 0 <= i < |spans| ==> from <= spans[i].start <= till && from <= spans[i].end <= till
  }

  lemma OutsideIsIdle(spans: seq<Span>, minimum: nat, from: Time, till: Time)
    requires from <= till && minimum >= 1 && forall t :: from <= t < till ==> AgentsAt(spans, t) == {}
    ensures Measure(spans, minimum, from, till) == 0
  {
    MeasureUnderConstant(spans, minimum, from, till, false);
  }

  /** The sweep's total from the first to the last endpoint is the measure of any enclosing window. */
  lemma WidenWindow(spans: seq<Span>, minimum: nat, from: Time, till: Time)
    requires Bounds(spans, from, till) && minimum >= 1
    ensures var points := Points(spans);
      Measure(spans, minimum, from, till) == (if points == [] then 0 else Measure(spans, minimum, points[0], points[|points| - 1]))
  {
    var points := Points(spans);
    if spans != [] { assert IsEndpoint(spans, spans[0].start); }
    if points == [] {
      OutsideIsIdle(spans, minimum, from, till);
    } else {
      var first, last := points[0], points[|points| - 1];
      assert IsEndpoint(spans, first) && IsEndpoint(spans, last);
      forall i | 0 <= i < |spans| ensures first <= spans[i].start && spans[i].end <= last {
        assert IsEndpoint(spans, spans[i].start) && IsEndpoint(spans, spans[i].end);
      }
      MeasureSplits(spans, minimum, from, first, till);
      MeasureSplits(spans, minimum, first, last, till);
      OutsideIsIdle(spans, minimum, from, first);
      OutsideIsIdle(spans, minimum, last, till);
    }
  }

  method OverlapOfDistinct(spans: seq<Span>, minimum: nat) returns (total: nat)
    ensures var points := Points(spans);
      total == (if points == [] then 0 else Measure(spans, minimum, points[0], points[|points| - 1]))
    ensures minimum >= 1 ==>
      forall from, till :: Bounds(spans, from, till) ==> total == Measure(spans, minimum, from, till)
  {
    var points := Points(spans);
    total := 0;
    var index := 0;
    while index + 1 < |points|
      invariant 0 <= index && (points == [] ==> index == 0) && (points != [] ==> index < |points|)
      invariant total == if points == [] then 0 else Measure(spans, minimum, points[0], points[index])
    {
      var start, end := points[index], points[index + 1];
      var agents := AgentsAcross(spans, start, end);
      forall t | start <= t < end ensures Busy(spans, minimum, t) <==> |agents| >= minimum {
        NeighboursAreConstant(spans, index, t);
      }
      MeasureUnderConstant(spans, minimum, start, end, |agents| >= minimum);
      MeasureSplits(spans, minimum, points[0], start, end);
      if |agents| >= minimum { total := total + (end - start); }
      index := index + 1;
    }
    if minimum >= 1 {
      forall from, till | Bounds(spans, from, till) ensures total == Measure(spans, minimum, from, till) {
        WidenWindow(spans, minimum, from, till);
      }
    }
  }

  // ---------------------------------------------------------------- clipping to the window

  function Clip(spans: seq<Span>, from: Time, till: Time): seq<Span> {
    if spans == [] then []
    else
      var s := spans[|spans| - 1];
      var clipped := Span(s.agent, Max(s.start, from), Min(s.end, till));
      Clip(spans[..|spans| - 1], from, till) + (if clipped.end > clipped.start then [clipped] else [])
  }

  lemma {:induction false} ClipKeepsTheWindow(spans: seq<Span>, from: Time, till: Time)
    ensures from <= till ==> Bounds(Clip(spans, from, till), from, till)
    ensures forall t :: from <= t < till ==> AgentsAt(Clip(spans, from, till), t) == AgentsAt(spans, t)
  {
    if spans != [] {
      var n := |spans| - 1;
      ClipKeepsTheWindow(spans[..n], from, till);
      var clipped := Span(spans[n].agent, Max(spans[n].start, from), Min(spans[n].end, till));
      var front := Clip(spans[..n], from, till);
      forall t | from <= t < till ensures AgentsAt(Clip(spans, from, till), t) == AgentsAt(spans, t) {
        LastAgent(spans[..n], spans[n], t);
        LastAgent(front, clipped, t);
        assert spans == spans[..n] + [spans[n]];
        assert AgentsAt(front, t) == AgentsAt(spans[..n], t);
        assert Covers(clipped, t) <==> Covers(spans[n], t);
        if clipped.end <= clipped.start { assert front + [] == front; }
      }
    }
  }

  lemma LastAgent(spans: seq<Span>, s: Span, t: Time)
    ensures AgentsAt(spans + [s], t) == AgentsAt(spans, t) + (if Covers(s, t) then {s.agent} else {})
  {
    var all := spans + [s];
    forall a | a in AgentsAt(spans, t) ensures a in AgentsAt(all, t) {
      var i :| 0 <= i < |spans| && Covers(spans[i], t) && spans[i].agent == a;
      assert all[i] == spans[i];
    }
    if Covers(s, t) { assert all[|spans|] == s; }
  }

  lemma {:induction false} EmptyWindowClipsAll(spans: seq<Span>, from: Time, till: Time)
    requires till <= from
    ensures Clip(spans, from, till) == []
  {
    if spans != [] { EmptyWindowClipsAll(spans[..|spans| - 1], from, till); }
  }

  /** The time during which at least `minimum` different agents were executing in [from, till). */
  method ParallelTime(spans: seq<Span>, minimum: nat, from: Time, till: Time) returns (total: nat)
    requires minimum >= 1
    ensures total == |set t | from <= t < till && |AgentsAt(spans, t)| >= minimum|
    ensures total <= Max(0, till - from)
  {
    var clipped: seq<Span> := [];
    for i := 0 to |spans|
      invariant clipped == Clip(spans[..i], from, till)
    {
      assert spans[..i + 1][..i] == spans[..i];
      var c := Span(spans[i].agent, Max(spans[i].start, from), Min(spans[i].end, till));
      if c.end > c.start { clipped := clipped + [c]; }
    }
    assert spans[..|spans|] == spans;
    total := OverlapOfDistinct(clipped, minimum);
    assert total == Measure(spans, minimum, from, till) by {
      if till <= from {
        EmptyWindowClipsAll(spans, from, till);
      } else {
        ClipKeepsTheWindow(spans, from, till);
        MeasureAgrees(clipped, spans, minimum, from, till);
      }
    }
    MeasureCountsInstants(spans, minimum, from, till);
    assert (set t | from <= t < till && Busy(spans, minimum, t)) == (set t | from <= t < till && |AgentsAt(spans, t)| >= minimum);
    MeasureIsBounded(spans, minimum, from, till);
  }

  lemma {:induction false} MeasureIsBounded(spans: seq<Span>, minimum: nat, from: Time, till: Time)
    ensures Measure(spans, minimum, from, till) <= Max(0, till - from)
    decreases till - from
  {
    if from < till { MeasureIsBounded(spans, minimum, from, till - 1); }
  }
}
