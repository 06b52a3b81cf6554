/** The course of one undisturbed run of a competition: how far a caller that nobody comes
    between gets, and what it leaves behind. */
module CompetitionCourse {
  import opened Basics
  import opened Budget
  import opened Competition
  import opened CompetitionRuns
  import opened CompetitionVerdicts

  /** The budget, if any, limits nothing but the number of calls. */
  predicate OnlyCalls(budget: Option<Limits>) {
    budget.Some? ==> budget.value.tokens.None? && budget.value.money.None?
  }

  /** The budget allows so many calls. */
  predicate Allows(budget: Option<Limits>, calls: nat) {
    budget.Some? && budget.value.calls.Some? ==> calls <= budget.value.calls.value
  }

  /** Every participant's reply is its own and bound, and no attempt id comes twice. */
  ghost predicate Answering(brief: Brief, ids: seq<Id>, replies: seq<Envelope>) {
    && |ids| == |replies| == |brief.participants| && NoDuplicates(ids) && NoDuplicates(brief.participants)
    && forall i :: 0 <= i < |replies| ==> replies[i].agent == brief.participants[i] && BoundTo(brief, replies[i])
  }

  const READ: Reply := CallError(false, "")

  /** A caller reads, reserves, and takes a reply for each of the first n participants. */
  function Course(c: nat, judge: Id, ids: seq<Id>, replies: seq<Envelope>, n: nat): seq<Event>
    requires n <= |ids| == |replies|
  {
    if n == 0 then [Spawn(c, judge)] + [Advance(c, "", READ)] + [Advance(c, "", READ)]
    else Course(c, judge, ids, replies, n - 1) + [Advance(c, "", READ)] + [Advance(c, ids[n - 1], READ)] + [Advance(c, "", Candidate(replies[n - 1]))]
  }

  function Completions(brief: Brief, ids: seq<Id>, replies: seq<Envelope>, n: nat): seq<Attempt>
    requires n <= |ids| == |replies| == |brief.participants|
  {
    seq(n, i requires 0 <= i < n => Attempt(ids[i], brief.participants[i], Completed, None, Some(replies[i]), None))
  }

  /** The world once the first n participants have answered. */
  function Answered(w: World, c: nat, judge: Id, ids: seq<Id>, replies: seq<Envelope>, n: nat): World
    requires n <= |ids| == |replies| == |w.record.brief.participants|
  {
    w.(record := w.record.(status := Running, candidates := replies[..n], totalCost := Cost(replies[..n]),
                           attempts := Completions(w.record.brief, ids, replies, n)),
       callers := w.callers[c := Looping(judge, n)], ran := w.ran + w.record.brief.participants[..n])
  }

  lemma CallsSoFar(w: World, c: nat, judge: Id, ids: seq<Id>, replies: seq<Envelope>, n: nat, admitting: bool)
    requires New(w.record) && Answering(w.record.brief, ids, replies) && n <= |ids| && OnlyCalls(w.record.brief.budget)
    ensures var calls := Calls(Answered(w, c, judge, ids, replies, n).record);
      Fits(w.record.brief.budget, calls, admitting) <==> Allows(w.record.brief.budget, if admitting then n + 1 else n)
  {}

  /** The n-th participant's attempt has started and its runner is called. */
  function CallingNext(w: World, c: nat, judge: Id, ids: seq<Id>, replies: seq<Envelope>, n: nat): World
    requires n < |ids| == |replies| == |w.record.brief.participants|
  {
    var last, p := Answered(w, c, judge, ids, replies, n), w.record.brief.participants[n];
    last.(record := last.record.(attempts := last.record.attempts + [Attempt(ids[n], p, Started, None, None, None)]),
          ran := last.ran + [p], callers := w.callers[c := Calling(judge, n, ids[n])])
  }

  lemma NextIsCalled(w: World, c: nat, judge: Id, ids: seq<Id>, replies: seq<Envelope>, n: nat)
    requires New(w.record) && Answering(w.record.brief, ids, replies) && n < |ids|
    requires OnlyCalls(w.record.brief.budget) && Allows(w.record.brief.budget, n + 1)
    ensures var before := Answered(w, c, judge, ids, replies, n);
      Next(Next(before, Advance(c, "", READ)), Advance(c, ids[n], READ)) == CallingNext(w, c, judge, ids, replies, n)
  {
    var before := Answered(w, c, judge, ids, replies, n);
    var r, p := before.record, w.record.brief.participants[n];
    CallsSoFar(w, c, judge, ids, replies, n, true);
    assert !HasCandidate(r.candidates, p) && !HasAttempt(r.attempts, p) && !AnyWaiting(r.attempts);
    assert Next(before, Advance(c, "", READ)) == before.(callers := before.callers[c := Reserving(judge, n)]);
  }

  lemma OneAnswer(w: World, c: nat, judge: Id, ids: seq<Id>, replies: seq<Envelope>, n: nat)
    requires New(w.record) && Answering(w.record.brief, ids, replies) && n < |ids|
    requires OnlyCalls(w.record.brief.budget) && Allows(w.record.brief.budget, n + 1)
    ensures Round(Answered(w, c, judge, ids, replies, n), c, ids[n], replies[n]) == Answered(w, c, judge, ids, replies, n + 1)
  {
    NextIsCalled(w, c, judge, ids, replies, n);
    AnswerSettles(w, c, judge, ids, replies, n);
    var participants := w.record.brief.participants;
    assert w.ran + participants[..n] + [participants[n]] == w.ran + participants[..n + 1];
  }

  lemma AttemptCompletes(w: World, c: nat, judge: Id, ids: seq<Id>, replies: seq<Envelope>, n: nat)
    requires New(w.record) && Answering(w.record.brief, ids, replies) && n < |ids|
    ensures var started := Completions(w.record.brief, ids, replies, n) + [Attempt(ids[n], w.record.brief.participants[n], Started, None, None, None)];
      && AttemptIndex(started, ids[n]) == n
      && started[n := started[n].(state := Completed, result := Some(replies[n]))] == Completions(w.record.brief, ids, replies, n + 1)
  {
    var started := Completions(w.record.brief, ids, replies, n) + [Attempt(ids[n], w.record.brief.participants[n], Started, None, None, None)];
    assert forall i :: 0 <= i < n ==> started[i].id == ids[i];
  }

  lemma CandidateIsAdded(w: World, c: nat, judge: Id, ids: seq<Id>, replies: seq<Envelope>, n: nat)
    requires New(w.record) && Answering(w.record.brief, ids, replies) && n < |ids|
    ensures replies[..n] + [replies[n]] == replies[..n + 1] && !HasCandidate(replies[..n], replies[n].agent)
  {
    assert forall i :: 0 <= i < n ==> replies[..n][i].agent == w.record.brief.participants[i];
  }

  lemma AnswerSettles(w: World, c: nat, judge: Id, ids: seq<Id>, replies: seq<Envelope>, n: nat)
    requires New(w.record) && Answering(w.record.brief, ids, replies) && n < |ids|
    requires OnlyCalls(w.record.brief.budget) && Allows(w.record.brief.budget, n + 1)
    ensures var r := Answered(w, c, judge, ids, replies, n).record;
      var started := r.attempts + [Attempt(ids[n], w.record.brief.participants[n], Started, None, None, None)];
      SettleIn(r.(attempts := started), ids[n], replies[n]) == Answered(w, c, judge, ids, replies, n + 1).record
  {
    var r, next := Answered(w, c, judge, ids, replies, n).record, Answered(w, c, judge, ids, replies, n + 1).record;
    AttemptCompletes(w, c, judge, ids, replies, n);
    CandidateIsAdded(w, c, judge, ids, replies, n);
    CallsSoFar(w, c, judge, ids, replies, n + 1, false);
    assert Calls(r.(attempts := next.attempts)) == Calls(next);
  }

  lemma ThreeMore(w: World, events: seq<Event>, a: Event, b: Event, d: Event)
    ensures Run(w, events + [a] + [b] + [d]) == Next(Next(Next(Run(w, events), a), b), d)
  {
    RunExtends(w, events, a);
    RunExtends(w, events + [a], b);
    RunExtends(w, events + [a] + [b], d);
  }

  /** What one round does to the world. */
  ghost function Round(w: World, c: nat, attemptId: Id, reply: Envelope): World {
    Next(Next(Next(w, Advance(c, "", READ)), Advance(c, attemptId, READ)), Advance(c, "", Candidate(reply)))
  }

  /** The world after the first n rounds. */
  ghost function Rounds(w: World, c: nat, judge: Id, ids: seq<Id>, replies: seq<Envelope>, n: nat): World
    requires n <= |ids| == |replies|
  {
    if n == 0 then Next(Next(Next(w, Spawn(c, judge)), Advance(c, "", READ)), Advance(c, "", READ))
    else Round(Rounds(w, c, judge, ids, replies, n - 1), c, ids[n - 1], replies[n - 1])
  }

  lemma {:induction false} CourseIsRounds(w: World, c: nat, judge: Id, ids: seq<Id>, replies: seq<Envelope>, n: nat)
    requires n <= |ids| == |replies|
    ensures Run(w, Course(c, judge, ids, replies, n)) == Rounds(w, c, judge, ids, replies, n)
  {
    if n == 0 {
      ThreeMore(w, [], Spawn(c, judge), Advance(c, "", READ), Advance(c, "", READ));
      assert [] + [Spawn(c, judge)] == [Spawn(c, judge)];
    } else {
      var m := n - 1;
      CourseIsRounds(w, c, judge, ids, replies, m);
      ThreeMore(w, Course(c, judge, ids, replies, m), Advance(c, "", READ), Advance(c, ids[m], READ), Advance(c, "", Candidate(replies[m])));
    }
  }

  lemma BeginsLooping(w: World, c: nat, judge: Id, ids: seq<Id>, replies: seq<Envelope>)
    requires New(w.record) && c !in w.callers && judge !in w.record.brief.participants && Answering(w.record.brief, ids, replies)
    ensures Rounds(w, c, judge, ids, replies, 0) == Answered(w, c, judge, ids, replies, 0)
  {
    var spawned := Next(w, Spawn(c, judge));
    assert Next(spawned, Advance(c, "", READ)) == w.(callers := w.callers[c := Begun(judge)]);
    assert w.ran + w.record.brief.participants[..0] == w.ran;
  }

  lemma OneMoreAnswers(w: World, c: nat, judge: Id, ids: seq<Id>, replies: seq<Envelope>, n: nat, before: World)
    requires New(w.record) && Answering(w.record.brief, ids, replies) && 0 < n <= |ids|
    requires OnlyCalls(w.record.brief.budget) && Allows(w.record.brief.budget, n)
    requires before == Answered(w, c, judge, ids, replies, n - 1)
    ensures Round(before, c, ids[n - 1], replies[n - 1]) == Answered(w, c, judge, ids, replies, n)
  {
    OneAnswer(w, c, judge, ids, replies, n - 1);
  }

  /** While the budget allows it, each round calls the next participant and adds its candidate. */
  lemma {:induction false} CourseAnswers(w: World, c: nat, judge: Id, ids: seq<Id>, replies: seq<Envelope>, n: nat)
    requires New(w.record) && c !in w.callers && judge !in w.record.brief.participants && Answering(w.record.brief, ids, replies)
    requires n <= |ids| && OnlyCalls(w.record.brief.budget) && Allows(w.record.brief.budget, n)
    ensures Rounds(w, c, judge, ids, replies, n) == Answered(w, c, judge, ids, replies, n)
  {
    if n == 0 {
      BeginsLooping(w, c, judge, ids, replies);
      return;
    }
    CourseAnswers(w, c, judge, ids, replies, n - 1);
    OneMoreAnswers(w, c, judge, ids, replies, n, Rounds(w, c, judge, ids, replies, n - 1));
  }

  // ---------------------------------------------------------------- a budget that runs out

  /** The budget ran out after n calls: the record failed with the candidates it has. */
  function Stopped(w: World, c: nat, judge: Id, ids: seq<Id>, replies: seq<Envelope>, n: nat): World
    requires n <= |ids| == |replies| == |w.record.brief.participants|
  {
    var last := Answered(w, c, judge, ids, replies, n);
    last.(record := last.record.(status := Broken), callers := w.callers[c := Done])
  }

  /** A caller that finds no room left, or nothing to judge, fails the record and is done. */
  lemma StopsThere(w: World, c: nat, judge: Id, ids: seq<Id>, replies: seq<Envelope>, n: nat, freshId: Id)
    requires New(w.record) && Answering(w.record.brief, ids, replies) && n <= |ids|
    requires OnlyCalls(w.record.brief.budget) && !Allows(w.record.brief.budget, n + 1)
    ensures var last := Answered(w, c, judge, ids, replies, n);
      Next(Next(last, Advance(c, "", READ)), Advance(c, freshId, READ)) == Stopped(w, c, judge, ids, replies, n)
  {
    var last := Answered(w, c, judge, ids, replies, n);
    var r := last.record;
    CallsSoFar(w, c, judge, ids, replies, n, true);
    assert !AnyWaiting(r.attempts);
    if n < |ids| { assert !HasCandidate(r.candidates, r.brief.participants[n]) && !GivenUp(r.attempts, r.brief.participants[n]); }
    assert Next(last, Advance(c, "", READ)) == last.(callers := last.callers[c := Failing]);
  }

  lemma DoneStays(w: World, c: nat, freshId: Id, reply: Reply)
    requires c in w.callers && w.callers[c].Done?
    ensures Next(w, Advance(c, freshId, reply)) == w
  {
    assert w.callers[c := Done] == w.callers;
  }

  lemma RoundStops(w: World, c: nat, judge: Id, ids: seq<Id>, replies: seq<Envelope>, n: nat)
    requires New(w.record) && Answering(w.record.brief, ids, replies) && n < |ids|
    requires OnlyCalls(w.record.brief.budget) && !Allows(w.record.brief.budget, n + 1)
    ensures Round(Answered(w, c, judge, ids, replies, n), c, ids[n], replies[n]) == Stopped(w, c, judge, ids, replies, n)
  {
    StopsThere(w, c, judge, ids, replies, n, ids[n]);
    DoneStays(Stopped(w, c, judge, ids, replies, n), c, "", Candidate(replies[n]));
  }

  lemma RoundStays(w: World, c: nat, freshId: Id, e: Envelope)
    requires c in w.callers && w.callers[c].Done?
    ensures Round(w, c, freshId, e) == w
  {
    DoneStays(w, c, "", READ);
    DoneStays(w, c, freshId, READ);
    DoneStays(w, c, "", Candidate(e));
  }

  lemma CourseStopsFirst(w: World, c: nat, judge: Id, ids: seq<Id>, replies: seq<Envelope>, stop: nat)
    requires New(w.record) && c !in w.callers && judge !in w.record.brief.participants && Answering(w.record.brief, ids, replies)
    requires OnlyCalls(w.record.brief.budget) && Allows(w.record.brief.budget, stop) && !Allows(w.record.brief.budget, stop + 1)
    requires stop < |ids|
    ensures Rounds(w, c, judge, ids, replies, stop + 1) == Stopped(w, c, judge, ids, replies, stop)
  {
    CourseAnswers(w, c, judge, ids, replies, stop);
    RoundStops(w, c, judge, ids, replies, stop);
  }

  lemma {:induction false} CourseStops(w: World, c: nat, judge: Id, ids: seq<Id>, replies: seq<Envelope>, stop: nat, n: nat)
    requires New(w.record) && c !in w.callers && judge !in w.record.brief.participants && Answering(w.record.brief, ids, replies)
    requires OnlyCalls(w.record.brief.budget) && Allows(w.record.brief.budget, stop) && !Allows(w.record.brief.budget, stop + 1)
    requires stop < n <= |ids|
    ensures Rounds(w, c, judge, ids, replies, n) == Stopped(w, c, judge, ids, replies, stop)
  {
    if n == stop + 1 {
      CourseStopsFirst(w, c, judge, ids, replies, stop);
      return;
    }
    var m := n - 1;
    assert Rounds(w, c, judge, ids, replies, n) == Round(Rounds(w, c, judge, ids, replies, m), c, ids[m], replies[m]);
    CourseStops(w, c, judge, ids, replies, stop, m);
    RoundStays(Stopped(w, c, judge, ids, replies, stop), c, ids[m], replies[m]);
  }

  // ---------------------------------------------------------------- the judge

  /** The whole course: all participants, then the evaluator's reservation, reply and scores. */
  function WholeCourse(c: nat, judge: Id, ids: seq<Id>, replies: seq<Envelope>, judgeId: Id, raw: seq<Score>): seq<Event>
    requires |ids| == |replies|
  {
    Course(c, judge, ids, replies, |ids|) + [Advance(c, "", READ)] + [Advance(c, judgeId, READ)] + [Advance(c, "", Scores(raw))] + [Advance(c, "", READ)]
  }

  /** Everybody answered and the evaluator's output is stored. */
  function ReadyToFinish(w: World, c: nat, judge: Id, ids: seq<Id>, replies: seq<Envelope>, judgeId: Id, raw: seq<Score>): World
    requires |ids| == |replies| == |w.record.brief.participants|
  {
    var last := Answered(w, c, judge, ids, replies, |ids|);
    last.(record := last.record.(status := Evaluating, evaluatorAgent := Some(judge),
                                 evaluator := Some(EvaluatorAttempt(judgeId, Completed, None, raw, None))),
          callers := w.callers[c := Finishing], judged := w.judged + [replies])
  }

  lemma JudgeAnswers(w: World, c: nat, judge: Id, ids: seq<Id>, replies: seq<Envelope>, judgeId: Id, raw: seq<Score>)
    requires New(w.record) && Answering(w.record.brief, ids, replies) && ids != []
    requires OnlyCalls(w.record.brief.budget) && Allows(w.record.brief.budget, |ids| + 1)
    ensures var last := Answered(w, c, judge, ids, replies, |ids|);
      var reserving := Next(last, Advance(c, "", READ));
      var calling := Next(reserving, Advance(c, judgeId, READ));
      Next(calling, Advance(c, "", Scores(raw))) == ReadyToFinish(w, c, judge, ids, replies, judgeId, raw)
  {
    var last := Answered(w, c, judge, ids, replies, |ids|);
    CallsSoFar(w, c, judge, ids, replies, |ids|, true);
    assert !AnyWaiting(last.record.attempts) && replies[..|ids|] == replies;
    var reserving := Next(last, Advance(c, "", READ));
    assert reserving == last.(callers := last.callers[c := ReservingEvaluator(judge, replies)]);
    var calling := Next(reserving, Advance(c, judgeId, READ));
    assert calling.callers[c] == CallingEvaluator(judge, judgeId, replies);
  }

  /** One run that nobody comes between, in which every participant and the evaluator answer. When the
      budget allows a call for each of them and one for the evaluator, everybody is called once and in order,
      the evaluator sees every reply, and the stored scores give the verdict, so the competition
      is finished exactly when they name every candidate once and the cost is within its limit. Otherwise the
      participants called are as many as the budget allows, and the competition fails. */
  lemma UndisturbedRunFinishesIff(w: World, c: nat, judge: Id, ids: seq<Id>, replies: seq<Envelope>, judgeId: Id, raw: seq<Score>)
    requires New(w.record) && c !in w.callers && judge !in w.record.brief.participants && Answering(w.record.brief, ids, replies) && ids != []
    requires OnlyCalls(w.record.brief.budget)
    ensures var next, brief := Run(w, WholeCourse(c, judge, ids, replies, judgeId, raw)), w.record.brief;
      var ready := ReadyToFinish(w, c, judge, ids, replies, judgeId, raw).record;
      && next.callers == w.callers[c := Done]
      && (Allows(brief.budget, |ids| + 1) ==>
            && next.ran == w.ran + brief.participants && next.judged == w.judged + [replies] && next.record.candidates == replies
            && (if NamesEachOnce(ready, raw)
                then Verdict(ready, next.record, Decoded(ready, raw), |raw| == |ids|)
                else next.record == ready.(status := Broken, selected := None)))
      && (!Allows(brief.budget, |ids| + 1) ==>
            && next.record.status.Broken? && next.judged == w.judged
            && brief.budget.value.calls.value <= |ids|
            && next.ran == w.ran + brief.participants[..brief.budget.value.calls.value]
            && next.record.candidates == replies[..brief.budget.value.calls.value])
      && (next.record.status.Finished? <==>
            Allows(brief.budget, |ids| + 1) && WithinCost(ready) && NamesEachOnce(ready, raw) && |raw| == |ids|)
  {
    var course := Course(c, judge, ids, replies, |ids|);
    CourseIsRounds(w, c, judge, ids, replies, |ids|);
    ThreeMore(w, course, Advance(c, "", READ), Advance(c, judgeId, READ), Advance(c, "", Scores(raw)));
    RunExtends(w, course + [Advance(c, "", READ)] + [Advance(c, judgeId, READ)] + [Advance(c, "", Scores(raw))], Advance(c, "", READ));
    if Allows(w.record.brief.budget, |ids| + 1) {
      CourseAnswers(w, c, judge, ids, replies, |ids|);
      JudgeAnswers(w, c, judge, ids, replies, judgeId, raw);
      JudgedByVerdict(w, c, judge, ids, replies, judgeId, raw);
      VerdictOfOutput(w, c, judge, ids, replies, judgeId, raw);
    } else {
      var stop := w.record.brief.budget.value.calls.value;
      var stopped := Stopped(w, c, judge, ids, replies, stop);
      if stop < |ids| {
        CourseStops(w, c, judge, ids, replies, stop, |ids|);
        DoneStays(stopped, c, "", READ);
        DoneStays(stopped, c, judgeId, READ);
      } else {
        CourseAnswers(w, c, judge, ids, replies, |ids|);
        StopsThere(w, c, judge, ids, replies, |ids|, judgeId);
      }
      DoneStays(stopped, c, "", Scores(raw));
      DoneStays(stopped, c, "", READ);
    }
  }

  lemma OutputFits(w: World, c: nat, judge: Id, ids: seq<Id>, replies: seq<Envelope>, judgeId: Id, raw: seq<Score>)
    requires New(w.record) && Answering(w.record.brief, ids, replies)
    requires OnlyCalls(w.record.brief.budget) && Allows(w.record.brief.budget, |ids| + 1)
    ensures var r := ReadyToFinish(w, c, judge, ids, replies, judgeId, raw).record; Fits(r.brief.budget, Calls(r), false)
  {
    CallsSoFar(w, c, judge, ids, replies, |ids|, false);
  }

  lemma VerdictOfOutput(w: World, c: nat, judge: Id, ids: seq<Id>, replies: seq<Envelope>, judgeId: Id, raw: seq<Score>)
    requires New(w.record) && Answering(w.record.brief, ids, replies)
    requires OnlyCalls(w.record.brief.budget) && Allows(w.record.brief.budget, |ids| + 1)
    ensures var ready := ReadyToFinish(w, c, judge, ids, replies, judgeId, raw).record; var next := FinishIn(ready);
      && next.candidates == replies
      && (if NamesEachOnce(ready, raw) then Verdict(ready, next, Decoded(ready, raw), |raw| == |ids|)
          else next == ready.(status := Broken, selected := None))
  {
    var ready := ReadyToFinish(w, c, judge, ids, replies, judgeId, raw).record;
    OutputFits(w, c, judge, ids, replies, judgeId, raw);
    FinishesExactly(ready);
    assert replies[..|ids|] == replies;
    if NamesEachOnce(ready, raw) { assert FinishIn(ready).scores == Decoded(ready, raw); }
  }

  lemma JudgedByVerdict(w: World, c: nat, judge: Id, ids: seq<Id>, replies: seq<Envelope>, judgeId: Id, raw: seq<Score>)
    requires New(w.record) && Answering(w.record.brief, ids, replies)
    ensures var ready := ReadyToFinish(w, c, judge, ids, replies, judgeId, raw);
      && Next(ready, Advance(c, "", READ)) == ready.(record := FinishIn(ready.record), callers := w.callers[c := Done])
      && ready.ran == w.ran + w.record.brief.participants
  {
    assert w.record.brief.participants[..|ids|] == w.record.brief.participants;
  }
}
