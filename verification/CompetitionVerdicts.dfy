/** How a competition is judged: what a score names, when it is taken, and the exact record that
    the last score or the stored output of the evaluator leaves behind. */
module CompetitionVerdicts {
  import opened Basics
  import opened Budget
  import opened Competition
  import opened CompetitionRuns

  // ---------------------------------------------------------------- what a score names

  /** The alias of the k-th candidate, counted from zero. */
  predicate IsAlias(id: Id, k: nat) { id == Alias(k + 1) }

  lemma {:induction false} NotAnAlias(candidates: seq<Envelope>, id: Id)
    requires forall k: nat :: k < |candidates| ==> !IsAlias(id, k)
    ensures Unalias(candidates, id).None?
  {
    if candidates != [] {
      var n := |candidates| - 1;
      assert !IsAlias(id, n);
      NotAnAlias(candidates[..n], id);
    }
  }

  /** A blind evaluator's alias stands for the candidate in its place; every other name, and every
      name in an open competition, stands for itself. */
  lemma DecodingMeans(r: Record, id: Id)
    ensures !r.brief.blind ==> Decode(r, id) == id
    ensures r.brief.blind ==> forall k: nat :: k < |r.candidates| && IsAlias(id, k) ==> Decode(r, id) == r.candidates[k].agent
    ensures (forall k: nat :: k < |r.candidates| ==> !IsAlias(id, k)) ==> Decode(r, id) == id
  {
    forall k: nat | k < |r.candidates| && IsAlias(id, k) ensures Unalias(r.candidates, id) == Some(r.candidates[k].agent) {
      UnaliasDecodes(r.candidates, k);
    }
    if forall k: nat :: k < |r.candidates| ==> !IsAlias(id, k) { NotAnAlias(r.candidates, id); }
  }

  /** The stored scores can be applied exactly when each names a candidate and no two name the same. */
  predicate NamesEachOnce(r: Record, raw: seq<Score>) {
    && (forall i :: 0 <= i < |raw| ==> exists k :: 0 <= k < |r.candidates| && r.candidates[k].agent == Decode(r, raw[i].agent))
    && (forall i, j :: 0 <= i < j < |raw| ==> Decode(r, raw[i].agent) != Decode(r, raw[j].agent))
  }

  function Decoded(r: Record, raw: seq<Score>): seq<Score> {
    seq(|raw|, i requires 0 <= i < |raw| => raw[i].(agent := Decode(r, raw[i].agent)))
  }

  lemma NamesOneMore(r: Record, raw: seq<Score>, n: nat)
    requires |raw| == n + 1
    ensures NamesEachOnce(r, raw) <==>
      NamesEachOnce(r, raw[..n]) && HasCandidate(r.candidates, Decode(r, raw[n].agent)) && !HasScore(Decoded(r, raw[..n]), Decode(r, raw[n].agent))
  {
    var front, scores := raw[..n], Decoded(r, raw[..n]);
    assert forall i :: 0 <= i < n ==> front[i] == raw[i] && scores[i].agent == Decode(r, raw[i].agent);
  }

  lemma {:induction false} DecodesExactly(r: Record, raw: seq<Score>)
    ensures DecodeScores(r, raw).Some? <==> NamesEachOnce(r, raw)
    ensures DecodeScores(r, raw).Some? ==> DecodeScores(r, raw).value == Decoded(r, raw)
  {
    if raw != [] {
      var n := |raw| - 1;
      DecodesExactly(r, raw[..n]);
      NamesOneMore(r, raw, n);
    }
  }

  // ---------------------------------------------------------------- the verdict

  predicate WithinCost(r: Record) { match r.brief.maxCost case Some(max) => r.totalCost <= max case None => true }

  /** The record the final scores leave: complete exactly when the field is full and affordable, and
      selecting the first accepted score of maximal value exactly when the cost is. */
  ghost predicate Verdict(r: Record, next: Record, scores: seq<Score>, full: bool) {
    && next == r.(scores := scores, status := next.status, selected := next.selected)
    && next.status == (if full && WithinCost(r) then Finished else Partial)
    && (if WithinCost(r) && exists i :: 0 <= i < |scores| && scores[i].accepted
        then exists i: nat :: BestAt(scores, i) && next.selected == Some(scores[i].agent)
        else next.selected == r.selected)
  }

  lemma ConcludesByVerdict(r: Record, scores: seq<Score>, full: bool)
    ensures Verdict(r, Conclude(r, scores, full), scores, full)
  {
    var i := BestIsFirstMaximum(scores);
    if Best(scores).Some? { assert BestAt(scores, i) && scores[i].accepted; }
  }

  // ---------------------------------------------------------------- one score at a time

  /** The score names the k-th candidate: by its alias when the evaluator is blind. */
  predicate Names(r: Record, id: Id, k: nat) {
    k < |r.candidates| && if r.brief.blind then IsAlias(id, k) else id == r.candidates[k].agent
  }

  lemma NamedIsHeld(r: Record, id: Id)
    ensures var actual := if r.brief.blind then Unalias(r.candidates, id) else Some(id);
      && (forall k: nat :: Names(r, id, k) ==> actual == Some(r.candidates[k].agent) && HasCandidate(r.candidates, r.candidates[k].agent))
      && (actual.Some? && HasCandidate(r.candidates, actual.value) ==> exists k: nat :: Names(r, id, k))
  {
    forall k: nat | Names(r, id, k)
      ensures (if r.brief.blind then Unalias(r.candidates, id) else Some(id)) == Some(r.candidates[k].agent)
    {
      if r.brief.blind { UnaliasDecodes(r.candidates, k); }
    }
    if r.brief.blind {
      if !exists k: nat :: Names(r, id, k) {
        forall k: nat | k < |r.candidates| ensures !IsAlias(id, k) { assert !Names(r, id, k); }
        NotAnAlias(r.candidates, id);
      }
    } else if HasCandidate(r.candidates, id) {
      var k: nat :| k < |r.candidates| && r.candidates[k].agent == id;
      assert Names(r, id, k);
    }
  }

  predicate Scoring(r: Record, agent: Id) {
    && r.status.Evaluating? && r.evaluatorAgent == Some(agent)
    && (r.brief.budget.Some? ==> r.evaluator.Some? && r.evaluator.value.state.Completed?)
  }

  predicate NotScored(r: Record, agent: Id) { forall i :: 0 <= i < |r.scores| ==> r.scores[i].agent != agent }

  ghost predicate TakesScore(r: Record, next: Record, k: nat, score: Score)
    requires k < |r.candidates|
  {
    var scores := r.scores + [score.(agent := r.candidates[k].agent)];
    if |scores| < |r.candidates| then next == r.(scores := scores)
    else Verdict(r, next, scores, |r.candidates| == |r.brief.participants|)
  }

  /** A score is taken exactly from the evaluator of an affordable evaluation, for a candidate it names
      that has none yet. It is stored under the candidate's own agent, and the last one concludes. */
  lemma ScoreTakenExactly(r: Record, agent: Id, score: Score)
    ensures var answer := SubmitScoreIn(r, agent, score);
      && (answer.Ok? <==> Scoring(r, agent) && Fits(r.brief.budget, Calls(r), false)
                          && exists k: nat :: Names(r, score.agent, k) && NotScored(r, r.candidates[k].agent))
      && (answer.Ok? ==> forall k: nat :: Names(r, score.agent, k) ==> TakesScore(r, answer.value, k, score))
  {
    NamedIsHeld(r, score.agent);
    if Scoring(r, agent) && Fits(r.brief.budget, Calls(r), false) && exists k: nat :: Names(r, score.agent, k) {
      var k: nat :| Names(r, score.agent, k);
      ConcludesByVerdict(r, r.scores + [score.(agent := r.candidates[k].agent)], |r.candidates| == |r.brief.participants|);
    }
  }

  // ---------------------------------------------------------------- the stored output

  /** Finishing applies the stored output of a completed evaluation. When the calls have overrun the
      budget, or a score names nobody or somebody twice, the record fails without a selection. */
  lemma FinishesExactly(r: Record)
    ensures var next := FinishIn(r);
      if !r.status.Evaluating? || r.evaluator.None? || !r.evaluator.value.state.Completed? then next == r
      else
        var raw := r.evaluator.value.scores;
        if Fits(r.brief.budget, Calls(r), false) && NamesEachOnce(r, raw)
        then && |next.scores| == |raw| && (forall i :: 0 <= i < |raw| ==> next.scores[i] == raw[i].(agent := Decode(r, raw[i].agent)))
             && Verdict(r, next, next.scores, |r.candidates| == |r.brief.participants| && |raw| == |r.candidates|)
        else next == r.(status := Broken, selected := None)
  {
    if r.evaluator.Some? {
      var raw := r.evaluator.value.scores;
      DecodesExactly(r, raw);
      if DecodeScores(r, raw).Some? {
        var scores := DecodeScores(r, raw).value;
        ConcludesByVerdict(r, scores, FullField(r) && |scores| == |r.candidates|);
      }
    }
  }

  /** The evaluator's failure ends the competition; an unknown outcome leaves it evaluating. */
  lemma FailureEndsUnlessUnknown(r: Record, attemptId: Id, unknown: bool, error: string)
    ensures var next := EvaluatorFailedIn(r, attemptId, unknown, error);
      if r.evaluator.Some? && r.evaluator.value.id == attemptId && r.evaluator.value.state.Started?
      then && next == r.(evaluator := next.evaluator, status := next.status) && next.evaluator.Some?
           && next.evaluator.value == r.evaluator.value.(state := next.evaluator.value.state, error := Some(error))
           && (if unknown then next.status == r.status && next.evaluator.value.state.Unknown?
               else next.status.Broken? && next.evaluator.value.state.Failed?)
      else next == r
  {}

  /** Failing and finalizing a record by hand leave a failed and a partial one, otherwise as it was. */
  lemma EndingByHandKeepsTheRest(r: Record)
    ensures FailIn(r).status.Broken? && FinalizePartialIn(r).status.Partial?
    ensures FailIn(r).(status := r.status) == r && FinalizePartialIn(r).(status := r.status) == r
  {}
}
