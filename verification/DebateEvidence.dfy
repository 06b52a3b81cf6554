/** The evidence of a debate, from what a message cites to what a closing may publish. */
module DebateEvidence {
  import opened Basics
  import opened Budget
  import opened Debate
  import opened DebateRuns
  import opened DebateService
  import opened DebateServiceRuns

  // ---------------------------------------------------------------- what supports a message

  /** A claim of the Context Pack, evidence of one of its claims, or one of its artifacts. */
  predicate PackHas(context: Option<ContextPack>, ref: Id) {
    match context
    case None => false
    case Some(pack) =>
      || ref in pack.artifactRefs
      || exists i :: 0 <= i < |pack.claims| && (pack.claims[i].id == ref || ref in pack.claims[i].evidenceRefs)
  }

  ghost predicate FirstIn(refs: seq<Id>, k: nat, x: Id) { k < |refs| && refs[k] == x && forall l :: 0 <= l < k ==> refs[l] != x }

  /** The elements of `some` come in the order in which they first occur in `refs`. */
  ghost predicate InOrderOf(some: seq<Id>, refs: seq<Id>) {
    forall i, j, k: nat, l: nat {:trigger FirstIn(refs, k, some[i]), FirstIn(refs, l, some[j])} ::
      0 <= i < j < |some| && FirstIn(refs, k, some[i]) && FirstIn(refs, l, some[j]) ==> k < l
  }

  lemma {:induction false} DistinctKeepsOrder(refs: seq<Id>)
    ensures InOrderOf(Distinct(refs), refs)
  {
    if refs != [] {
      var n := |refs| - 1;
      var front := refs[..n];
      DistinctKeepsOrder(front);
      DistinctKeepsMembers(front);
      forall i, j, k: nat, l: nat | 0 <= i < j < |Distinct(refs)| && FirstIn(refs, k, Distinct(refs)[i]) && FirstIn(refs, l, Distinct(refs)[j])
        ensures k < l
      {
        FirstInFront(refs, n, k, Distinct(refs)[i]);
        FirstInFront(refs, n, l, Distinct(refs)[j]);
      }
    }
  }

  lemma FirstInFront(refs: seq<Id>, n: nat, k: nat, x: Id)
    requires n <= |refs| && FirstIn(refs, k, x)
    ensures k < n ==> FirstIn(refs[..n], k, x)
    ensures x in refs[..n] ==> k < n
  {
    if x in refs[..n] {
      var j :| 0 <= j < n && refs[..n][j] == x;
      assert refs[j] == x;
    }
  }

  ghost predicate Selects(some: seq<Id>, refs: seq<Id>, i: nat, k: nat) { i < |some| && k < |refs| && some[i] == refs[k] }

  /** The selected references are a subsequence. */
  lemma {:induction false} SelectingKeepsOrder(room: Room, refs: seq<Id>, i: nat, j: nat) returns (k: nat, l: nat)
    requires i < j < |SelectSupporting(room, refs)|
    ensures k < l && Selects(SelectSupporting(room, refs), refs, i, k) && Selects(SelectSupporting(room, refs), refs, j, l)
  {
    var n := |refs| - 1;
    var front := SelectSupporting(room, refs[..n]);
    if j < |front| {
      k, l := SelectingKeepsOrder(room, refs[..n], i, j);
    } else {
      k := SelectedIsThere(room, refs[..n], i);
      l := n;
    }
  }

  lemma {:induction false} SelectedIsThere(room: Room, refs: seq<Id>, i: nat) returns (k: nat)
    requires i < |SelectSupporting(room, refs)|
    ensures Selects(SelectSupporting(room, refs), refs, i, k)
  {
    var n := |refs| - 1;
    if i < |SelectSupporting(room, refs[..n])| { k := SelectedIsThere(room, refs[..n], i); } else { k := n; }
  }

  /** What supports a message is, each once and in the order of first citation, exactly what it cites
      from the Context Pack. */
  lemma SupportIsWhatItCites(room: Room, m: Message)
    ensures forall x :: x in SupportRefs(room, m) <==> x in m.claimRefs && PackHas(room.context, x)
    ensures NoDuplicates(SupportRefs(room, m)) && InOrderOf(SupportRefs(room, m), m.claimRefs)
  {
    SupportedHasEvidence(room, m);
    assert forall x :: InContext(room.context, x) <==> PackHas(room.context, x);
    var before, refs := RoomBefore(room, m.messageId), Distinct(m.claimRefs);
    var some := SelectSupporting(before, refs);
    DistinctKeepsMembers(m.claimRefs);
    DistinctKeepsOrder(m.claimRefs);
    forall i, j | 0 <= i < j < |some| ensures some[i] != some[j] { var a, b := SelectingKeepsOrder(before, refs, i, j); }
    forall i, j, k: nat, l: nat | 0 <= i < j < |some| && FirstIn(m.claimRefs, k, some[i]) && FirstIn(m.claimRefs, l, some[j]) ensures k < l {
      var a, b := SelectingKeepsOrder(before, refs, i, j);
      assert FirstIn(m.claimRefs, k, refs[a]) && FirstIn(m.claimRefs, l, refs[b]);
    }
  }

  // ---------------------------------------------------------------- closing

  /** No review of the message speaks against it. */
  ghost predicate Unopposed(reviews: seq<Review>, id: Id) {
    forall k :: 0 <= k < |reviews| && reviews[k].messageId == id ==>
      reviews[k].status.Accepted? && reviews[k].violations == [] && reviews[k].missing == []
  }

  /** Nonempty, and everything in it is cited by the message from the Context Pack. */
  predicate EvidenceFits(room: Room, m: Message, refs: seq<Id>) {
    refs != [] && forall k :: 0 <= k < |refs| ==> refs[k] in m.claimRefs && PackHas(room.context, refs[k])
  }

  /** The closing adjudicator is the pinned one, and the pinned Moderator accepted the message. */
  ghost predicate RolesAgree(r: Record, a: Adjudication, id: Id) {
    r.roles.Some? ==>
      && (r.roles.value.adjudicator.Some? ==> a.adjudicator == r.roles.value.adjudicator)
      && (r.roles.value.moderator.Some? ==>
            exists k :: 0 <= k < |r.room.reviews| && r.room.reviews[k].messageId == id
              && r.room.reviews[k].reviewer == r.roles.value.moderator.value && r.room.reviews[k].status.Accepted?)
  }

  ghost predicate AllSettled(r: Record) { forall k :: 0 <= k < |r.attempts| ==> r.attempts[k].state.Completed? }

  lemma CitesExactly(room: Room, m: Message, refs: seq<Id>)
    ensures Cites(room, m, refs) <==> EvidenceFits(room, m, refs)
  {
    SupportIsWhatItCites(room, m);
  }

  /** A decided adjudication of message i closes an open debate exactly when the calls fit the budget
      and are settled, the message is a decision that passed moderation when it was said and that no
      review opposes, the evidence is some of what it cites from the Context Pack, and the pinned
      roles agree. */
  lemma DecidedClosingExactly(r: Record, a: Adjudication, now: Time, i: nat)
    requires Recorded(r.room) && a.status.Decided?
    requires i < |r.room.messages| && a.selected == Some(r.room.messages[i].messageId)
    ensures var m, answer := r.room.messages[i], CloseIn(r, Some(a), now);
      && (answer.Ok? <==>
            && r.active && Fits(r.budget, UsageOf(r.attempts), false) && AllSettled(r)
            && m.kind.Decision? && r.room.moderation[i].status.Accepted? && Unopposed(r.room.reviews, m.messageId)
            && EvidenceFits(r.room, m, a.evidenceRefs) && RolesAgree(r, a, m.messageId))
      && (answer.Ok? ==> answer.value == r.(room := r.room.(adjudication := Some(a)), active := false))
  {
    var m := r.room.messages[i];
    assert IndexOf(r.room.messages, m.messageId) == i;
    SupportedIffRecordedAccepted(r.room, i);
    CitesExactly(r.room, m, a.evidenceRefs);
    assert Contested(r.room.reviews, m.messageId) <==> !Unopposed(r.room.reviews, m.messageId);
  }

  /** A decided adjudication that names no message of the room never closes it; a held one closes an
      open debate exactly when it names no message and publishes no evidence. */
  lemma OtherClosingsExactly(r: Record, a: Adjudication, now: Time)
    ensures a.status.Decided? && (a.selected.Some? ==> forall i :: 0 <= i < |r.room.messages| ==> r.room.messages[i].messageId != a.selected.value) ==>
      CloseIn(r, Some(a), now).Err?
    ensures a.status.Held? ==> (CloseIn(r, Some(a), now).Ok? <==> r.active && a.selected.None? && a.evidenceRefs == [])
    ensures CloseIn(r, Some(a), now).Ok? ==> CloseIn(r, Some(a), now).value == r.(room := r.room.(adjudication := Some(a)), active := false)
  {}

  lemma DefaultIsFallback(r: Record, now: Time)
    ensures CloseIn(r, None, now) == CloseIn(r, Some(Fallback(r, now)), now)
  {}

  /** The default answer: held while an adjudicator is pinned, an attempt is not completed or no
      decision is supported; otherwise the latest supported decision, with what it cites as evidence. */
  lemma FallbackMeans(r: Record, now: Time) returns (i: nat)
    requires Recorded(r.room)
    ensures var a := Fallback(r, now);
      && (a.status.Decided? <==>
            && !(r.roles.Some? && r.roles.value.adjudicator.Some?) && AllSettled(r)
            && exists k :: 0 <= k < |r.room.messages| && IsSupported(r.room, r.room.messages[k]))
      && (a.status.Held? ==> a.selected.None? && a.evidenceRefs == [])
      && (a.status.Decided? ==>
            && IsLatestSupported(r.room, i)
            && a.selected == Some(r.room.messages[i].messageId) && a.decision == r.room.messages[i].content && a.adjudicator.None?
            && forall x :: x in a.evidenceRefs <==> x in r.room.messages[i].claimRefs && PackHas(r.room.context, x))
  {
    i := AdjudicatorTakesLatestSupported(r.room, now);
    assert forall x :: InContext(r.room.context, x) <==> PackHas(r.room.context, x);
  }

  /** Closing with nothing given closes an open debate with the default answer, unless that is a
      decision the calls do not fit the budget for or the pinned Moderator has not accepted. */
  lemma DefaultClosingExactly(r: Record, now: Time)
    requires Recorded(r.room)
    ensures var a, answer := Fallback(r, now), CloseIn(r, None, now);
      && (answer.Ok? ==> answer.value == r.(room := r.room.(adjudication := Some(a)), active := false))
      && (answer.Ok? <==>
            r.active && (a.status.Decided? ==>
              Fits(r.budget, UsageOf(r.attempts), false) && a.selected.Some? && RolesAgree(r, a, a.selected.value)))
  {
    var a := Fallback(r, now);
    var i := FallbackMeans(r, now);
    DefaultIsFallback(r, now);
    OtherClosingsExactly(r, a, now);
    if a.status.Decided? {
      DefaultEvidenceFits(r, now, i);
      DecidedClosingExactly(r, a, now, i);
      SupportedIffRecordedAccepted(r.room, i);
      assert Contested(r.room.reviews, a.selected.value) <==> !Unopposed(r.room.reviews, a.selected.value);
    }
  }

  lemma DefaultEvidenceFits(r: Record, now: Time, i: nat)
    requires Recorded(r.room) && Fallback(r, now).status.Decided? && IsLatestSupported(r.room, i)
    requires Fallback(r, now).selected == Some(r.room.messages[i].messageId)
    ensures EvidenceFits(r.room, r.room.messages[i], Fallback(r, now).evidenceRefs)
  {
    var j := AdjudicatorTakesLatestSupported(r.room, now);
    SupportIsWhatItCites(r.room, r.room.messages[i]);
  }
}
