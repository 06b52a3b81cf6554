/** The decision of a card read off its events, field by field: each field is what the last event
    about it says, and the holder is the last to have been given the card or to have found it free. */
module TaskBoardFold {
  import opened Basics
  import opened TaskBoard

  // ---------------------------------------------------------------- the last word

  /** What an event says about one field of the card. */
  function Word<V>(e: Event, c: Id, t: Id, says: Action -> Option<V>): Option<V> {
    if e.action.Some? && e.action.value.conversationId == c && e.action.value.taskId == t then says(e.action.value) else None
  }

  ghost predicate Silent<V>(log: Log, from: nat, to: nat, c: Id, t: Id, says: Action -> Option<V>)
    requires from <= to <= |log|
  {
    forall l :: from <= l < to ==> Word(log[l], c, t, says).None?
  }

  /** The m-th event says v, and none of the n first says anything after it. */
  ghost predicate LastSays<V>(log: Log, m: nat, n: nat, c: Id, t: Id, says: Action -> Option<V>, v: V)
    requires n <= |log|
  {
    m < n && Word(log[m], c, t, says) == Some(v) && Silent(log, m + 1, n, c, t, says)
  }

  /** Among the n first events the last that says anything says v, or none does and v is the initial value. */
  ghost predicate LastWord<V>(log: Log, n: nat, c: Id, t: Id, says: Action -> Option<V>, initial: V, v: V)
    requires n <= |log|
  {
    (exists m: nat :: LastSays(log, m, n, c, t, says, v)) || (Silent(log, 0, n, c, t, says) && v == initial)
  }

  lemma LastWordStep<V>(log: Log, n: nat, c: Id, t: Id, says: Action -> Option<V>, initial: V, v: V, w: V)
    requires n < |log| && LastWord(log, n, c, t, says, initial, v)
    requires w == match Word(log[n], c, t, says) case Some(said) => said case None => v
    ensures LastWord(log, n + 1, c, t, says, initial, w)
  {
    if Word(log[n], c, t, says).Some? {
      assert LastSays(log, n, n + 1, c, t, says, w);
    } else if m: nat :| LastSays(log, m, n, c, t, says, v) {
      assert LastSays(log, m, n + 1, c, t, says, w);
    }
  }

  /** The last word is one value. */
  lemma LastWordIsUnique<V>(log: Log, n: nat, c: Id, t: Id, says: Action -> Option<V>, initial: V, v: V, w: V)
    requires n <= |log| && LastWord(log, n, c, t, says, initial, v) && LastWord(log, n, c, t, says, initial, w)
    ensures v == w
  {
    if m: nat :| LastSays(log, m, n, c, t, says, v) {
      if l: nat :| LastSays(log, l, n, c, t, says, w) {
        assert Word(log[m], c, t, says).Some? && Word(log[l], c, t, says).Some?;
      }
    }
  }

  // ---------------------------------------------------------------- what actions say

  /** Cancelled by a cancellation; an assignment, a transfer or a restoration takes it back. */
  function SaysCancelled(a: Action): Option<bool> {
    if (a.kind.Assign? || a.kind.Transfer?) && a.agent.Some? then Some(false)
    else if a.kind.Restore? then Some(false) else if a.kind.Cancel? then Some(true) else None
  }

  /** The reason of the last cancellation that gave one, until a restoration. */
  function SaysCancelReason(a: Action): Option<Option<string>> {
    if a.kind.Cancel? && a.reason.Some? then Some(a.reason) else if a.kind.Restore? then Some(None) else None
  }

  /** Released until somebody is named again. */
  function SaysReleased(a: Action): Option<bool> {
    if (a.kind.Claim? || a.kind.Assign? || a.kind.Transfer?) && a.agent.Some? then Some(false)
    else if a.kind.Release? then Some(true) else None
  }

  /** Accepted until changes are requested. */
  function SaysAccepted(a: Action): Option<bool> {
    if a.kind.Accept? then Some(true) else if a.kind.RequestChanges? then Some(false) else None
  }

  /** The run of the last acceptance that named one. */
  function SaysAcceptedRun(a: Action): Option<Option<Id>> {
    if a.kind.Accept? && a.acceptedRun.Some? then Some(a.acceptedRun) else None
  }

  /** What the last request for changes asked. */
  function SaysRevision(a: Action): Option<Option<string>> {
    if a.kind.RequestChanges? then Some(Some(match a.reason case Some(text) => text case None => "")) else None
  }

  /** Blocked with the note of the last block until it is unblocked. */
  function SaysBlockedNote(a: Action): Option<Option<string>> {
    if a.kind.Block? then Some(Some(match a.reason case Some(text) => text case None => "")) else if a.kind.Unblock? then Some(None) else None
  }

  /** Handed up for good. */
  function SaysHandedUp(a: Action): Option<bool> {
    if a.kind.HandUp? then Some(true) else None
  }

  /** The Bot that proposed it last. */
  function SaysProposedBy(a: Action): Option<Option<Id>> {
    if a.kind.Propose? && a.agent.Some? then Some(a.agent) else None
  }

  /** The reason of the last proposal that gave one. */
  function SaysProposalReason(a: Action): Option<Option<string>> {
    if a.kind.Propose? && a.agent.Some? && a.reason.Some? then Some(a.reason) else None
  }

  /** Adopted since it was last proposed. */
  function SaysAdopted(a: Action): Option<bool> {
    if a.kind.Propose? && a.agent.Some? then Some(false) else if a.kind.Adopt? then Some(true) else None
  }

  /** The last offer, until the card is given, the offer declined or the card cancelled. */
  function SaysOffered(a: Action): Option<Option<OpenOffer>> {
    if a.kind.Offer? && a.agent.Some? then Some(Some(OpenOffer(a.agent.value, a.reason)))
    else if (a.kind.Assign? || a.kind.Transfer?) && a.agent.Some? then Some(None)
    else if a.kind.Decline? || a.kind.Cancel? then Some(None) else None
  }

  // ---------------------------------------------------------------- one action

  lemma CancellationOf(d: Decision, a: Action, line: string)
    ensures Applied(d, a, line).cancelled == match SaysCancelled(a) case Some(v) => v case None => d.cancelled
    ensures Applied(d, a, line).cancelReason == match SaysCancelReason(a) case Some(v) => v case None => d.cancelReason
  {
    match a.kind
    case Claim =>
    case Propose =>
    case Cancel =>
    case _ =>
  }

  lemma ClaimingOf(d: Decision, a: Action, line: string)
    ensures Applied(d, a, line).released == match SaysReleased(a) case Some(v) => v case None => d.released
    ensures Applied(d, a, line).handedUp == match SaysHandedUp(a) case Some(v) => v case None => d.handedUp
  {
    match a.kind
    case Claim =>
    case Propose =>
    case Cancel =>
    case _ =>
  }

  lemma AcceptanceOf(d: Decision, a: Action, line: string)
    ensures Applied(d, a, line).accepted == match SaysAccepted(a) case Some(v) => v case None => d.accepted
    ensures Applied(d, a, line).acceptedRun == match SaysAcceptedRun(a) case Some(v) => v case None => d.acceptedRun
  {
    match a.kind
    case Claim =>
    case Propose =>
    case Cancel =>
    case _ =>
  }

  lemma NoteOf(d: Decision, a: Action, line: string)
    ensures Applied(d, a, line).revision == match SaysRevision(a) case Some(v) => v case None => d.revision
    ensures Applied(d, a, line).blockedNote == match SaysBlockedNote(a) case Some(v) => v case None => d.blockedNote
  {
    match a.kind
    case Claim =>
    case Propose =>
    case Cancel =>
    case _ =>
  }

  lemma ProposalOf(d: Decision, a: Action, line: string)
    ensures Applied(d, a, line).proposedBy == match SaysProposedBy(a) case Some(v) => v case None => d.proposedBy
    ensures Applied(d, a, line).proposalReason == match SaysProposalReason(a) case Some(v) => v case None => d.proposalReason
  {
    match a.kind
    case Claim =>
    case Propose =>
    case Cancel =>
    case _ =>
  }

  lemma OfferOf(d: Decision, a: Action, line: string)
    ensures Applied(d, a, line).adopted == match SaysAdopted(a) case Some(v) => v case None => d.adopted
    ensures Applied(d, a, line).offer == match SaysOffered(a) case Some(v) => v case None => d.offer
  {
    match a.kind
    case Claim =>
    case Propose =>
    case Cancel =>
    case _ =>
  }

  // ---------------------------------------------------------------- every field is the last word

  ghost predicate StandingIsLast(log: Log, n: nat, c: Id, t: Id, d: Decision)
    requires n <= |log|
  {
    && LastWord(log, n, c, t, SaysCancelled, false, d.cancelled)
    && LastWord(log, n, c, t, SaysCancelReason, None, d.cancelReason)
    && LastWord(log, n, c, t, SaysReleased, false, d.released)
    && LastWord(log, n, c, t, SaysHandedUp, false, d.handedUp)
  }

  lemma StandingStep(log: Log, n: nat, c: Id, t: Id)
    requires n < |log| && StandingIsLast(log, n, c, t, At(log, n, c, t))
    ensures StandingIsLast(log, n + 1, c, t, At(log, n + 1, c, t))
  {
    var d, next, e := At(log, n, c, t), At(log, n + 1, c, t), log[n];
    assert log[..n + 1][..n] == log[..n];
    if ActsOn(e, c, t) {
      CancellationOf(d, e.action.value, e.content);
      ClaimingOf(d, e.action.value, e.content);
    }
    LastWordStep(log, n, c, t, SaysCancelled, false, d.cancelled, next.cancelled);
    LastWordStep(log, n, c, t, SaysCancelReason, None, d.cancelReason, next.cancelReason);
    LastWordStep(log, n, c, t, SaysReleased, false, d.released, next.released);
    LastWordStep(log, n, c, t, SaysHandedUp, false, d.handedUp, next.handedUp);
  }

  ghost predicate ResultIsLast(log: Log, n: nat, c: Id, t: Id, d: Decision)
    requires n <= |log|
  {
    && LastWord(log, n, c, t, SaysAccepted, false, d.accepted)
    && LastWord(log, n, c, t, SaysAcceptedRun, None, d.acceptedRun)
    && LastWord(log, n, c, t, SaysRevision, None, d.revision)
    && LastWord(log, n, c, t, SaysBlockedNote, None, d.blockedNote)
  }

  lemma ResultStep(log: Log, n: nat, c: Id, t: Id)
    requires n < |log| && ResultIsLast(log, n, c, t, At(log, n, c, t))
    ensures ResultIsLast(log, n + 1, c, t, At(log, n + 1, c, t))
  {
    var d, next, e := At(log, n, c, t), At(log, n + 1, c, t), log[n];
    assert log[..n + 1][..n] == log[..n];
    if ActsOn(e, c, t) {
      AcceptanceOf(d, e.action.value, e.content);
      NoteOf(d, e.action.value, e.content);
    }
    LastWordStep(log, n, c, t, SaysAccepted, false, d.accepted, next.accepted);
    LastWordStep(log, n, c, t, SaysAcceptedRun, None, d.acceptedRun, next.acceptedRun);
    LastWordStep(log, n, c, t, SaysRevision, None, d.revision, next.revision);
    LastWordStep(log, n, c, t, SaysBlockedNote, None, d.blockedNote, next.blockedNote);
  }

  ghost predicate ProposalIsLast(log: Log, n: nat, c: Id, t: Id, d: Decision)
    requires n <= |log|
  {
    && LastWord(log, n, c, t, SaysProposedBy, None, d.proposedBy)
    && LastWord(log, n, c, t, SaysProposalReason, None, d.proposalReason)
    && LastWord(log, n, c, t, SaysAdopted, false, d.adopted)
    && LastWord(log, n, c, t, SaysOffered, None, d.offer)
  }

  lemma ProposalStep(log: Log, n: nat, c: Id, t: Id)
    requires n < |log| && ProposalIsLast(log, n, c, t, At(log, n, c, t))
    ensures ProposalIsLast(log, n + 1, c, t, At(log, n + 1, c, t))
  {
    var d, next, e := At(log, n, c, t), At(log, n + 1, c, t), log[n];
    assert log[..n + 1][..n] == log[..n];
    if ActsOn(e, c, t) {
      ProposalOf(d, e.action.value, e.content);
      OfferOf(d, e.action.value, e.content);
    }
    LastWordStep(log, n, c, t, SaysProposedBy, None, d.proposedBy, next.proposedBy);
    LastWordStep(log, n, c, t, SaysProposalReason, None, d.proposalReason, next.proposalReason);
    LastWordStep(log, n, c, t, SaysAdopted, false, d.adopted, next.adopted);
    LastWordStep(log, n, c, t, SaysOffered, None, d.offer, next.offer);
  }

  lemma {:induction false} StandingLasts(log: Log, n: nat, c: Id, t: Id)
    requires n <= |log|
    ensures StandingIsLast(log, n, c, t, At(log, n, c, t))
  {
    if n > 0 {
      StandingLasts(log, n - 1, c, t);
      StandingStep(log, n - 1, c, t);
    }
  }

  lemma {:induction false} ResultLasts(log: Log, n: nat, c: Id, t: Id)
    requires n <= |log|
    ensures ResultIsLast(log, n, c, t, At(log, n, c, t))
  {
    if n > 0 {
      ResultLasts(log, n - 1, c, t);
      ResultStep(log, n - 1, c, t);
    }
  }

  lemma {:induction false} ProposalLasts(log: Log, n: nat, c: Id, t: Id)
    requires n <= |log|
    ensures ProposalIsLast(log, n, c, t, At(log, n, c, t))
  {
    if n > 0 {
      ProposalLasts(log, n - 1, c, t);
      ProposalStep(log, n - 1, c, t);
    }
  }

  /** Whatever happened to a card, these fields of its decision are what the last event about each of
      them says, and the initial value when there is none. */
  lemma FieldsAreTheLastWord(log: Log, c: Id, t: Id)
    ensures StandingIsLast(log, |log|, c, t, DecisionOf(log, c, t))
    ensures ResultIsLast(log, |log|, c, t, DecisionOf(log, c, t))
    ensures ProposalIsLast(log, |log|, c, t, DecisionOf(log, c, t))
  {
    StandingLasts(log, |log|, c, t);
    ResultLasts(log, |log|, c, t);
    ProposalLasts(log, |log|, c, t);
    assert log[..|log|] == log;
  }

  // ---------------------------------------------------------------- the holder

  /** Who held the card before each event, and after the last. */
  function Holders(log: Log, c: Id, t: Id): (h: seq<Option<Id>>)
    ensures |h| == |log| + 1 && h[0] == None
  {
    if log == [] then [None] else Holders(log[..|log| - 1], c, t) + [DecisionOf(log, c, t).assignee]
  }

  predicate Names(e: Event, c: Id, t: Id, k: Kind, x: Id) {
    && e.action.Some? && e.action.value.conversationId == c && e.action.value.taskId == t
    && e.action.value.kind == k && e.action.value.agent == Some(x)
  }

  predicate Returns(e: Event, c: Id, t: Id) {
    && e.action.Some? && e.action.value.conversationId == c && e.action.value.taskId == t
    && (e.action.value.kind.Refuse? || e.action.value.kind.Release?)
  }

  /** The event gives the card to x: it assigns or transfers it, or x claims it when it is free or x's. */
  predicate GivenTo(e: Event, holder: Option<Id>, c: Id, t: Id, x: Id) {
    Names(e, c, t, Assign, x) || Names(e, c, t, Transfer, x) || (Names(e, c, t, Claim, x) && (holder == None || holder == Some(x)))
  }

  /** The event leaves whoever held the card without it, or gives it to somebody. */
  ghost predicate EndsHold(e: Event, holder: Option<Id>, c: Id, t: Id) {
    Returns(e, c, t)
    || exists x :: Names(e, c, t, Assign, x) || Names(e, c, t, Transfer, x) || (Names(e, c, t, Claim, x) && holder == None)
  }

  ghost predicate HoldsSince(log: Log, h: seq<Option<Id>>, m: nat, n: nat, c: Id, t: Id, x: Id)
    requires n <= |log| < |h|
  {
    m < n && GivenTo(log[m], h[m], c, t, x) && forall l :: m < l < n ==> !EndsHold(log[l], h[l], c, t)
  }

  /** The holder after an event. */
  ghost predicate Moves(e: Event, holder: Option<Id>, next: Option<Id>, c: Id, t: Id) {
    && (Returns(e, c, t) ==> next == None)
    && (forall x :: GivenTo(e, holder, c, t, x) ==> next == Some(x))
    && (!EndsHold(e, holder, c, t) ==> next == holder)
  }

  lemma HolderOfAction(d: Decision, a: Action, line: string)
    ensures Applied(d, a, line).assignee ==
      if (a.kind.Assign? || a.kind.Transfer?) && a.agent.Some? then a.agent
      else if a.kind.Claim? && a.agent.Some? && d.assignee == None then a.agent
      else if a.kind.Refuse? || a.kind.Release? then None
      else d.assignee
  {
    match a.kind
    case Claim =>
    case Propose =>
    case Cancel =>
    case _ =>
  }

  lemma DecisionStep(log: Log, c: Id, t: Id)
    requires log != []
    ensures var d, e := DecisionOf(log[..|log| - 1], c, t), log[|log| - 1];
      Moves(e, d.assignee, DecisionOf(log, c, t).assignee, c, t)
  {
    var d, e := DecisionOf(log[..|log| - 1], c, t), log[|log| - 1];
    if ActsOn(e, c, t) {
      HolderOfAction(d, e.action.value, e.content);
      if e.action.value.agent.Some? { assert Names(e, c, t, e.action.value.kind, e.action.value.agent.value); }
    }
  }

  lemma {:induction false} HoldersMove(log: Log, c: Id, t: Id, n: nat)
    requires n <= |log|
    ensures Holders(log, c, t)[n] == At(log, n, c, t).assignee
    ensures n < |log| ==> Moves(log[n], Holders(log, c, t)[n], Holders(log, c, t)[n + 1], c, t)
  {
    var l := |log| - 1;
    if n <= l {
      HoldersMove(log[..l], c, t, n);
      assert log[..l][..n] == log[..n];
      if n == l { DecisionStep(log, c, t); }
    } else {
      assert log[..n] == log;
    }
  }

  lemma {:induction false} LastGivenHolds(log: Log, h: seq<Option<Id>>, n: nat, c: Id, t: Id, x: Id)
    requires n <= |log| < |h| && h[0] == None && forall l :: 0 <= l < |log| ==> Moves(log[l], h[l], h[l + 1], c, t)
    ensures h[n] == Some(x) <==> exists m: nat :: HoldsSince(log, h, m, n, c, t, x)
  {
    if n > 0 {
      var k := n - 1;
      LastGivenHolds(log, h, k, c, t, x);
      assert Moves(log[k], h[k], h[n], c, t);
      if GivenTo(log[k], h[k], c, t, x) { assert HoldsSince(log, h, k, n, c, t, x); }
      if h[k] == Some(x) && !EndsHold(log[k], h[k], c, t) {
        var m: nat :| HoldsSince(log, h, m, k, c, t, x);
        assert HoldsSince(log, h, m, n, c, t, x);
      }
      if m: nat :| HoldsSince(log, h, m, n, c, t, x) && m < k { assert HoldsSince(log, h, m, k, c, t, x); }
    }
  }

  lemma {:induction false} FreeAfterReturn(log: Log, h: seq<Option<Id>>, n: nat, c: Id, t: Id)
    requires n <= |log| < |h| && h[0] == None && forall l :: 0 <= l < |log| ==> Moves(log[l], h[l], h[l + 1], c, t)
    ensures h[n] == None <==>
      forall m, x :: 0 <= m < n && GivenTo(log[m], h[m], c, t, x) ==> exists l :: m < l < n && Returns(log[l], c, t)
  {
    if n > 0 {
      var k := n - 1;
      FreeAfterReturn(log, h, k, c, t);
      assert Moves(log[k], h[k], h[n], c, t);
      if h[n] == None {
        forall m, x | 0 <= m < n && GivenTo(log[m], h[m], c, t, x) ensures exists l :: m < l < n && Returns(log[l], c, t) {
          if h[k] == None {
            var l :| m < l < k && Returns(log[l], c, t);
            assert m < l < n && Returns(log[l], c, t);
          } else {
            assert Returns(log[k], c, t);
          }
        }
      } else if EndsHold(log[k], h[k], c, t) {
        assert GivenTo(log[k], h[k], c, t, h[n].value);
      } else {
        var m, x :| 0 <= m < k && GivenTo(log[m], h[m], c, t, x) && forall l :: m < l < k ==> !Returns(log[l], c, t);
        assert forall l :: m < l < n ==> !Returns(log[l], c, t);
      }
    }
  }

  /** Somebody holds a card exactly when an event gave it to them and no later one ended their hold;
      the card is free exactly when every time it was given to somebody it was refused or released later. */
  lemma HolderIsTheLastGiven(log: Log, n: nat, c: Id, t: Id, x: Id)
    requires n <= |log|
    ensures var h := Holders(log, c, t);
      && h[n] == At(log, n, c, t).assignee
      && (h[n] == Some(x) <==> exists m: nat :: HoldsSince(log, h, m, n, c, t, x))
      && (h[n] == None <==>
            forall m, y :: 0 <= m < n && GivenTo(log[m], h[m], c, t, y) ==> exists l :: m < l < n && Returns(log[l], c, t))
  {
    var h := Holders(log, c, t);
    forall l | 0 <= l < |log| ensures Moves(log[l], h[l], h[l + 1], c, t) { HoldersMove(log, c, t, l); }
    HoldersMove(log, c, t, n);
    LastGivenHolds(log, h, n, c, t, x);
    FreeAfterReturn(log, h, n, c, t);
  }

  // ---------------------------------------------------------------- lines and conflicts

  /** The event acts on the card and names an agent when it claims, assigns, transfers, offers or proposes. */
  predicate Counts(e: Event, c: Id, t: Id) {
    && e.action.Some? && e.action.value.conversationId == c && e.action.value.taskId == t
    && match e.action.value.kind
       case Claim => e.action.value.agent.Some?
       case Assign => e.action.value.agent.Some?
       case Transfer => e.action.value.agent.Some?
       case Offer => e.action.value.agent.Some?
       case Propose => e.action.value.agent.Some?
       case _ => true
  }

  lemma LinesOf(d: Decision, a: Action, line: string)
    ensures Applied(d, a, line).lines == if NeedsAgent(a.kind) && a.agent.None? then d.lines else d.lines + [line]
  {
    match a.kind
    case Claim =>
    case Propose =>
    case Cancel =>
    case _ =>
  }

  lemma LinesStep(log: Log, c: Id, t: Id)
    requires log != []
    ensures var n := |log| - 1;
      DecisionOf(log, c, t).lines == DecisionOf(log[..n], c, t).lines + if Counts(log[n], c, t) then [log[n].content] else []
  {
    var n := |log| - 1;
    if ActsOn(log[n], c, t) { LinesOf(DecisionOf(log[..n], c, t), log[n].action.value, log[n].content); }
  }

  function LinesOn(log: Log, c: Id, t: Id): seq<string> {
    if log == [] then []
    else LinesOn(log[..|log| - 1], c, t) + if Counts(log[|log| - 1], c, t) then [log[|log| - 1].content] else []
  }

  /** The lines of a card are the texts of its events, in order. */
  lemma {:induction false} LinesAreItsEvents(log: Log, c: Id, t: Id)
    ensures DecisionOf(log, c, t).lines == LinesOn(log, c, t)
  {
    if log != [] {
      LinesAreItsEvents(log[..|log| - 1], c, t);
      LinesStep(log, c, t);
    }
  }

  /** The claims among the n first events that met another holder. */
  function ContestsOn(log: Log, h: seq<Option<Id>>, n: nat, c: Id, t: Id): seq<Id>
    requires n <= |log| < |h|
  {
    if n == 0 then []
    else
      var e, front := log[n - 1], ContestsOn(log, h, n - 1, c, t);
      if && e.action.Some? && e.action.value.conversationId == c && e.action.value.taskId == t && e.action.value.kind.Claim?
         && e.action.value.agent.Some? && h[n - 1].Some? && h[n - 1] != e.action.value.agent
      then front + [e.action.value.agent.value] else front
  }

  lemma ConflictsStep(log: Log, n: nat, c: Id, t: Id)
    requires n < |log|
    ensures var e, d := log[n], At(log, n, c, t);
      At(log, n + 1, c, t).conflicts
      == if && e.action.Some? && e.action.value.conversationId == c && e.action.value.taskId == t && e.action.value.kind.Claim?
            && e.action.value.agent.Some? && d.assignee.Some? && d.assignee != e.action.value.agent
         then d.conflicts + [e.action.value.agent.value] else d.conflicts
  {
    assert log[..n + 1][..n] == log[..n];
    if ActsOn(log[n], c, t) { ConflictsOf(At(log, n, c, t), log[n].action.value, log[n].content); }
  }

  /** The conflicts of a card are the claims that met another holder, in order. */
  lemma {:induction false} ConflictsAreTheContests(log: Log, n: nat, c: Id, t: Id)
    requires n <= |log|
    ensures At(log, n, c, t).conflicts == ContestsOn(log, Holders(log, c, t), n, c, t)
  {
    if n > 0 {
      ConflictsAreTheContests(log, n - 1, c, t);
      ConflictsStep(log, n - 1, c, t);
      HoldersMove(log, c, t, n - 1);
    }
  }
}
