/** What becomes of one projection event, and that its attempts count exactly the calls of the sink. */
module OutboxEffects {
  import opened Basics
  import opened Outbox

  // ---------------------------------------------------------------- the life of one event

  /** What the sink's answer makes of the event: an ambiguous one leaves it unknown. */
  function AfterReply(item: Item, reply: SinkReply): Item {
    match reply
    case Accepted(None) => item.(status := Delivered)
    case Accepted(Some(x)) => item.(status := Delivered, externalId := Some(x))
    case Ambiguous => item.(status := Unknown)
    case Refused => item.(status := Failed)
  }

  /** An event seen on its own: sent while pending or failed and not in flight, answered while in
      flight, and once unknown moved only by a reconciliation that gives a reason. */
  function ItemAfter(inFlight: set<Id>, s: Step, item: Item): Item {
    match s
    case Begin(id) =>
      if id == item.id && id !in inFlight && (item.status.Pending? || item.status.Failed?) then item.(attempts := item.attempts + 1) else item
    case End(id, reply) => if id == item.id && id in inFlight then AfterReply(item, reply) else item
    case Reconcile(id, completed, reason, x) =>
      if id != item.id || reason == "" || !item.status.Unknown? then item
      else if !completed then item.(status := Failed)
      else if x.Some? then item.(status := Delivered, externalId := x)
      else item.(status := Delivered)
    case _ => item
  }

  /** In every step each event does what it would do on its own. */
  lemma EveryItemGoesItsWay(w: World, s: Step, k: nat)
    requires Inv(w.store) && k < |w.store.items|
    ensures k < |Next(w, s).store.items| && Next(w, s).store.items[k] == ItemAfter(w.store.inFlight, s, w.store.items[k])
  {
    IndexIsUnique(w.store.items, k);
    match s
    case Begin(id) => assert IndexOf(w.store.items, id) == k <==> w.store.items[k].id == id;
    case End(id, _) => assert IndexOf(w.store.items, id) == k <==> w.store.items[k].id == id;
    case Reconcile(id, _, _, _) => assert IndexOf(w.store.items, id) == k <==> w.store.items[k].id == id;
    case _ =>
  }

  /** An event joins the outbox, pending and never tried, exactly when its payload is small enough and
      neither its id nor its key for the channel, owner and tenant is there. */
  lemma EnqueuedExactly(w: World, i: Input, freshId: Id)
    ensures Next(w, Enqueue(i, freshId)).store.items ==
      if || |i.payload| > 200000
         || exists k :: 0 <= k < |w.store.items| &&
              (w.store.items[k].id == freshId
               || (w.store.items[k].key == i.key && w.store.items[k].channel == i.channel
                   && w.store.items[k].owner == i.owner && w.store.items[k].tenant == i.tenant))
      then w.store.items
      else w.store.items + [Item(freshId, i.owner, i.tenant, i.key, i.channel, i.destination, i.payload, Pending, 0, None)]
  {
    var s := w.store;
    if k :| 0 <= k < |s.items| && s.items[k].id == freshId { assert HasId(s.items, freshId); }
    if k :| 0 <= k < |s.items| && SameKey(s.items[k], i) { assert Exists(s.items, i); }
    if HasId(s.items, freshId) { var k :| 0 <= k < |s.items| && s.items[k].id == freshId; }
    if Exists(s.items, i) { var k :| 0 <= k < |s.items| && SameKey(s.items[k], i); }
  }

  /** The sink is called exactly when an event that may be sent begins, and then it is in flight until
      its answer or a crash. */
  lemma CalledExactly(w: World, s: Step)
    ensures var begins := s.Begin? && s.id !in w.store.inFlight
      && exists k :: 0 <= k < |w.store.items| && w.store.items[k].id == s.id && (forall j :: 0 <= j < k ==> w.store.items[j].id != s.id)
                     && (w.store.items[k].status.Pending? || w.store.items[k].status.Failed?);
      && Next(w, s).calls == (if begins then w.calls + [s.id] else w.calls)
      && Next(w, s).store.inFlight == (
           if begins then w.store.inFlight + {s.id}
           else if s.Crash? then {}
           else if s.End? && exists k :: 0 <= k < |w.store.items| && w.store.items[k].id == s.id then w.store.inFlight - {s.id}
           else w.store.inFlight)
  {
    if s.Begin? || s.End? { var k := IndexOf(w.store.items, s.id); }
  }

  // ---------------------------------------------------------------- attempts are calls

  /** Every event has as many attempts as the sink was called for it, and the sink was called for events only. */
  ghost predicate Counted(w: World) {
    && (forall k :: 0 <= k < |w.store.items| ==> w.store.items[k].attempts == CallsFor(w.calls, w.store.items[k].id))
    && (forall id :: !HasId(w.store.items, id) ==> CallsFor(w.calls, id) == 0)
  }

  lemma OneMoreCall(calls: seq<Id>, id: Id, other: Id)
    ensures CallsFor(calls + [id], other) == CallsFor(calls, other) + if id == other then 1 else 0
  {
    assert (calls + [id])[..|calls|] == calls;
  }

  lemma KeepsIds(w: World, s: Step, id: Id)
    requires Inv(w.store) && HasId(w.store.items, id)
    ensures HasId(Next(w, s).store.items, id)
  {
    var k :| 0 <= k < |w.store.items| && w.store.items[k].id == id;
    EveryItemGoesItsWay(w, s, k);
  }

  lemma StepKeepsCounted(w: World, s: Step)
    requires Inv(w.store) && Counted(w)
    ensures Counted(Next(w, s))
  {
    var next := Next(w, s);
    CalledExactly(w, s);
    forall k | 0 <= k < |next.store.items| ensures next.store.items[k].attempts == CallsFor(next.calls, next.store.items[k].id) {
      if k < |w.store.items| {
        EveryItemGoesItsWay(w, s, k);
        if s.Begin? {
          OneMoreCall(w.calls, s.id, w.store.items[k].id);
          IndexIsUnique(w.store.items, k);
        }
      } else {
        assert !HasId(w.store.items, s.freshId);
      }
    }
    forall id | !HasId(next.store.items, id) ensures CallsFor(next.calls, id) == 0 {
      if HasId(w.store.items, id) { KeepsIds(w, s, id); }
      if s.Begin? {
        OneMoreCall(w.calls, s.id, id);
        if next.calls != w.calls { assert HasId(w.store.items, s.id); }
      }
    }
  }

  /** Over every run with any crashes an event's attempts are exactly the calls of the sink for it. */
  lemma {:induction false} AttemptsAreCalls(w: World, steps: seq<Step>)
    requires Inv(w.store) && Counted(w)
    ensures Counted(Run(w, steps))
  {
    if steps != [] {
      var front := steps[..|steps| - 1];
      AttemptsAreCalls(w, front);
      EveryRunKeepsInv(w, front);
      StepKeepsCounted(Run(w, front), steps[|steps| - 1]);
    }
  }

  /** Over every run no two events have the same key for one channel, owner and tenant. */
  lemma OneEventPerKey(w: World, steps: seq<Step>, i: nat, j: nat)
    requires w.store.items == [] && i < j < |Run(w, steps).store.items|
    ensures var a, b := Run(w, steps).store.items[i], Run(w, steps).store.items[j];
      a.id != b.id && (a.key != b.key || a.channel != b.channel || a.owner != b.owner || a.tenant != b.tenant)
  {
    EveryRunKeepsInv(w, steps);
  }
}
