/** The projection outbox of src/collaboration-projection.ts: idempotent enqueueing, one delivery
    in flight per event, and ambiguous outcomes that only reconciliation resolves. */
module Outbox {
  import opened Basics

  datatype Status = Pending | Failed | Unknown | Delivered

  datatype Item = Item(
    id: Id, owner: Id, tenant: Id, key: Id, channel: Id, destination: Id, payload: string, status: Status, attempts: nat,
    externalId: Option<Id>)

  datatype Input = Input(owner: Id, tenant: Id, key: Id, channel: Id, destination: Id, payload: string)

  datatype OutboxError = PayloadTooLarge | NotFound | NotUnknown(status: Status) | ReasonMissing

  const PAYLOAD_LIMIT: nat := 200000

  datatype Store = Store(items: seq<Item>, inFlight: set<Id>)

  predicate SameKey(a: Item, i: Input) { a.key == i.key && a.channel == i.channel && a.owner == i.owner && a.tenant == i.tenant }

  function IndexOf(items: seq<Item>, id: Id): (k: nat)
    ensures k <= |items| && (k < |items| ==> items[k].id == id) && forall j :: 0 <= j < k ==> items[j].id != id
  {
    if items == [] then 0
    else
      var k := IndexOf(items[..|items| - 1], id);
      if k < |items| - 1 || items[|items| - 1].id == id then k else |items|
  }

  predicate Exists(items: seq<Item>, i: Input) { exists k :: 0 <= k < |items| && SameKey(items[k], i) }

  function EnqueueIn(s: Store, i: Input, freshId: Id): Result<Store, OutboxError> {
    if |i.payload| > PAYLOAD_LIMIT then Err(PayloadTooLarge)
    else if Exists(s.items, i) then Ok(s)
    else Ok(s.(items := s.items + [Item(freshId, i.owner, i.tenant, i.key, i.channel, i.destination, i.payload, Pending, 0, None)]))
  }

  predicate Sendable(s: Status) { s.Pending? || s.Failed? }

  /** A delivery starts unless one is in flight or the event is settled or unknown; the attempt
      is counted before the sink is called. */
  function BeginIn(s: Store, id: Id): (Store, bool) {
    var k := IndexOf(s.items, id);
    if k == |s.items| || id in s.inFlight || !Sendable(s.items[k].status) then (s, false)
    else (Store(s.items[k := s.items[k].(attempts := s.items[k].attempts + 1)], s.inFlight + {id}), true)
  }

  datatype SinkReply = Accepted(externalId: Option<Id>) | Ambiguous | Refused

  function EndIn(s: Store, id: Id, reply: SinkReply): Store {
    var k := IndexOf(s.items, id);
    if k == |s.items| || id !in s.inFlight then s
    else
      var item := match reply
        case Accepted(x) => s.items[k].(status := Delivered, externalId := if x.Some? then x else s.items[k].externalId)
        case Ambiguous => s.items[k].(status := Unknown)
        case Refused => s.items[k].(status := Failed);
      Store(s.items[k := item], s.inFlight - {id})
  }

  function ReconcileIn(s: Store, id: Id, completed: bool, reason: string, externalId: Option<Id>): Result<Store, OutboxError> {
    var k := IndexOf(s.items, id);
    if reason == "" then Err(ReasonMissing)
    else if k == |s.items| then Err(NotFound)
    else if !s.items[k].status.Unknown? then Err(NotUnknown(s.items[k].status))
    else
      var item := s.items[k].(status := if completed then Delivered else Failed,
                              externalId := if completed && externalId.Some? then externalId else s.items[k].externalId);
      Ok(s.(items := s.items[k := item]))
  }

  class FileProjectionOutbox {
    var items: seq<Item>
    var inFlight: set<Id>

    function State(): Store
      reads this
    {
      Store(items, inFlight)
    }

    constructor ()
      ensures State() == Store([], {})
    {
      items, inFlight := [], {};
    }

    method Enqueue(i: Input, freshId: Id) returns (error: Option<OutboxError>)
      modifies this
      ensures var next := EnqueueIn(old(State()), i, freshId);
        if next.Ok? then error == None && State() == next.value else error == Some(next.error) && State() == old(State())
    {
      if |i.payload| > PAYLOAD_LIMIT { return Some(PayloadTooLarge); }
      if exists k :: 0 <= k < |items| && SameKey(items[k], i) { return None; }
      items := items + [Item(freshId, i.owner, i.tenant, i.key, i.channel, i.destination, i.payload, Pending, 0, None)];
      return None;
    }

    method BeginDelivery(id: Id) returns (calls: bool)
      modifies this
      ensures (State(), calls) == BeginIn(old(State()), id)
    {
      if id in inFlight { return false; }
      var k := IndexOf(items, id);
      if k == |items| { return false; }
      if items[k].status.Delivered? || items[k].status.Unknown? { return false; }
      items := items[k := items[k].(attempts := items[k].attempts + 1)];
      inFlight := inFlight + {id};
      return true;
    }

    method EndDelivery(id: Id, reply: SinkReply)
      modifies this
      ensures State() == EndIn(old(State()), id, reply)
    {
      var k := IndexOf(items, id);
      if k == |items| || id !in inFlight { return; }
      var item := items[k];
      match reply {
        case Accepted(x) =>
          item := item.(status := Delivered);
          if x.Some? { item := item.(externalId := x); }
        case Ambiguous => item := item.(status := Unknown);
        case Refused => item := item.(status := Failed);
      }
      items, inFlight := items[k := item], inFlight - {id};
    }

    method Reconcile(id: Id, completed: bool, reason: string, externalId: Option<Id>) returns (error: Option<OutboxError>)
      modifies this
      ensures var next := ReconcileIn(old(State()), id, completed, reason, externalId);
        if next.Ok? then error == None && State() == next.value else error == Some(next.error) && State() == old(State())
    {
      if reason == "" { return Some(ReasonMissing); }
      var k := IndexOf(items, id);
      if k == |items| { return Some(NotFound); }
      var item := items[k];
      if !item.status.Unknown? { return Some(NotUnknown(item.status)); }
      item := item.(status := if completed then Delivered else Failed);
      if completed && externalId.Some? { item := item.(externalId := externalId); }
      items := items[k := item];
      return None;
    }
  }

  // ---------------------------------------------------------------- runs

  /** `calls` logs every event handed to the sink. A crash forgets what is in flight. */
  datatype World = World(store: Store, calls: seq<Id>)

  datatype Step =
    | Enqueue(i: Input, freshId: Id)
    | Begin(id: Id)
    | End(id: Id, reply: SinkReply)
    | Reconcile(id: Id, completed: bool, reason: string, externalId: Option<Id>)
    | Crash

  predicate HasId(items: seq<Item>, id: Id) { exists k :: 0 <= k < |items| && items[k].id == id }

  function Kept(s: Store, r: Result<Store, OutboxError>): Store { if r.Ok? then r.value else s }

  function Next(w: World, s: Step): World {
    match s
    case Enqueue(i, id) => if HasId(w.store.items, id) then w else w.(store := Kept(w.store, EnqueueIn(w.store, i, id)))
    case Begin(id) =>
      var (store, calls) := BeginIn(w.store, id);
      World(store, if calls then w.calls + [id] else w.calls)
    case End(id, reply) => w.(store := EndIn(w.store, id, reply))
    case Reconcile(id, completed, reason, x) => w.(store := Kept(w.store, ReconcileIn(w.store, id, completed, reason, x)))
    case Crash => w.(store := w.store.(inFlight := {}))
  }

  function Run(w: World, steps: seq<Step>): World {
    if steps == [] then w else Next(Run(w, steps[..|steps| - 1]), steps[|steps| - 1])
  }

  ghost predicate UniqueItems(items: seq<Item>) {
    forall i, j :: 0 <= i < j < |items| ==>
      items[i].id != items[j].id
      && !(items[i].key == items[j].key && items[i].channel == items[j].channel && items[i].owner == items[j].owner && items[i].tenant == items[j].tenant)
  }

  /** Events are unique by id and by key, and whatever is in flight may still be sent. */
  ghost predicate Inv(s: Store) {
    UniqueItems(s.items)
    && forall k :: 0 <= k < |s.items| && s.items[k].id in s.inFlight ==> Sendable(s.items[k].status)
  }

  function StatusOf(s: Store, id: Id): Option<Status> {
    var k := IndexOf(s.items, id);
    if k < |s.items| then Some(s.items[k].status) else None
  }

  lemma UpdateKeepsUnique(items: seq<Item>, k: nat, item: Item)
    requires UniqueItems(items) && k < |items| && item.id == items[k].id && item.key == items[k].key
    requires item.channel == items[k].channel && item.owner == items[k].owner && item.tenant == items[k].tenant
    ensures UniqueItems(items[k := item])
  {}

  lemma IndexIsUnique(items: seq<Item>, k: nat)
    requires UniqueItems(items) && k < |items|
    ensures IndexOf(items, items[k].id) == k
  {}

  lemma UpdateKeepsInv(s: Store, k: nat, item: Item, inFlight: set<Id>)
    requires Inv(s) && k < |s.items| && item.id == s.items[k].id && item.key == s.items[k].key
    requires item.channel == s.items[k].channel && item.owner == s.items[k].owner && item.tenant == s.items[k].tenant
    requires inFlight <= s.inFlight + {item.id} && (item.id in inFlight ==> Sendable(item.status))
    ensures Inv(Store(s.items[k := item], inFlight))
    ensures forall id :: StatusOf(Store(s.items[k := item], inFlight), id) == if id == item.id then Some(item.status) else StatusOf(s, id)
  {
    UpdateKeepsUnique(s.items, k, item);
    var next := s.items[k := item];
    IndexIsUnique(s.items, k);
    IndexIsUnique(next, k);
    forall id ensures StatusOf(Store(next, inFlight), id) == if id == item.id then Some(item.status) else StatusOf(s, id) {
      SameIndex(s.items, k, item, id);
    }
  }

  lemma SameIndex(items: seq<Item>, k: nat, item: Item, id: Id)
    requires UniqueItems(items) && k < |items| && item.id == items[k].id && UniqueItems(items[k := item])
    ensures IndexOf(items[k := item], id) == IndexOf(items, id) && (IndexOf(items, id) == k <==> id == item.id)
  {
    var next, i := items[k := item], IndexOf(items, id);
    IndexIsUnique(items, k);
    if i < |items| {
      assert next[i].id == id;
      IndexIsUnique(next, i);
    } else {
      assert forall j :: 0 <= j < |items| ==> next[j].id == items[j].id;
    }
  }

  /** What one step may do to one event. */
  ghost predicate StepEffect(w: World, next: World, s: Step, id: Id) {
    var a, b := StatusOf(w.store, id), StatusOf(next.store, id);
    && (a == Some(Delivered) ==> b == Some(Delivered))
    && (a == Some(Unknown) ==> b == Some(Unknown) || (s.Reconcile? && s.id == id))
    && (next.calls == w.calls
        || (s.Begin? && next.calls == w.calls + [s.id] && (s.id == id ==> a.Some? && Sendable(a.value) && id !in w.store.inFlight)))
  }

  lemma EnqueueKeeps(w: World, s: Step, id: Id)
    requires Inv(w.store) && s.Enqueue?
    ensures Inv(Next(w, s).store) && StepEffect(w, Next(w, s), s, id)
  {
    var next := Next(w, s);
    if next.store.items != w.store.items {
      var n := |w.store.items|;
      assert next.store.items[..n] == w.store.items;
      forall k | 0 <= k < n ensures !SameKey(w.store.items[k], s.i) && w.store.items[k].id != s.freshId {}
      var k := IndexOf(w.store.items, id);
      if k < n { IndexIsUnique(next.store.items, k); }
      forall k | 0 <= k <= n && next.store.items[k].id in w.store.inFlight ensures Sendable(next.store.items[k].status) {}
    }
  }

  lemma BeginKeeps(w: World, s: Step, id: Id)
    requires Inv(w.store) && s.Begin?
    ensures Inv(Next(w, s).store) && StepEffect(w, Next(w, s), s, id)
  {
    if BeginIn(w.store, s.id).1 {
      var k := IndexOf(w.store.items, s.id);
      UpdateKeepsInv(w.store, k, w.store.items[k].(attempts := w.store.items[k].attempts + 1), w.store.inFlight + {s.id});
    }
  }

  lemma EndKeeps(w: World, s: Step, id: Id)
    requires Inv(w.store) && s.End?
    ensures Inv(Next(w, s).store) && StepEffect(w, Next(w, s), s, id)
  {
    var k := IndexOf(w.store.items, s.id);
    if k < |w.store.items| && s.id in w.store.inFlight {
      UpdateKeepsInv(w.store, k, Next(w, s).store.items[k], w.store.inFlight - {s.id});
    }
  }

  lemma ReconcileKeeps(w: World, s: Step, id: Id)
    requires Inv(w.store) && s.Reconcile?
    ensures Inv(Next(w, s).store) && StepEffect(w, Next(w, s), s, id)
  {
    var k := IndexOf(w.store.items, s.id);
    if Next(w, s).store != w.store { UpdateKeepsInv(w.store, k, Next(w, s).store.items[k], w.store.inFlight); }
  }

  lemma StepKeeps(w: World, s: Step, id: Id)
    requires Inv(w.store)
    ensures Inv(Next(w, s).store) && StepEffect(w, Next(w, s), s, id)
  {
    match s
    case Enqueue(_, _) => EnqueueKeeps(w, s, id);
    case Begin(_) => BeginKeeps(w, s, id);
    case End(_, _) => EndKeeps(w, s, id);
    case Reconcile(_, _, _, _) => ReconcileKeeps(w, s, id);
    case Crash =>
  }

  lemma {:induction false} EveryRunKeepsInv(w: World, steps: seq<Step>)
    requires Inv(w.store)
    ensures Inv(Run(w, steps).store)
  {
    if steps != [] {
      EveryRunKeepsInv(w, steps[..|steps| - 1]);
      StepKeeps(Run(w, steps[..|steps| - 1]), steps[|steps| - 1], "");
    }
  }

  function CallsFor(calls: seq<Id>, id: Id): nat {
    if calls == [] then 0 else CallsFor(calls[..|calls| - 1], id) + (if calls[|calls| - 1] == id then 1 else 0)
  }

  predicate NoReconcileOf(steps: seq<Step>, id: Id) { forall i :: 0 <= i < |steps| ==> !(steps[i].Reconcile? && steps[i].id == id) }

  /** A delivered event never reaches the sink again and stays delivered, over every run with any
      crashes; an unknown one neither reaches the sink nor changes until it is reconciled. */
  lemma {:induction false} SettledEventsAreNotResent(w: World, steps: seq<Step>, id: Id)
    requires Inv(w.store)
    requires StatusOf(w.store, id) == Some(Delivered) || (StatusOf(w.store, id) == Some(Unknown) && NoReconcileOf(steps, id))
    ensures CallsFor(Run(w, steps).calls, id) == CallsFor(w.calls, id)
    ensures StatusOf(Run(w, steps).store, id) == StatusOf(w.store, id)
  {
    if steps != [] {
      var n := |steps| - 1;
      assert forall i :: 0 <= i < n ==> steps[..n][i] == steps[i];
      SettledEventsAreNotResent(w, steps[..n], id);
      EveryRunKeepsInv(w, steps[..n]);
      var before := Run(w, steps[..n]);
      StepKeeps(before, steps[n], id);
      var after := Next(before, steps[n]);
      if after.calls != before.calls { assert after.calls[..|before.calls|] == before.calls; }
    }
  }

  /** Steps keep every event's key, channel and owner. */
  lemma StepKeepsKeys(w: World, s: Step, i: Input)
    requires Exists(w.store.items, i)
    ensures Exists(Next(w, s).store.items, i)
  {
    var k :| 0 <= k < |w.store.items| && SameKey(w.store.items[k], i);
    assert k < |Next(w, s).store.items| && SameKey(Next(w, s).store.items[k], i);
  }

  lemma {:induction false} RunKeepsKeys(w: World, steps: seq<Step>, i: Input)
    requires Exists(w.store.items, i)
    ensures Exists(Run(w, steps).store.items, i)
  {
    if steps != [] {
      RunKeepsKeys(w, steps[..|steps| - 1], i);
      StepKeepsKeys(Run(w, steps[..|steps| - 1]), steps[|steps| - 1], i);
    }
  }

  /** Once an event was enqueued, enqueueing its key again adds nothing, in any later state of any
      run, whatever the new payload says. */
  lemma EnqueueIsIdempotent(w: World, i: Input, first: Id, steps: seq<Step>, again: Input, next: Id)
    requires EnqueueIn(w.store, i, first).Ok? && |again.payload| <= PAYLOAD_LIMIT
    requires again.key == i.key && again.channel == i.channel && again.owner == i.owner && again.tenant == i.tenant
    ensures var later := Run(w.(store := EnqueueIn(w.store, i, first).value), steps).store;
      EnqueueIn(later, again, next) == Ok(later)
  {
    var start := w.(store := EnqueueIn(w.store, i, first).value);
    if start != w { assert SameKey(start.store.items[|w.store.items|], again); }
    if k :| 0 <= k < |w.store.items| && SameKey(w.store.items[k], i) { assert SameKey(start.store.items[k], again); }
    RunKeepsKeys(start, steps, again);
  }
}
