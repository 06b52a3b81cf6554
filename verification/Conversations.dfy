/** The visible messages of src/conversations.ts: append-only revisions imported from rooms are
    folded into the messages they revise. */
module Conversations {
  import opened Basics

  datatype Origin = Origin(fromRoom: bool, target: Option<Id>, retracts: bool)

  datatype Message = Message(id: Id, text: string, origin: Option<Origin>)

  const RETRACTED := "\U{FF08}\U{5DF2}\U{64A4}\U{56DE}\U{FF09}"

  /** A revision from a room points at another message. */
  predicate Revises(m: Message) {
    m.origin.Some? && m.origin.value.fromRoom && m.origin.value.target.Some? && m.origin.value.target.value != m.id
  }

  function TextOf(m: Message): string
    requires Revises(m)
  {
    if m.origin.value.retracts then RETRACTED else m.text
  }

  function Revised(target: Message, m: Message): Message
    requires Revises(m)
  {
    target.(text := TextOf(m), origin := Some(m.origin.value.(target := Some(target.id))))
  }

  function Find(messages: seq<Message>, id: Id): (k: nat)
    ensures k <= |messages| && (k < |messages| ==> messages[k].id == id) && forall j :: 0 <= j < k ==> messages[j].id != id
  {
    if messages == [] then 0 else if messages[0].id == id then 0 else 1 + Find(messages[1..], id)
  }

  function Folded(visible: seq<Message>, m: Message): seq<Message> {
    if !Revises(m) then visible + [m]
    else
      var k := Find(visible, m.origin.value.target.value);
      if k == |visible| then visible else visible[k := Revised(visible[k], m)]
  }

  function Visible(messages: seq<Message>): seq<Message> {
    if messages == [] then [] else Folded(Visible(messages[..|messages| - 1]), messages[|messages| - 1])
  }

  method VisibleConversationMessages(messages: seq<Message>) returns (visible: seq<Message>)
    ensures visible == Visible(messages)
  {
    visible := [];
    for i := 0 to |messages|
      invariant visible == Visible(messages[..i])
    {
      assert messages[..i + 1][..i] == messages[..i];
      var m := messages[i];
      if Revises(m) {
        var k := Find(visible, m.origin.value.target.value);
        if k < |visible| { visible := visible[k := Revised(visible[k], m)]; }
      } else {
        visible := visible + [m];
      }
    }
    assert messages[..|messages|] == messages;
  }

  lemma {:induction false} VisibleNeverRevises(messages: seq<Message>)
    ensures forall i :: 0 <= i < |Visible(messages)| ==> !Revises(Visible(messages)[i])
  {
    if messages != [] { VisibleNeverRevises(messages[..|messages| - 1]); }
  }

  lemma {:induction false} PlainMessagesStay(messages: seq<Message>)
    requires forall i :: 0 <= i < |messages| ==> !Revises(messages[i])
    ensures Visible(messages) == messages
  {
    if messages != [] { PlainMessagesStay(messages[..|messages| - 1]); }
  }

  /** Folding the visible messages again changes nothing. */
  lemma VisibleIsIdempotent(messages: seq<Message>)
    ensures Visible(Visible(messages)) == Visible(messages)
  {
    VisibleNeverRevises(messages);
    PlainMessagesStay(Visible(messages));
  }

  /** The text of the last message that states or revises `id`, from position `from` on. */
  function LatestText(messages: seq<Message>, id: Id, from: nat): Option<string>
    requires from < |messages| && messages[from].id == id && !Revises(messages[from])
    decreases |messages|
  {
    var n := |messages| - 1;
    if from == n then Some(messages[n].text)
    else if Revises(messages[n]) && messages[n].origin.value.target.value == id then Some(TextOf(messages[n]))
    else LatestText(messages[..n], id, from)
  }

  ghost predicate UniqueIds(messages: seq<Message>) {
    forall i, j :: 0 <= i < j < |messages| && !Revises(messages[i]) && !Revises(messages[j]) ==> messages[i].id != messages[j].id
  }

  lemma {:induction false} VisibleIds(messages: seq<Message>, k: nat) returns (i: nat)
    requires k < |Visible(messages)|
    ensures i < |messages| && !Revises(messages[i]) && messages[i].id == Visible(messages)[k].id
  {
    var n := |messages| - 1;
    if k < |Visible(messages[..n])| { i := VisibleIds(messages[..n], k); } else { i := n; }
  }

  lemma FindIsFirst(messages: seq<Message>, k: nat)
    requires k < |messages| && forall j :: 0 <= j < k ==> messages[j].id != messages[k].id
    ensures Find(messages, messages[k].id) == k
  {}

  lemma NotYetVisible(messages: seq<Message>)
    requires messages != [] && UniqueIds(messages) && !Revises(messages[|messages| - 1])
    ensures var n := |messages| - 1;
      forall k :: 0 <= k < |Visible(messages[..n])| ==> Visible(messages[..n])[k].id != messages[n].id
  {
    var n := |messages| - 1;
    forall k | 0 <= k < |Visible(messages[..n])| ensures Visible(messages[..n])[k].id != messages[n].id {
      var i := VisibleIds(messages[..n], k);
      assert messages[i] == messages[..n][i];
    }
  }

  /** Appending or revising keeps every visible message at its place; only the revised one changes. */
  lemma FoldingKeepsPlaces(visible: seq<Message>, m: Message, id: Id)
    requires Find(visible, id) < |visible|
    ensures var k := Find(visible, id);
      && Find(Folded(visible, m), id) == k && k < |Folded(visible, m)|
      && Folded(visible, m)[k].text == (if Revises(m) && m.origin.value.target.value == id then TextOf(m) else visible[k].text)
  {
    var k, next := Find(visible, id), Folded(visible, m);
    assert forall j :: 0 <= j < |visible| ==> next[j].id == visible[j].id;
    FindIsFirst(next, k);
  }

  /** Every original message is visible once, with the text of its latest revision. */
  lemma {:induction false} VisibleShowsTheLatest(messages: seq<Message>, from: nat)
    requires UniqueIds(messages) && from < |messages| && !Revises(messages[from])
    ensures var id := messages[from].id; var k := Find(Visible(messages), id);
      k < |Visible(messages)| && Some(Visible(messages)[k].text) == LatestText(messages, id, from)
    decreases |messages|
  {
    var n, id := |messages| - 1, messages[from].id;
    var front := Visible(messages[..n]);
    if from == n {
      NotYetVisible(messages);
      FindIsFirst(front + [messages[n]], |front|);
    } else {
      VisibleShowsTheLatest(messages[..n], from);
      FoldingKeepsPlaces(front, messages[n], id);
    }
  }

  // ---------------------------------------------------------------- what exactly is visible

  /** The message revises or retracts the one with this id: it came from a room and points at it. */
  predicate PointsAt(m: Message, id: Id) {
    match m.origin
    case None => false
    case Some(origin) => origin.fromRoom && origin.target == Some(id) && id != m.id
  }

  /** The message stands for itself. */
  ghost predicate IsOriginal(m: Message) { forall id :: !PointsAt(m, id) }

  lemma OriginalMeans(m: Message)
    ensures IsOriginal(m) <==> !Revises(m)
  {
    if Revises(m) { assert PointsAt(m, m.origin.value.target.value); }
  }

  function IdsOf(messages: seq<Message>): seq<Id> { seq(|messages|, i requires 0 <= i < |messages| => messages[i].id) }

  /** The ids of the messages that stand for themselves, in order. */
  ghost function OriginalIds(messages: seq<Message>): seq<Id> {
    if messages == [] then []
    else OriginalIds(messages[..|messages| - 1]) + if IsOriginal(messages[|messages| - 1]) then [messages[|messages| - 1].id] else []
  }

  /** What is visible is the original messages, in their order. */
  lemma {:induction false} VisibleAreTheOriginals(messages: seq<Message>)
    ensures IdsOf(Visible(messages)) == OriginalIds(messages)
  {
    if messages != [] {
      VisibleAreTheOriginals(messages[..|messages| - 1]);
      OriginalMeans(messages[|messages| - 1]);
    }
  }

  /** The j-th message is the last after `from` that points at this id. */
  ghost predicate LastReviser(messages: seq<Message>, from: nat, j: nat, id: Id) {
    from < j < |messages| && PointsAt(messages[j], id) && forall l :: j < l < |messages| ==> !PointsAt(messages[l], id)
  }

  /** The original as it is now: untouched, or with the text and the origin of the last message that
      points at it, which a retraction replaces by a notice. */
  ghost predicate ShownAs(messages: seq<Message>, from: nat, shown: Message)
    requires from < |messages|
  {
    var m := messages[from];
    && (shown == m || exists j: nat {:trigger LastReviser(messages, from, j, m.id)} :: LastReviser(messages, from, j, m.id))
    && forall j: nat {:trigger LastReviser(messages, from, j, m.id)} :: LastReviser(messages, from, j, m.id) ==>
         var origin := messages[j].origin.value;
         shown == Message(m.id, if origin.retracts then RETRACTED else messages[j].text, Some(Origin(true, Some(m.id), origin.retracts)))
  }

  function After(shown: Message, m: Message, id: Id): Message {
    if PointsAt(m, id) then Message(id, if m.origin.value.retracts then RETRACTED else m.text, Some(Origin(true, Some(id), m.origin.value.retracts)))
    else shown
  }

  lemma FoldingShows(visible: seq<Message>, m: Message, id: Id)
    requires Find(visible, id) < |visible|
    ensures var k := Find(visible, id);
      && Find(Folded(visible, m), id) == k && k < |Folded(visible, m)|
      && Folded(visible, m)[k] == After(visible[k], m, id)
  {
    FoldingKeepsPlaces(visible, m, id);
  }

  lemma LastReviserOfPrefix(messages: seq<Message>, from: nat, j: nat, id: Id)
    requires messages != [] && from < |messages| - 1
    ensures LastReviser(messages, from, j, id) <==>
      if PointsAt(messages[|messages| - 1], id) then j == |messages| - 1 else LastReviser(messages[..|messages| - 1], from, j, id)
  {}

  lemma ShownStep(messages: seq<Message>, from: nat, shown: Message)
    requires messages != [] && from < |messages| - 1 && ShownAs(messages[..|messages| - 1], from, shown)
    ensures ShownAs(messages, from, After(shown, messages[|messages| - 1], messages[from].id))
  {
    var n: nat, id := |messages| - 1, messages[from].id;
    var next := After(shown, messages[n], id);
    forall j: nat ensures LastReviser(messages, from, j, id) <==>
      if PointsAt(messages[n], id) then j == n else LastReviser(messages[..n], from, j, id)
    {
      LastReviserOfPrefix(messages, from, j, id);
    }
    if PointsAt(messages[n], id) {
      assert LastReviser(messages, from, n, id);
    } else if next != messages[from] {
      var j: nat :| LastReviser(messages[..n], from, j, id);
      assert LastReviser(messages, from, j, id);
    }
  }

  /** Every original message is visible as it was last revised. */
  lemma {:induction false} VisibleShowsExactly(messages: seq<Message>, from: nat)
    requires UniqueIds(messages) && from < |messages| && IsOriginal(messages[from])
    ensures var k := Find(Visible(messages), messages[from].id);
      k < |Visible(messages)| && ShownAs(messages, from, Visible(messages)[k])
    decreases |messages|
  {
    var n, id := |messages| - 1, messages[from].id;
    var front := Visible(messages[..n]);
    OriginalMeans(messages[from]);
    if from == n {
      NotYetVisible(messages);
      FindIsFirst(front + [messages[n]], |front|);
    } else {
      VisibleShowsExactly(messages[..n], from);
      FoldingShows(front, messages[n], id);
      ShownStep(messages, from, front[Find(front, id)]);
    }
  }
}
