/** The daemon host's subscriber registry: who receives which committed value. Every operation here
    runs as one critical section of the host data lock. */
module HostBroadcast {
  import opened ModelTypes
  import opened SessionTypes

  type ConnectionId = nat

  const SUBSCRIBER_QUEUE_CAPACITY: nat := 64

  datatype Snapshot = Snapshot(rows: seq<MessageRow>, run: Option<RunProjection>)

  datatype Message =
    | Reply(requestId: nat, snapshot: Snapshot)
    | Rejection(requestId: nat)
    | Frame(frame: SessionFrame)

  /** A connection's bounded queue. `gone` says that its receiver was dropped, `close` that the
      connection was told to end. */
  datatype Outbox = Outbox(queue: seq<Message>, gone: bool, close: bool)

  predicate CanSend(outbox: Outbox) {
    !outbox.gone && |outbox.queue| < SUBSCRIBER_QUEUE_CAPACITY
  }

  function Send(outbox: Outbox, message: Message): Outbox {
    if CanSend(outbox) then outbox.(queue := outbox.queue + [message]) else outbox.(close := true)
  }

  datatype Subscriber = Subscriber(connection: ConnectionId, watermark: Option<MessageRow>)

  // ----------------------------------------------- one message, one subscriber

  /** The first content frame of a subscription uses its watermark up. */
  function WatermarkAfter(watermark: Option<MessageRow>, message: Message): Option<MessageRow> {
    if message.Frame? && message.frame.Content? then None else watermark
  }

  /** The frame repeats the newest row of the subscription's snapshot. */
  predicate IsRepeat(watermark: Option<MessageRow>, message: Message) {
    message.Frame? && message.frame.Content? && watermark == Some(message.frame.row)
  }

  predicate StaysSubscribed(outbox: Outbox, watermark: Option<MessageRow>, message: Message) {
    IsRepeat(watermark, message) || CanSend(outbox)
  }

  function OutboxAfter(outbox: Outbox, watermark: Option<MessageRow>, message: Message): Outbox {
    if IsRepeat(watermark, message) then outbox else Send(outbox, message)
  }

  // ---------------------------------------------------------- subscriber lists

  predicate DistinctConnections(list: seq<Subscriber>) {
    forall i, j :: 0 <= i < j < |list| ==> list[i].connection != list[j].connection
  }

  function SwapRemove(list: seq<Subscriber>, index: nat): (rest: seq<Subscriber>)
    requires index < |list|
    ensures |rest| == |list| - 1 && rest[..index] == list[..index]
  {
    list[index := list[|list| - 1]][..|list| - 1]
  }

  function Members(list: seq<Subscriber>): set<Subscriber> {
    set s | s in list
  }

  lemma SwapRemoveTakesOne(list: seq<Subscriber>, index: nat)
    requires DistinctConnections(list) && index < |list|
    ensures var rest := SwapRemove(list, index);
            && DistinctConnections(rest)
            && Members(rest[index..]) == Members(list[index..]) - {list[index]}
  {
    var rest := SwapRemove(list, index);
    forall s ensures s in Members(rest[index..]) <==> s in Members(list[index..]) - {list[index]} {
      if s in Members(rest[index..]) {
        var k :| 0 <= k < |rest[index..]| && rest[index..][k] == s;
        assert s == list[if k == 0 then |list| - 1 else index + k];
        assert s in list[index..];
      }
      if s in Members(list[index..]) - {list[index]} {
        var k :| 0 <= k < |list[index..]| && list[index..][k] == s;
        assert k > 0 && s == list[index + k];
        assert s == rest[index..][if index + k == |list| - 1 then 0 else k];
      }
    }
  }

  lemma NextTakesOne(list: seq<Subscriber>, index: nat, updated: Subscriber)
    requires DistinctConnections(list) && index < |list| && updated.connection == list[index].connection
    ensures var rest := list[index := updated];
            && DistinctConnections(rest)
            && Members(rest[index + 1..]) == Members(list[index..]) - {list[index]}
            && Members(rest[..index + 1]) == Members(list[..index]) + {updated}
  {
    var rest := list[index := updated];
    assert rest[index + 1..] == list[index + 1..];
    assert list[index..] == [list[index]] + list[index + 1..];
    assert rest[..index + 1] == list[..index] + [updated];
    assert list[index] !in list[index + 1..];
  }

  lemma SameConnectionSameSubscriber(list: seq<Subscriber>, a: Subscriber, b: Subscriber)
    requires DistinctConnections(list) && a in list && b in list && a.connection == b.connection
    ensures a == b
  {
  }

  /** The list without one connection's registration. */
  function Without(list: seq<Subscriber>, connection: ConnectionId): seq<Subscriber> {
    if list == [] then []
    else (if list[0].connection == connection then [] else [list[0]]) + Without(list[1..], connection)
  }

  lemma {:induction false} WithoutRemovesOnlyThat(list: seq<Subscriber>, connection: ConnectionId)
    ensures forall s :: s in Without(list, connection) <==> s in list && s.connection != connection
    ensures DistinctConnections(list) ==> DistinctConnections(Without(list, connection))
  {
    if list == [] {
    } else {
      var rest := Without(list[1..], connection);
      WithoutRemovesOnlyThat(list[1..], connection);
      assert list == [list[0]] + list[1..];
      assert forall k :: 0 <= k < |rest| ==> rest[k] in rest;
    }
  }

  lemma WithoutStep(list: seq<Subscriber>, index: nat, connection: ConnectionId)
    requires index < |list|
    ensures Without(list[index..], connection) ==
              (if list[index].connection == connection then [] else [list[index]]) + Without(list[index + 1..], connection)
  {
    assert list[index..][1..] == list[index + 1..];
  }

  /** Walks the list backwards, removing in place. */
  method TakeRegistration(list: seq<Subscriber>, connection: ConnectionId)
    returns (rest: seq<Subscriber>, removed: Option<Subscriber>)
    ensures rest == Without(list, connection)
    ensures removed.Some? <==> Serves(Members(list), connection)
    ensures removed.Some? ==> removed.value in list && removed.value.connection == connection
  {
    assert list[|list|..] == [];
    rest := list;
    removed := None;
    var index := |list|;
    assert rest == list[..index] + Without(list[index..], connection);
    hide Without, Members, Serves;
    while index > 0
      invariant 0 <= index <= |list|
      invariant rest == list[..index] + Without(list[index..], connection)
      invariant removed.Some? <==> Serves(Members(list[index..]), connection)
      invariant removed.Some? ==> removed.value in list && removed.value.connection == connection
    {
      index := index - 1;
      WithoutStep(list, index, connection);
      assert rest[index] == list[index];
      ServesOneMore(list, index, connection);
      if rest[index].connection == connection {
        removed := Some(rest[index]);
        rest := rest[..index] + rest[index + 1..];
      }
    }
    assert list[..0] == [] && list[0..] == list;
  }

  lemma ServesOneMore(list: seq<Subscriber>, index: nat, connection: ConnectionId)
    requires index < |list|
    ensures Serves(Members(list[index..]), connection) <==>
              list[index].connection == connection || Serves(Members(list[index + 1..]), connection)
  {
    assert list[index..] == [list[index]] + list[index + 1..];
    assert Members(list[index..]) == {list[index]} + Members(list[index + 1..]);
    if Serves(Members(list[index + 1..]), connection) {
      var s :| s in Members(list[index + 1..]) && s.connection == connection;
      assert s in Members(list[index..]);
    }
    assert list[index] in Members(list[index..]);
  }

  // ------------------------------------------------------------------ registry

  predicate IsList(list: seq<Subscriber>, outboxes: map<ConnectionId, Outbox>) {
    && list != [] && DistinctConnections(list)
    && forall s :: s in list ==> s.connection in outboxes
  }

  predicate Serves(who: set<Subscriber>, c: ConnectionId) {
    exists s :: s in who && s.connection == c
  }

  function Left(s: Subscriber, message: Message): Subscriber {
    Subscriber(s.connection, WatermarkAfter(s.watermark, message))
  }

  predicate Keeps(s: Subscriber, outboxes: map<ConnectionId, Outbox>, message: Message) {
    s.connection in outboxes && StaysSubscribed(outboxes[s.connection], s.watermark, message)
  }

  /** The subscribers that stay, of those a message was offered to. */
  function Stay(offered: set<Subscriber>, outboxes: map<ConnectionId, Outbox>, message: Message): set<Subscriber> {
    set s | s in offered && Keeps(s, outboxes, message) :: Left(s, message)
  }

  /** Everyone the message was offered to got it once, and nobody else's queue was touched. */
  ghost predicate Delivered(after: map<ConnectionId, Outbox>, offered: set<Subscriber>,
                            before: map<ConnectionId, Outbox>, message: Message) {
    && after.Keys == before.Keys
    && (forall s :: s in offered ==>
          && s.connection in before
          && after[s.connection] == OutboxAfter(before[s.connection], s.watermark, message))
    && forall c :: c in before && !Serves(offered, c) ==> after[c] == before[c]
  }

  lemma OneMoreStays(offered: set<Subscriber>, one: Subscriber, outboxes: map<ConnectionId, Outbox>, message: Message)
    ensures Stay(offered + {one}, outboxes, message) ==
              Stay(offered, outboxes, message) + (if Keeps(one, outboxes, message) then {Left(one, message)} else {})
  {
  }

  lemma OneMoreDelivered(boxes: map<ConnectionId, Outbox>, offered: set<Subscriber>, one: Subscriber,
                         outboxes: map<ConnectionId, Outbox>, message: Message)
    requires Delivered(boxes, offered, outboxes, message)
    requires one.connection in outboxes && !Serves(offered, one.connection)
    ensures boxes[one.connection] == outboxes[one.connection]
    ensures Delivered(boxes[one.connection := OutboxAfter(outboxes[one.connection], one.watermark, message)],
                      offered + {one}, outboxes, message)
  {
    hide OutboxAfter;
    var all := offered + {one};
    assert one in all;
    forall c | c in outboxes && !Serves(all, c) ensures !Serves(offered, c) && c != one.connection {
      assert forall s :: s in offered ==> s in all;
    }
    forall s | s in offered ensures s.connection != one.connection {
    }
  }

  class Host {
    var subscribers: map<SessionId, seq<Subscriber>>
    var outboxes: map<ConnectionId, Outbox>

    constructor ()
      ensures Valid() && subscribers == map[] && outboxes == map[]
    {
      subscribers, outboxes := map[], map[];
    }

    /** Every list is of distinct known connections, and no session keeps an empty one. */
    ghost predicate Valid()
      reads this
    {
      forall session :: session in subscribers ==> IsList(subscribers[session], outboxes)
    }

    function Listed(session: SessionId): seq<Subscriber>
      reads this`subscribers
    {
      if session in subscribers then subscribers[session] else []
    }

    /** Whether anyone follows the session: an empty list is never kept. */
    predicate HasSubscribers(session: SessionId): (followed: bool)
      requires Valid()
      reads this
      ensures followed <==> Listed(session) != []
    {
      session in subscribers
    }

    /** Queues one message for every subscriber of one session. Every subscriber is offered the
        message once, whatever happens to the others; who cannot take it is told to end and leaves
        the registry; nobody else is touched. */
    method Broadcast(session: SessionId, message: Message)
      requires Valid()
      modifies this
      ensures Valid()
      ensures Members(Listed(session)) == Stay(Members(old(Listed(session))), old(outboxes), message)
      ensures Delivered(outboxes, Members(old(Listed(session))), old(outboxes), message)
      ensures forall other :: other != session ==> Listed(other) == old(Listed(other))
    {
      hide Stay, Delivered;
      if session !in subscribers {
        NobodyOffered(outboxes, message);
        return;
      }
      var list: seq<Subscriber>, boxes: map<ConnectionId, Outbox> := subscribers[session], outboxes;
      ghost var whole, offered := Members(list), {};
      NobodyOffered(outboxes, message);
      var index := 0;
      while index < |list|
        invariant 0 <= index <= |list| && DistinctConnections(list)
        invariant Members(list[index..]) == whole - offered && offered <= whole
        invariant Members(list[..index]) == Stay(offered, outboxes, message)
        invariant Delivered(boxes, offered, outboxes, message) && boxes.Keys == outboxes.Keys
        decreases |list| - index
        modifies {}
      {
        var one := list[index];
        OnlyTheRest(subscribers[session], outboxes, list, index, offered);
        OneMoreStays(offered, one, outboxes, message);
        OneMoreDelivered(boxes, offered, one, outboxes, message);
        var outbox := boxes[one.connection];
        var watermark := WatermarkAfter(one.watermark, message);
        ghost var before := list;
        if IsRepeat(one.watermark, message) {
          list := list[index := Subscriber(one.connection, watermark)];
          NextTakesOne(before, index, list[index]);
          index := index + 1;
        } else if CanSend(outbox) {
          list := list[index := Subscriber(one.connection, watermark)];
          NextTakesOne(before, index, list[index]);
          index := index + 1;
        } else {
          list := SwapRemove(list, index);
          SwapRemoveTakesOne(before, index);
        }
        boxes := boxes[one.connection := OutboxAfter(outbox, one.watermark, message)];
        offered := offered + {one};
      }
      assert list[..index] == list && list[index..] == [] && offered == whole;
      WhoStaysIsKnown(list, offered, outboxes, message);
      subscribers := if list == [] then subscribers - {session} else subscribers[session := list];
      outboxes := boxes;
    }

    /** Removes one connection's registration from one session. */
    method RemoveSubscriber(session: SessionId, connection: ConnectionId)
      requires Valid()
      modifies this`subscribers
      ensures Valid()
      ensures Listed(session) == Without(old(Listed(session)), connection)
      ensures forall other: SessionId :: other != session ==> Listed(other) == old(Listed(other))
    {
      if session !in subscribers {
        return;
      }
      WithoutRemovesOnlyThat(subscribers[session], connection);
      var rest, removed := TakeRegistration(subscribers[session], connection);
      subscribers := if rest == [] then subscribers - {session} else subscribers[session := rest];
    }

    method AddSubscriber(session: SessionId, subscriber: Subscriber)
      requires Valid() && subscriber.connection in outboxes
      requires !Serves(Members(Listed(session)), subscriber.connection)
      modifies this`subscribers
      ensures Valid()
      ensures Listed(session) == old(Listed(session)) + [subscriber]
      ensures forall other: SessionId :: other != session ==> Listed(other) == old(Listed(other))
    {
      AddingKeepsDistinct(Listed(session), subscriber);
      subscribers := subscribers[session := Listed(session) + [subscriber]];
    }

    /** The connection is listed nowhere but under its previous session. */
    predicate OnlyUnder(connection: ConnectionId, session: SessionId, previous: Option<SessionId>)
      reads this`subscribers
    {
      Serves(Members(Listed(session)), connection) ==> previous == Some(session)
    }

    /** The reply is queued before the subscriber is registered, and the connection's previous
        registration goes only once the new one stands: a refused attempt changes no list. */
    method RegisterSubscriber(session: SessionId, connection: ConnectionId, requestId: nat, loaded: Option<Snapshot>,
                              previous: Option<SessionId>) returns (registered: bool)
      requires Valid() && connection in outboxes
      requires forall other: SessionId :: OnlyUnder(connection, other, previous)
      modifies this
      ensures Valid()
      ensures registered <==> loaded.Some? && CanSend(old(outboxes[connection]))
      ensures outboxes == old(outboxes)[connection := Send(old(outboxes[connection]), Answer(requestId, loaded))]
      ensures !registered ==> subscribers == old(subscribers)
      ensures registered ==>
                Listed(session) == Without(old(Listed(session)), connection) + [Subscriber(connection, NewestRow(loaded.value.rows))]
      ensures registered ==>
                forall other: SessionId :: other != session ==> Listed(other) == Without(old(Listed(other)), connection)
    {
      hide Without, Serves, Members, IsList;
      var outbox := outboxes[connection];
      if loaded.None? {
        KnownStays(connection, Send(outbox, Rejection(requestId)));
        outboxes := outboxes[connection := Send(outbox, Rejection(requestId))];
        return false;
      }
      var watermark := NewestRow(loaded.value.rows);
      KnownStays(connection, Send(outbox, Reply(requestId, loaded.value)));
      if !CanSend(outbox) {
        outboxes := outboxes[connection := outbox.(close := true)];
        return false;
      }
      outboxes := outboxes[connection := Send(outbox, Reply(requestId, loaded.value))];
      NowhereElse(connection, previous);
      if previous.Some? {
        RemovedIsGone(Listed(previous.value), connection);
        RemoveSubscriber(previous.value, connection);
      }
      AddSubscriber(session, Subscriber(connection, watermark));
      return true;
    }

    lemma KnownStays(connection: ConnectionId, outbox: Outbox)
      requires Valid() && connection in outboxes
      ensures forall session :: session in subscribers ==> IsList(subscribers[session], outboxes[connection := outbox])
    {
    }

    lemma NowhereElse(connection: ConnectionId, previous: Option<SessionId>)
      requires forall other: SessionId :: OnlyUnder(connection, other, previous)
      ensures forall other: SessionId :: previous != Some(other) ==>
                && !Serves(Members(Listed(other)), connection)
                && Without(Listed(other), connection) == Listed(other)
    {
      forall other: SessionId | previous != Some(other)
        ensures !Serves(Members(Listed(other)), connection) && Without(Listed(other), connection) == Listed(other)
      {
        assert OnlyUnder(connection, other, previous);
        WithoutNobody(Listed(other), connection);
      }
    }
  }

  function Answer(requestId: nat, loaded: Option<Snapshot>): Message {
    if loaded.Some? then Reply(requestId, loaded.value) else Rejection(requestId)
  }

  lemma RemovedIsGone(list: seq<Subscriber>, connection: ConnectionId)
    ensures !Serves(Members(Without(list, connection)), connection)
  {
    WithoutRemovesOnlyThat(list, connection);
  }

  function NewestRow(rows: seq<MessageRow>): Option<MessageRow> {
    if rows == [] then None else Some(rows[|rows| - 1])
  }

  lemma {:induction false} WithoutNobody(list: seq<Subscriber>, connection: ConnectionId)
    requires !Serves(Members(list), connection)
    ensures Without(list, connection) == list
  {
    if list == [] {
    } else {
      assert list[0] in Members(list);
      assert forall s :: s in Members(list[1..]) ==> s in Members(list);
      WithoutNobody(list[1..], connection);
    }
  }

  lemma AddingKeepsDistinct(list: seq<Subscriber>, subscriber: Subscriber)
    requires DistinctConnections(list) && !Serves(Members(list), subscriber.connection)
    ensures DistinctConnections(list + [subscriber])
  {
    assert forall i :: 0 <= i < |list| ==> list[i] in Members(list);
  }

  lemma NobodyOffered(outboxes: map<ConnectionId, Outbox>, message: Message)
    ensures Stay({}, outboxes, message) == {} && Delivered(outboxes, {}, outboxes, message)
    ensures Members([]) == {}
  {
  }

  lemma WhoStaysIsKnown(list: seq<Subscriber>, offered: set<Subscriber>, outboxes: map<ConnectionId, Outbox>, message: Message)
    requires Members(list) == Stay(offered, outboxes, message)
    ensures forall s :: s in list ==> s.connection in outboxes
  {
    forall s | s in list ensures s.connection in outboxes {
      assert s in Members(list);
    }
  }

  /** The next subscriber in line was not offered the message yet, nor was its connection. */
  lemma OnlyTheRest(whole: seq<Subscriber>, outboxes: map<ConnectionId, Outbox>, list: seq<Subscriber>, index: nat,
                    offered: set<Subscriber>)
    requires IsList(whole, outboxes) && index < |list|
    requires Members(list[index..]) == Members(whole) - offered && offered <= Members(whole)
    ensures list[index] in Members(whole) && list[index].connection in outboxes
    ensures !Serves(offered, list[index].connection)
  {
    assert list[index..][0] == list[index];
    assert list[index] in Members(list[index..]);
    forall s | s in offered ensures s.connection != list[index].connection {
      if s.connection == list[index].connection {
        SameConnectionSameSubscriber(whole, s, list[index]);
      }
    }
  }

  lemma WithoutServesTheOthers(list: seq<Subscriber>, connection: ConnectionId, c: ConnectionId)
    ensures Serves(Members(Without(list, connection)), c) <==> Serves(Members(list), c) && c != connection
  {
    WithoutRemovesOnlyThat(list, connection);
    if Serves(Members(list), c) && c != connection {
      var s :| s in Members(list) && s.connection == c;
      assert s in Members(Without(list, connection));
    }
  }

  /** A message never registers anybody. */
  lemma BroadcastOnlyRemoves(offered: set<Subscriber>, outboxes: map<ConnectionId, Outbox>, message: Message, c: ConnectionId)
    requires Serves(Stay(offered, outboxes, message), c)
    ensures Serves(offered, c)
  {
    var s :| s in Stay(offered, outboxes, message) && s.connection == c;
    var b :| b in offered && Left(b, message) == s;
    assert Left(b, message).connection == b.connection;
  }

  // --------------------------------------------------------------------- guard

  /** The one registration of one connection. */
  class SubscriptionGuard {
    const host: Host
    const connection: ConnectionId
    var registered: Option<SessionId>

    constructor (host: Host, connection: ConnectionId)
      requires forall session: SessionId :: !Serves(Members(host.Listed(session)), connection)
      ensures this.host == host && this.connection == connection && registered.None? && Owns()
    {
      this.host := host;
      this.connection := connection;
      registered := None;
    }

    /** The connection is listed under no session but the one the guard knows. */
    ghost predicate Owns()
      reads this, host
    {
      forall session: SessionId :: host.OnlyUnder(connection, session, registered)
    }

    /** A refused attempt leaves the registration it has; a confirmed one replaces it. */
    method Subscribe(session: SessionId, requestId: nat, loaded: Option<Snapshot>)
      requires Owns() && host.Valid() && connection in host.outboxes
      modifies this, host
      ensures Owns() && host.Valid()
      ensures host.outboxes == old(host.outboxes)[connection :=
                Send(old(host.outboxes[connection]), Answer(requestId, loaded))]
      ensures loaded.None? || !CanSend(old(host.outboxes[connection])) ==>
                registered == old(registered) && host.subscribers == old(host.subscribers)
      ensures loaded.Some? && CanSend(old(host.outboxes[connection])) ==>
                && registered == Some(session)
                && host.Listed(session) ==
                     Without(old(host.Listed(session)), connection) + [Subscriber(connection, NewestRow(loaded.value.rows))]
                && forall other: SessionId :: other != session ==>
                     host.Listed(other) == Without(old(host.Listed(other)), connection)
    {
      hide Serves, Members, Without, IsList, NewestRow;
      var confirmed := host.RegisterSubscriber(session, connection, requestId, loaded, registered);
      if confirmed {
        registered := Some(session);
        forall other: SessionId ensures host.OnlyUnder(connection, other, registered) {
          WithoutServesTheOthers(old(host.Listed(other)), connection, connection);
        }
      }
    }

    /** Removes the registration, if any; a second call does nothing. */
    method Clear()
      requires Owns() && host.Valid()
      modifies this, host`subscribers
      ensures host.Valid() && registered.None?
      ensures forall session: SessionId :: host.Listed(session) == Without(old(host.Listed(session)), connection)
      ensures forall session: SessionId :: !Serves(Members(host.Listed(session)), connection)
    {
      hide Serves, Members, Without, IsList;
      host.NowhereElse(connection, registered);
      if registered.Some? {
        host.RemoveSubscriber(registered.value, connection);
        registered := None;
      }
      forall session: SessionId ensures !Serves(Members(host.Listed(session)), connection) {
        WithoutServesTheOthers(old(host.Listed(session)), connection, connection);
      }
    }
  }
}
