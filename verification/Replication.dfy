/** One session's committed rows on their way to one subscriber: committing, publishing, registering
    and draining interleave freely, each step under the host data lock. What a broadcast does to
    this subscriber is what `HostBroadcast.Host.Broadcast` does to each of its subscribers. */
module Replication {
  import opened ModelTypes
  import opened SessionTypes
  import opened TranscriptRows
  import opened HostBroadcast
  import opened SnapshotBudget

  const SESSION_SNAPSHOT_MESSAGES: nat := 256

  /** The subscription: its snapshot carried the rows `first .. committed` of the log while
      `published` rows had been published, and `seen` were published when it was last offered one.
      `stream` is everything queued for it, the reply first; `open` ends when it overflows. */
  datatype Subscription = Subscription(
    first: nat,
    committed: nat,
    published: nat,
    seen: nat,
    watermark: Option<MessageRow>,
    open: bool,
    earlier: seq<Message>,
    stream: seq<Message>,
    taken: seq<Message>)

  datatype State = State(log: seq<MessageRow>, published: nat, outbox: Outbox, subscription: Option<Subscription>)

  const INITIAL := State([], 0, Outbox([], false, false), None)

  datatype Action =
    | Commit(row: MessageRow)
    | Publish
    | Broadcast(frame: SessionFrame)
    | Register(requestId: nat, first: nat, run: Option<RunProjection>)
    | Drain
    | PeerLeaves

  predicate Enabled(s: State, action: Action) {
    match action
    case Commit(row) => s.log == [] || s.log[|s.log| - 1].id < row.id
    case Publish => s.published < |s.log|
    case Broadcast(frame) => !frame.Content?
    // A snapshot is a newest suffix of the log, with the newest row whatever its size.
    case Register(_, first, _) => first <= |s.log| && (s.log != [] ==> first < |s.log|)
    case Drain => s.outbox.queue != []
    case PeerLeaves => true
  }

  /** A message to every subscriber, as this one is offered it. */
  function Offered(s: State, message: Message, published: nat): State {
    if s.subscription.None? || !s.subscription.value.open then s.(published := published)
    else
      var sub := s.subscription.value;
      var delivered := !IsRepeat(sub.watermark, message) && CanSend(s.outbox);
      var stays := StaysSubscribed(s.outbox, sub.watermark, message);
      s.(published := published,
         outbox := OutboxAfter(s.outbox, sub.watermark, message),
         subscription := Some(sub.(
             watermark := WatermarkAfter(sub.watermark, message),
             open := stays,
             seen := if stays then published else sub.seen,
             stream := if delivered then sub.stream + [message] else sub.stream)))
  }

  function Registered(s: State, requestId: nat, first: nat, run: Option<RunProjection>): State
    requires first <= |s.log|
  {
    var reply := Reply(requestId, Snapshot(s.log[first..], run));
    if !CanSend(s.outbox) then s.(outbox := Send(s.outbox, reply))
    else
      s.(outbox := Send(s.outbox, reply),
         subscription := Some(Subscription(first, |s.log|, s.published, s.published, NewestRow(s.log[first..]), true,
                                           s.outbox.queue, [reply], [])))
  }

  function Drained(s: State): State
    requires s.outbox.queue != []
  {
    var rest := s.(outbox := s.outbox.(queue := s.outbox.queue[1..]));
    if s.subscription.None? then rest
    else rest.(subscription := Some(s.subscription.value.(taken := s.subscription.value.taken + [s.outbox.queue[0]])))
  }

  function Next(s: State, action: Action): State
    requires Enabled(s, action)
  {
    match action
    case Commit(row) => s.(log := s.log + [row])
    case Publish => Offered(s, Frame(Content(s.log[s.published])), s.published + 1)
    case Broadcast(frame) => Offered(s, Frame(frame), s.published)
    case Register(requestId, first, run) => Registered(s, requestId, first, run)
    case Drain => Drained(s)
    case PeerLeaves => s.(outbox := s.outbox.(gone := true))
  }

  function StateAfter(actions: seq<Action>): Option<State> {
    if actions == [] then Some(INITIAL)
    else
      var before := StateAfter(actions[..|actions| - 1]);
      if before.None? || !Enabled(before.value, actions[|actions| - 1]) then None
      else Some(Next(before.value, actions[|actions| - 1]))
  }

  // ------------------------------------------------------- these are its steps

  /** A broadcast of the host is this step: for a subscriber listed with this watermark and queue,
      what the host leaves of the queue, of the watermark and of the listing is what `Offered` says. */
  lemma TheHostOffersTheSame(
    list: seq<Subscriber>, before: map<ConnectionId, Outbox>, after: map<ConnectionId, Outbox>,
    c: ConnectionId, s: State, message: Message, published: nat)
    requires DistinctConnections(list) && s.subscription.Some? && s.subscription.value.open
    requires Subscriber(c, s.subscription.value.watermark) in list && c in before && before[c] == s.outbox
    requires Delivered(after, Members(list), before, message)
    ensures var next := Offered(s, message, published);
            var stay := Stay(Members(list), before, message);
            && c in after && after[c] == next.outbox
            && (Serves(stay, c) <==> next.subscription.value.open)
            && (next.subscription.value.open ==> Subscriber(c, next.subscription.value.watermark) in stay)
  {
    var one := Subscriber(c, s.subscription.value.watermark);
    var stay := Stay(Members(list), before, message);
    assert one in Members(list);
    if Keeps(one, before, message) {
      assert Left(one, message) in stay;
    }
    if Serves(stay, c) {
      var kept :| kept in stay && kept.connection == c;
      var b :| b in Members(list) && Keeps(b, before, message) && Left(b, message) == kept;
      SameConnectionSameSubscriber(list, one, b);
    }
  }

  /** A registration of the host is this step: what `HostBroadcast.Host.RegisterSubscriber` leaves of
      the connection's queue and of the session's list is what `Registered` says - the reply queued,
      this connection listed once, with the watermark of its snapshot - or nothing is listed anew. */
  lemma TheHostRegistersTheSame(
    list: seq<Subscriber>, listed: seq<Subscriber>, before: map<ConnectionId, Outbox>, after: map<ConnectionId, Outbox>,
    registered: bool, c: ConnectionId, s: State, requestId: nat, first: nat, run: Option<RunProjection>)
    requires DistinctConnections(list) && c in before && before[c] == s.outbox && first <= |s.log|
    requires registered <==> CanSend(before[c])
    requires after == before[c := Send(before[c], Answer(requestId, Some(Snapshot(s.log[first..], run))))]
    requires listed == if registered then Without(list, c) + [Subscriber(c, NewestRow(s.log[first..]))] else list
    ensures var next := Registered(s, requestId, first, run);
            && after[c] == next.outbox
            && (!registered ==> next.subscription == s.subscription && listed == list)
            && (registered ==>
                && next.subscription.Some? && next.subscription.value.open
                && next.subscription.value.stream == [Answer(requestId, Some(Snapshot(s.log[first..], run)))]
                && DistinctConnections(listed)
                && forall one :: one in listed && one.connection == c <==>
                                 one == Subscriber(c, next.subscription.value.watermark))
  {
    WithoutRemovesOnlyThat(list, c);
    if registered {
      AddingKeepsDistinct(Without(list, c), Subscriber(c, NewestRow(s.log[first..])));
    }
  }

  /** A registration reads the newest rows that fit: a suffix of the log that keeps the newest row. */
  lemma ASnapshotCanRegister(s: State, k: nat, budget: nat, encodedBytes: MessageRow -> Option<nat>,
                             requestId: nat, run: Option<RunProjection>) returns (first: nat)
    requires IsLongest(Last(s.log, SESSION_SNAPSHOT_MESSAGES), k, budget, encodedBytes)
    requires s.log != [] ==> encodedBytes(s.log[|s.log| - 1]).Some?
    ensures first <= |s.log| && Last(s.log, SESSION_SNAPSHOT_MESSAGES)[k..] == s.log[first..]
    ensures Enabled(s, Register(requestId, first, run))
  {
    var recent := Last(s.log, SESSION_SNAPSHOT_MESSAGES);
    first := |s.log| - (|recent| - k);
    assert s.log != [] ==> recent[|recent| - 1] == s.log[|s.log| - 1];
    OnlyALoneRowMayExceed(recent, k, budget, encodedBytes);
  }

  // --------------------------------------------------------- what is received

  function FrameRows(messages: seq<Message>): seq<MessageRow> {
    if messages == [] then []
    else
      var last := messages[|messages| - 1];
      FrameRows(messages[..|messages| - 1]) +
      (if last.Frame? && last.frame.Content? then [last.frame.row] else [])
  }

  /** All rows a subscriber was sent: its snapshot's, then those of its content frames. */
  function Received(sub: Subscription): seq<MessageRow> {
    (if sub.stream != [] && sub.stream[0].Reply? then sub.stream[0].snapshot.rows else []) +
    FrameRows(sub.stream)
  }

  /** How many rows were committed but not published when the subscription registered. */
  function Unpublished(sub: Subscription): int {
    sub.committed - sub.published
  }

  /** The first row whose frame is not suppressed. */
  function FirstFrame(sub: Subscription): nat {
    if sub.published + 1 == sub.committed then sub.committed else sub.published
  }

  function FramesOf(log: seq<MessageRow>, sub: Subscription): seq<MessageRow>
    requires sub.seen <= |log|
  {
    if FirstFrame(sub) <= sub.seen then log[FirstFrame(sub)..sub.seen] else []
  }

  predicate InBounds(s: State, sub: Subscription) {
    && sub.first <= sub.committed <= |s.log| && (sub.committed > 0 ==> sub.first < sub.committed)
    && sub.published <= sub.committed && sub.published <= sub.seen <= s.published <= |s.log|
    && (sub.open ==> sub.seen == s.published)
  }

  predicate ReplyFirst(stream: seq<Message>, rows: seq<MessageRow>) {
    && stream != [] && stream[0].Reply? && stream[0].snapshot.rows == rows
    && forall i :: 0 < i < |stream| ==> stream[i].Frame?
  }

  predicate InOrder(sub: Subscription, queue: seq<Message>) {
    sub.taken + queue == sub.earlier + sub.stream
  }

  predicate Follows(s: State, sub: Subscription)
    requires InBounds(s, sub)
  {
    && (sub.open ==>
          sub.watermark == if sub.seen == sub.published then NewestRow(s.log[sub.first..sub.committed]) else None)
    && ReplyFirst(sub.stream, s.log[sub.first..sub.committed])
    && FrameRows(sub.stream) == FramesOf(s.log, sub)
    && InOrder(sub, s.outbox.queue)
    && (!sub.open ==> s.outbox.close)
  }

  predicate Inv(s: State) {
    && Ascending(s.log) && s.published <= |s.log|
    && (s.subscription.Some? ==> InBounds(s, s.subscription.value) && Follows(s, s.subscription.value))
  }

  lemma FrameRowsPush(messages: seq<Message>, message: Message)
    ensures FrameRows(messages + [message]) ==
              FrameRows(messages) + (if message.Frame? && message.frame.Content? then [message.frame.row] else [])
  {
    assert (messages + [message])[..|messages|] == messages;
  }

  lemma OneMessageMore(sub: Subscription, queue: seq<Message>, rows: seq<MessageRow>, frame: SessionFrame, next: Subscription)
    requires InOrder(sub, queue) && ReplyFirst(sub.stream, rows)
    requires next.taken == sub.taken && next.earlier == sub.earlier
    ensures next.stream == sub.stream ==> InOrder(next, queue)
    ensures next.stream == sub.stream + [Frame(frame)] ==> InOrder(next, queue + [Frame(frame)])
    ensures ReplyFirst(sub.stream + [Frame(frame)], rows)
  {
    var message := Frame(frame);
    assert sub.taken + (queue + [message]) == (sub.taken + queue) + [message];
    assert (sub.earlier + sub.stream) + [message] == sub.earlier + (sub.stream + [message]);
  }

  lemma CommitKeeps(s: State, row: MessageRow)
    requires Inv(s) && Enabled(s, Commit(row))
    ensures Inv(Next(s, Commit(row)))
  {
    var log := s.log + [row];
    if s.subscription.Some? {
      var sub := s.subscription.value;
      assert log[sub.first..sub.committed] == s.log[sub.first..sub.committed];
      assert FirstFrame(sub) <= sub.seen ==> log[FirstFrame(sub)..sub.seen] == s.log[FirstFrame(sub)..sub.seen];
    }
  }

  /** The watermark suppresses one frame, exactly when it repeats the newest row of the snapshot. */
  lemma SuppressedIffRepeated(s: State, sub: Subscription)
    requires Inv(s) && s.subscription == Some(sub) && sub.open && s.published < |s.log|
    ensures IsRepeat(sub.watermark, Frame(Content(s.log[s.published]))) <==>
              sub.seen == sub.published && sub.published + 1 == sub.committed
  {
    if sub.seen == sub.published && sub.committed > 0 {
      var snapshot := s.log[sub.first..sub.committed];
      assert snapshot[|snapshot| - 1] == s.log[sub.committed - 1];
    }
  }

  lemma OneFrameMore(log: seq<MessageRow>, sub: Subscription, next: Subscription)
    requires sub.seen < |log| && next == sub.(watermark := None, seen := sub.seen + 1, stream := next.stream)
    requires sub.published <= sub.seen
    ensures sub.seen == sub.published && sub.published + 1 == sub.committed ==> FramesOf(log, next) == FramesOf(log, sub) == []
    ensures !(sub.seen == sub.published && sub.published + 1 == sub.committed) ==>
              FramesOf(log, next) == FramesOf(log, sub) + [log[sub.seen]]
  {
  }

  lemma FramesStay(log: seq<MessageRow>, sub: Subscription, next: Subscription)
    requires sub.seen <= |log|
    requires next.seen == sub.seen && next.published == sub.published && next.committed == sub.committed
    ensures FramesOf(log, next) == FramesOf(log, sub)
  {
  }

  lemma PublishKeeps(s: State)
    requires Inv(s) && Enabled(s, Publish)
    ensures Inv(Next(s, Publish))
  {
    if s.subscription.Some? && s.subscription.value.open {
      var sub := s.subscription.value;
      var message := Frame(Content(s.log[s.published]));
      var next := Next(s, Publish);
      SuppressedIffRepeated(s, sub);
      FrameRowsPush(sub.stream, message);
      OneMessageMore(sub, s.outbox.queue, s.log[sub.first..sub.committed], message.frame, next.subscription.value);
      hide FrameRows, Ascending, InOrder, ReplyFirst;
      var stays := StaysSubscribed(s.outbox, sub.watermark, message);
      if stays {
        OneFrameMore(s.log, sub, next.subscription.value);
      } else {
        FramesStay(s.log, sub, next.subscription.value);
      }
      hide FramesOf, FirstFrame;
    }
  }

  lemma BroadcastKeeps(s: State, frame: SessionFrame)
    requires Inv(s) && Enabled(s, Broadcast(frame))
    ensures Inv(Next(s, Broadcast(frame)))
  {
    if s.subscription.Some? && s.subscription.value.open {
      var sub := s.subscription.value;
      var message := Frame(frame);
      FrameRowsPush(sub.stream, message);
      OneMessageMore(sub, s.outbox.queue, s.log[sub.first..sub.committed], message.frame, Next(s, Broadcast(frame)).subscription.value);
      FramesStay(s.log, sub, Next(s, Broadcast(frame)).subscription.value);
      assert FrameRows(sub.stream) + [] == FrameRows(sub.stream);
      hide FrameRows, Ascending, InOrder, ReplyFirst, FramesOf;
    }
  }

  lemma ANewSubscriptionHasNoFrames(log: seq<MessageRow>, sub: Subscription)
    requires sub.seen == sub.published <= |log| && |sub.stream| == 1 && sub.stream[0].Reply?
    ensures FrameRows(sub.stream) == [] == FramesOf(log, sub)
  {
    FrameRowsPush([], sub.stream[0]);
    assert [] + sub.stream == sub.stream;
  }

  lemma RegisterKeeps(s: State, requestId: nat, first: nat, run: Option<RunProjection>)
    requires Inv(s) && Enabled(s, Register(requestId, first, run))
    ensures Inv(Next(s, Register(requestId, first, run)))
  {
    hide FrameRows, FramesOf, Ascending;
    var next := Registered(s, requestId, first, run);
    if CanSend(s.outbox) {
      var sub := next.subscription.value;
      assert s.log[first..] == s.log[sub.first..sub.committed];
      ANewSubscriptionHasNoFrames(s.log, sub);
      assert InOrder(sub, next.outbox.queue);
    } else if s.subscription.Some? {
      FramesStay(s.log, s.subscription.value, next.subscription.value);
    }
  }

  lemma DrainKeeps(s: State)
    requires Inv(s) && Enabled(s, Drain)
    ensures Inv(Next(s, Drain))
  {
    if s.subscription.Some? {
      var queue := s.outbox.queue;
      assert queue == [queue[0]] + queue[1..];
      assert (s.subscription.value.taken + [queue[0]]) + queue[1..] == s.subscription.value.taken + queue;
    }
  }

  lemma {:induction false} EveryRunKeeps(actions: seq<Action>)
    requires StateAfter(actions).Some?
    ensures Inv(StateAfter(actions).value)
  {
    if actions == [] {
    } else {
      var before := StateAfter(actions[..|actions| - 1]).value;
      EveryRunKeeps(actions[..|actions| - 1]);
      hide Inv, Next;
      match actions[|actions| - 1]
      case Commit(row) => CommitKeeps(before, row);
      case Publish => PublishKeeps(before);
      case Broadcast(frame) => BroadcastKeeps(before, frame);
      case Register(requestId, first, run) => RegisterKeeps(before, requestId, first, run);
      case Drain => DrainKeeps(before);
      case PeerLeaves => PeerLeavesKeeps(before);
    }
  }

  lemma PeerLeavesKeeps(s: State)
    requires Inv(s)
    ensures Inv(Next(s, PeerLeaves))
  {
  }

  // ------------------------------------------------------------------- results

  ghost predicate Reachable(s: State) {
    exists actions :: StateAfter(actions) == Some(s)
  }

  /** The reply comes first and only frames come behind it; what was queued and what was taken is
      that stream in order, behind what the connection was sent before it subscribed. */
  lemma ReplyPrecedesFrames(s: State)
    requires Reachable(s) && s.subscription.Some?
    ensures var sub := s.subscription.value;
            && sub.stream != [] && sub.stream[0].Reply?
            && (forall i :: 0 < i < |sub.stream| ==> sub.stream[i].Frame?)
            && sub.taken + s.outbox.queue == sub.earlier + sub.stream
            && (!sub.open ==> s.outbox.close)
  {
    var actions :| StateAfter(actions) == Some(s);
    EveryRunKeeps(actions);
  }

  /** With at most one row committed but unpublished at registration, the subscriber is sent every
      row from the first of its snapshot on, each once and in order: up to the newest published one
      while its subscription is open, and up to some row - without a gap - when it overflowed. */
  lemma EachRowIsSentOnce(s: State) returns (end: nat)
    requires Reachable(s) && s.subscription.Some? && Unpublished(s.subscription.value) <= 1
    ensures var sub := s.subscription.value;
            && sub.first <= sub.committed <= end <= |s.log|
            && Received(sub) == s.log[sub.first..end]
            && (sub.open ==> end == if sub.committed < s.published then s.published else sub.committed)
  {
    hide Ascending, StateAfter, FrameRows, InOrder;
    var actions :| StateAfter(actions) == Some(s);
    EveryRunKeeps(actions);
    var sub := s.subscription.value;
    end := if sub.committed < sub.seen then sub.seen else sub.committed;
    if sub.committed < sub.seen {
      assert s.log[sub.first..sub.committed] + s.log[sub.committed..sub.seen] == s.log[sub.first..sub.seen];
    } else {
      assert FramesOf(s.log, sub) == [];
      assert s.log[sub.first..sub.committed] + [] == s.log[sub.first..sub.committed];
    }
  }

  /** The condition is exact: as soon as a subscription saw anything published, its rows ascend if
      and only if at most one row was unpublished when it registered. */
  lemma OrderedIffAtMostOneUnpublished(s: State)
    requires Reachable(s) && s.subscription.Some?
    requires s.subscription.value.seen > s.subscription.value.published
    ensures Ascending(Received(s.subscription.value)) <==> Unpublished(s.subscription.value) <= 1
  {
    hide Ascending, StateAfter, FrameRows, InOrder;
    var actions :| StateAfter(actions) == Some(s);
    EveryRunKeeps(actions);
    var sub := s.subscription.value;
    if Unpublished(sub) <= 1 {
      var end := EachRowIsSentOnce(s);
      SlicesAscend(s.log, sub.first, end);
    } else {
      assert sub.published < sub.committed - 1;
      LaterIsGreater(s.log, sub.published, sub.committed - 1);
      BackwardsIsNotAscending(s.log[sub.first..sub.committed], s.log[sub.published..sub.seen]);
    }
  }

  lemma SlicesAscend(log: seq<MessageRow>, i: nat, j: nat)
    requires Ascending(log) && i <= j <= |log|
    ensures Ascending(log[i..j])
  {
  }

  lemma LaterIsGreater(log: seq<MessageRow>, i: nat, j: nat)
    requires Ascending(log) && i < j < |log|
    ensures log[i].id < log[j].id
  {
  }

  lemma BackwardsIsNotAscending(a: seq<MessageRow>, b: seq<MessageRow>)
    requires a != [] && b != [] && b[0].id < a[|a| - 1].id
    ensures !Ascending(a + b)
  {
    assert (a + b)[|a| - 1] == a[|a| - 1] && (a + b)[|a|] == b[0];
  }

  lemma {:induction false} FramesOfAPrefix(messages: seq<Message>, n: nat)
    requires n <= |messages|
    ensures FrameRows(messages[..n]) <= FrameRows(messages)
  {
    if n == |messages| {
      assert messages[..n] == messages;
    } else {
      FramesOfAPrefix(messages[..|messages| - 1], n);
      assert messages[..|messages| - 1][..n] == messages[..n];
    }
  }

  lemma ReachableKeeps(s: State)
    requires Reachable(s)
    ensures Inv(s)
  {
    var actions :| StateAfter(actions) == Some(s);
    EveryRunKeeps(actions);
  }

  /** Replica agreement: however far the client has read its stream, its transcript is the newest
      rows of the committed log from its snapshot's first row up to some row, none missing. */
  lemma TheReplicaIsTheNewestOfTheLog(s: State, n: nat) returns (end: nat)
    requires Reachable(s) && s.subscription.Some? && Unpublished(s.subscription.value) <= 1
    requires 0 < n <= |s.subscription.value.stream|
    ensures var sub := s.subscription.value;
            && sub.stream[0].Reply?
            && sub.first <= sub.committed <= end <= |s.log|
            && (n == |sub.stream| && sub.open && sub.committed < s.published ==> end == s.published)
            && Followed(Newest(sub.stream[0].snapshot.rows), FrameRows(sub.stream[..n])) == Newest(s.log[sub.first..end])
  {
    hide Reachable, FrameRows, InOrder, Ascending, Followed, Newest, Next, FramesOf;
    ReachableKeeps(s);
    var sub := s.subscription.value;
    var whole := EachRowIsSentOnce(s);
    FramesOfAPrefix(sub.stream, n);
    var frames := FrameRows(sub.stream[..n]);
    end := sub.committed + |frames|;
    assert n == |sub.stream| ==> sub.stream[..n] == sub.stream;
    SlicesAscend(s.log, sub.first, whole);
    FollowingTheRest(s.log[sub.first..sub.committed], FrameRows(sub.stream), s.log[sub.first..whole], frames);
    ContinuedSlice(s.log, sub.first, sub.committed, whole, FrameRows(sub.stream), frames);
  }

  lemma FollowingTheRest(head: seq<MessageRow>, frames: seq<MessageRow>, whole: seq<MessageRow>, some: seq<MessageRow>)
    requires head + frames == whole && Ascending(whole) && some <= frames
    ensures Followed(Newest(head), some) == Newest(head + some)
  {
    PrefixOfTheRest(head, frames, whole, some);
    assert Continues(head, some);
    hide Ascending;
    TheTranscriptIsTheNewest(head, some);
  }

  lemma ContinuedSlice(log: seq<MessageRow>, i: nat, j: nat, end: nat, frames: seq<MessageRow>, some: seq<MessageRow>)
    requires i <= j <= end <= |log| && log[i..j] + frames == log[i..end] && some <= frames
    ensures j + |some| <= end && |frames| == end - j
    ensures log[i..j] + some == log[i..j + |some|]
  {
    var head, whole, n := log[i..j], log[i..end], j - i + |some|;
    PrefixOfTheRest(head, frames, whole, some);
    assert whole[..n] == log[i..i + n] by {
      SliceOfSlice(log, i, end, n);
    }
  }

  lemma SliceOfSlice(log: seq<MessageRow>, i: nat, end: nat, n: nat)
    requires i <= end <= |log| && n <= end - i
    ensures log[i..end][..n] == log[i..i + n]
  {
  }

  lemma PrefixOfTheRest(a: seq<MessageRow>, b: seq<MessageRow>, all: seq<MessageRow>, some: seq<MessageRow>)
    requires a + b == all && some <= b
    ensures |b| == |all| - |a| && |some| <= |b| && a + some == all[..|a| + |some|]
  {
    assert some == b[..|some|];
  }

  // --------------------------------------------------- more than one unpublished

  lemma OneMore(actions: seq<Action>, s: State, action: Action) returns (longer: seq<Action>, next: State)
    requires StateAfter(actions) == Some(s) && Enabled(s, action)
    ensures longer == actions + [action] && next == Next(s, action)
    ensures StateAfter(longer) == Some(next)
  {
    longer, next := actions + [action], Next(s, action);
    assert longer[..|actions|] == actions;
  }

  /** A batch that is committed before it is published row by row can be shown twice: a client that
      registers in between holds both rows of the batch, and then each of them again. */
  lemma ABatchCanBeShownTwice(a: MessageRow, b: MessageRow)
    requires a.id < b.id
    ensures exists s :: Reachable(s) && s.subscription.Some? && Received(s.subscription.value) == [a, b, a, b]
    ensures Followed(Newest([a, b]), [a, b]) == [a, b, a, b]
  {
    hide FrameRows, Followed;
    var run, s := BatchUnpublished(a, b);
    run, s := OneMore(run, s, Publish);
    run, s := OneMore(run, s, Publish);
    assert Reachable(s);
    EveryRunKeeps(run);
    var sub := s.subscription.value;
    assert s.log[0..2] == [a, b];
    assert Received(sub) == [a, b] + [a, b];
    ShownTwice(a, b);
  }

  lemma BatchUnpublished(a: MessageRow, b: MessageRow) returns (run: seq<Action>, s: State)
    requires a.id < b.id
    ensures StateAfter(run) == Some(s) && s.log == [a, b] && s.published == 0 && |s.outbox.queue| == 1 && !s.outbox.gone
    ensures s.subscription.Some?
    ensures var sub := s.subscription.value;
            sub.first == 0 && sub.committed == 2 && sub.published == sub.seen == 0 && sub.open && sub.watermark == Some(b)
  {
    hide FrameRows;
    run, s := OneMore([], INITIAL, Commit(a));
    assert s.log == [a];
    run, s := OneMore(run, s, Commit(b));
    assert s.log == [a, b];
    run, s := OneMore(run, s, Register(0, 0, None));
    assert s.log[0..] == [a, b];
  }

  lemma ShownTwice(a: MessageRow, b: MessageRow)
    requires a.id < b.id
    ensures Followed(Newest([a, b]), [a, b]) == [a, b, a, b]
  {
    assert [a, b][..1] == [a] && [a][..0] == [];
    assert Followed([a, b], []) == [a, b];
    assert Followed([a, b], [a]) == [a, b] + [a];
    assert Followed([a, b], [a, b]) == [a, b, a] + [b];
  }
}
