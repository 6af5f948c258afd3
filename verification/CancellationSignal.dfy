/** The cancellation signal shared by an executor and the operations it may interrupt, as a state
    machine over the atomic steps of its polls, drops, cancels and resets. Atomic accesses and the
    waiter mutex are sequentially consistent; between any two steps anything else may happen. */
module CancellationSignal {
  import opened ModelTypes

  type Waker = nat

  datatype Waiter = Waiter(id: nat, waker: Waker)

  /** Where a future stands. `Checked` and later up to `Registered` are inside one poll. */
  datatype FutureStep = Idle | Checked | Identified | Registered | Pending | Ready | Dropped

  /** `waker` is the one of the latest poll; `woken` says that it was woken since that poll began. */
  datatype Future = Future(step: FutureStep, waiterId: Option<nat>, waker: Waker, woken: bool)

  const NEW_FUTURE := Future(Idle, None, 0, false)

  /** A call of `cancel` that won the flag: about to take the waiters, waking them, or done. */
  datatype Canceller = Won | Waking(list: seq<Waiter>) | Done

  datatype State = State(
    cancelled: bool,
    nextWaiterId: nat,
    waiters: seq<Waiter>,
    futures: seq<Future>,
    cancellers: seq<Canceller>)

  const INITIAL := State(false, 0, [], [], [])

  datatype Action =
    | Create
    | BeginPoll(future: nat, waker: Waker)
    | Identify(future: nat)
    | Register(future: nat)
    | Recheck(future: nat)
    | Drop(future: nat)
    | Swap
    | Take(canceller: nat)
    | WakeNext(canceller: nat)
    | Reset

  // ------------------------------------------------------------ waiter vector

  /** A registered waiter gets the new waker unless its own already wakes the same task. */
  function ReplaceWaiter(waiters: seq<Waiter>, id: nat, waker: Waker): seq<Waiter> {
    if waiters == [] then [Waiter(id, waker)]
    else if waiters[0].id == id then
      if waiters[0].waker != waker then [Waiter(id, waker)] + waiters[1..] else waiters
    else [waiters[0]] + ReplaceWaiter(waiters[1..], id, waker)
  }

  function RemoveWaiter(waiters: seq<Waiter>, id: nat): seq<Waiter> {
    if waiters == [] then []
    else (if waiters[0].id == id then [] else [waiters[0]]) + RemoveWaiter(waiters[1..], id)
  }

  predicate UniqueIds(waiters: seq<Waiter>) {
    forall i, j :: 0 <= i < j < |waiters| ==> waiters[i].id != waiters[j].id
  }

  /** Registering touches the one waiter: it is there once, with the new waker, and the others are
      as they were. */
  lemma {:induction false} ReplaceKeepsTheOthers(waiters: seq<Waiter>, id: nat, waker: Waker)
    requires UniqueIds(waiters)
    ensures UniqueIds(ReplaceWaiter(waiters, id, waker))
    ensures forall w :: w in ReplaceWaiter(waiters, id, waker) <==> w == Waiter(id, waker) || (w in waiters && w.id != id)
  {
    var result := ReplaceWaiter(waiters, id, waker);
    if waiters == [] {
    } else {
      var rest := waiters[1..];
      assert forall w :: w in waiters <==> w == waiters[0] || w in rest;
      if waiters[0].id == id {
        assert forall w :: w in result <==> w == result[0] || w in rest;
        assert result[0] == Waiter(id, waker);
      } else {
        ReplaceKeepsTheOthers(rest, id, waker);
        var replaced := ReplaceWaiter(rest, id, waker);
        assert forall w :: w in result <==> w == waiters[0] || w in replaced;
        assert forall j :: 0 <= j < |replaced| ==> replaced[j] in replaced;
      }
    }
  }

  lemma {:induction false} RemoveKeepsTheOthers(waiters: seq<Waiter>, id: nat)
    requires UniqueIds(waiters)
    ensures UniqueIds(RemoveWaiter(waiters, id))
    ensures forall w :: w in RemoveWaiter(waiters, id) <==> w in waiters && w.id != id
  {
    if waiters == [] {
    } else {
      var rest := waiters[1..];
      RemoveKeepsTheOthers(rest, id);
      var removed := RemoveWaiter(rest, id);
      assert forall w :: w in waiters <==> w == waiters[0] || w in rest;
      assert forall j :: 0 <= j < |removed| ==> removed[j] in removed;
    }
  }

  // ------------------------------------------------------------------- steps

  function SetFuture(s: State, f: nat, future: Future): State
    requires f < |s.futures|
  {
    s.(futures := s.futures[f := future])
  }

  /** The first look at the flag. */
  function DoBeginPoll(s: State, f: nat, waker: Waker): State
    requires f < |s.futures|
  {
    var polled := s.futures[f].(waker := waker, woken := false);
    SetFuture(s, f, polled.(step := if s.cancelled then Ready else Checked))
  }

  /** A future is numbered once, by its first poll that gets here. */
  function DoIdentify(s: State, f: nat): State
    requires f < |s.futures|
  {
    var identified := s.futures[f].(step := Identified);
    if identified.waiterId.Some? then SetFuture(s, f, identified)
    else SetFuture(s, f, identified.(waiterId := Some(s.nextWaiterId))).(nextWaiterId := s.nextWaiterId + 1)
  }

  function DoRegister(s: State, f: nat): State
    requires f < |s.futures| && s.futures[f].waiterId.Some?
  {
    var future := s.futures[f];
    SetFuture(s, f, future.(step := Registered)).(waiters := ReplaceWaiter(s.waiters, future.waiterId.value, future.waker))
  }

  /** The second look at the flag. */
  function DoRecheck(s: State, f: nat): State
    requires f < |s.futures|
  {
    SetFuture(s, f, s.futures[f].(step := if s.cancelled then Ready else Pending))
  }

  function DoDrop(s: State, f: nat): State
    requires f < |s.futures|
  {
    var dropped := SetFuture(s, f, s.futures[f].(step := Dropped));
    if s.futures[f].waiterId.None? then dropped
    else dropped.(waiters := RemoveWaiter(s.waiters, s.futures[f].waiterId.value))
  }

  /** Only the call that turns the flag on goes further. */
  function DoSwap(s: State): State {
    if s.cancelled then s else s.(cancelled := true, cancellers := s.cancellers + [Won])
  }

  function DoTake(s: State, c: nat): State
    requires c < |s.cancellers|
  {
    s.(waiters := [], cancellers := s.cancellers[c := Waking(s.waiters)])
  }

  /** Waking reaches every future whose latest poll left this waker. */
  function WakeAll(futures: seq<Future>, waker: Waker): (after: seq<Future>)
    ensures |after| == |futures|
    ensures forall f :: 0 <= f < |futures| ==> after[f] == futures[f].(woken := futures[f].woken || futures[f].waker == waker)
  {
    seq(|futures|, f requires 0 <= f < |futures| => futures[f].(woken := futures[f].woken || futures[f].waker == waker))
  }

  function DoWakeNext(s: State, c: nat): State
    requires c < |s.cancellers| && s.cancellers[c].Waking?
  {
    var list := s.cancellers[c].list;
    if list == [] then s.(cancellers := s.cancellers[c := Done])
    else s.(cancellers := s.cancellers[c := Waking(list[1..])], futures := WakeAll(s.futures, list[0].waker))
  }

  predicate At(s: State, f: nat, steps: set<FutureStep>) {
    f < |s.futures| && s.futures[f].step in steps
  }

  /** Whether an action is one that can happen next. */
  predicate Enabled(s: State, action: Action) {
    match action
    case Create => true
    case BeginPoll(f, _) => At(s, f, {Idle, Pending, Ready})
    case Identify(f) => At(s, f, {Checked})
    case Register(f) => At(s, f, {Identified}) && s.futures[f].waiterId.Some?
    case Recheck(f) => At(s, f, {Registered})
    case Drop(f) => At(s, f, {Idle, Pending, Ready})
    case Swap => true
    case Take(c) => c < |s.cancellers| && s.cancellers[c].Won?
    case WakeNext(c) => c < |s.cancellers| && s.cancellers[c].Waking?
    case Reset => true
  }

  function Next(s: State, action: Action): State
    requires Enabled(s, action)
  {
    match action
    case Create => s.(futures := s.futures + [NEW_FUTURE])
    case BeginPoll(f, waker) => DoBeginPoll(s, f, waker)
    case Identify(f) => DoIdentify(s, f)
    case Register(f) => DoRegister(s, f)
    case Recheck(f) => DoRecheck(s, f)
    case Drop(f) => DoDrop(s, f)
    case Swap => DoSwap(s)
    case Take(c) => DoTake(s, c)
    case WakeNext(c) => DoWakeNext(s, c)
    case Reset => s.(cancelled := false)
  }

  /** The state a schedule leads to; `None` when some action of it was not enabled. */
  function StateAfter(actions: seq<Action>): Option<State> {
    if actions == [] then Some(INITIAL)
    else
      var before := StateAfter(actions[..|actions| - 1]);
      if before.None? || !Enabled(before.value, actions[|actions| - 1]) then None
      else Some(Next(before.value, actions[|actions| - 1]))
  }

  // -------------------------------------------------------------- invariants

  /** The waiter that stands for this future is in the vector, or a canceller is about to wake it. */
  predicate InWaiters(s: State, future: Future) {
    future.waiterId.Some? && Waiter(future.waiterId.value, future.waker) in s.waiters
  }

  predicate WokenBy(canceller: Canceller, future: Future) {
    canceller.Waking? && future.waiterId.Some? && Waiter(future.waiterId.value, future.waker) in canceller.list
  }

  predicate BeingWoken(s: State, future: Future) {
    exists c :: 0 <= c < |s.cancellers| && WokenBy(s.cancellers[c], future)
  }

  predicate SomeWon(s: State) {
    exists c :: 0 <= c < |s.cancellers| && s.cancellers[c].Won?
  }

  /** Registered since its latest poll began, and not woken since. */
  predicate Waits(future: Future) {
    future.step in {Registered, Pending} && !future.woken
  }

  /** Nobody waits unheard: a waiting future can still be found, and once the flag is on a pending
      one is about to be found. */
  predicate Heard(s: State, future: Future) {
    && (Waits(future) ==> InWaiters(s, future) || BeingWoken(s, future))
    && (Waits(future) && future.step == Pending && s.cancelled ==> SomeWon(s) || BeingWoken(s, future))
  }

  predicate NumberedBelow(future: Future, bound: nat) {
    && (future.waiterId.Some? ==> future.waiterId.value < bound)
    && (future.step in {Identified, Registered, Pending} ==> future.waiterId.Some?)
  }

  predicate ShareNoNumber(a: Future, b: Future) {
    a.waiterId.Some? && b.waiterId.Some? ==> a.waiterId.value != b.waiterId.value
  }

  /** Every number belongs to one future for good. */
  predicate Numbered(futures: seq<Future>, bound: nat) {
    && (forall f :: 0 <= f < |futures| ==> NumberedBelow(futures[f], bound))
    && (forall f, g :: 0 <= f < g < |futures| ==> ShareNoNumber(futures[f], futures[g]))
  }

  predicate AllHeard(s: State) {
    forall f :: 0 <= f < |s.futures| ==> Heard(s, s.futures[f])
  }

  predicate Inv(s: State) {
    UniqueIds(s.waiters) && Numbered(s.futures, s.nextWaiterId) && AllHeard(s)
  }

  lemma NumbersKept(before: seq<Future>, after: seq<Future>, bound: nat)
    requires Numbered(before, bound) && |after| == |before|
    requires forall f :: 0 <= f < |before| ==> after[f].waiterId == before[f].waiterId && NumberedBelow(after[f], bound)
    ensures Numbered(after, bound)
  {
    forall f, g | 0 <= f < g < |after| ensures ShareNoNumber(after[f], after[g]) {
      assert ShareNoNumber(before[f], before[g]);
    }
  }

  lemma IdentifyKeepsNumbers(s: State, f: nat)
    requires Numbered(s.futures, s.nextWaiterId) && At(s, f, {Checked})
    ensures Numbered(DoIdentify(s, f).futures, DoIdentify(s, f).nextWaiterId)
  {
    var next := DoIdentify(s, f);
    forall g | 0 <= g < |s.futures| ensures NumberedBelow(next.futures[g], next.nextWaiterId) {
      assert NumberedBelow(s.futures[g], s.nextWaiterId);
    }
    forall g, h | 0 <= g < h < |s.futures| ensures ShareNoNumber(next.futures[g], next.futures[h]) {
      assert ShareNoNumber(s.futures[g], s.futures[h]);
      assert NumberedBelow(s.futures[g], s.nextWaiterId) && NumberedBelow(s.futures[h], s.nextWaiterId);
    }
  }

  /** A future keeps its number through every step but the one that gives it a fresh one. */
  lemma StepKeepsNumbers(s: State, action: Action)
    requires Numbered(s.futures, s.nextWaiterId) && Enabled(s, action)
    ensures Numbered(Next(s, action).futures, Next(s, action).nextWaiterId)
  {
    hide ReplaceWaiter, RemoveWaiter, ShareNoNumber;
    match action
    case Create => CreateKeepsNumbers(s.futures, s.nextWaiterId);
    case Identify(f) => IdentifyKeepsNumbers(s, f);
    case _ => NumbersKept(s.futures, Next(s, action).futures, s.nextWaiterId);
  }

  lemma CreateKeepsNumbers(futures: seq<Future>, bound: nat)
    requires Numbered(futures, bound)
    ensures Numbered(futures + [NEW_FUTURE], bound)
  {
  }

  lemma StepKeepsUniqueIds(s: State, action: Action)
    requires UniqueIds(s.waiters) && Enabled(s, action)
    ensures UniqueIds(Next(s, action).waiters)
  {
    match action
    case Register(f) => ReplaceKeepsTheOthers(s.waiters, s.futures[f].waiterId.value, s.futures[f].waker);
    case Drop(f) =>
      if s.futures[f].waiterId.Some? {
        RemoveKeepsTheOthers(s.waiters, s.futures[f].waiterId.value);
      }
    case _ =>
  }

  // ------------------------------------------------------- nobody unheard

  lemma SameCancellers(s: State, next: State, future: Future)
    requires next.cancellers == s.cancellers
    ensures BeingWoken(s, future) == BeingWoken(next, future) && SomeWon(s) == SomeWon(next)
  {
  }

  /** A step of one future that takes no other future's waiter away. */
  lemma OneFutureMoves(s: State, next: State, f: nat)
    requires AllHeard(s) && f < |s.futures|
    requires next.cancellers == s.cancellers && next.cancelled == s.cancelled
    requires |next.futures| == |s.futures|
    requires forall g :: 0 <= g < |s.futures| && g != f ==>
               && next.futures[g] == s.futures[g]
               && (InWaiters(s, s.futures[g]) ==> InWaiters(next, s.futures[g]))
    requires Heard(next, next.futures[f])
    ensures AllHeard(next)
  {
    forall g | 0 <= g < |s.futures| ensures Heard(next, next.futures[g]) {
      if g != f {
        assert Heard(s, s.futures[g]);
        SameCancellers(s, next, s.futures[g]);
      }
    }
  }

  lemma RegisterIsHeard(s: State, f: nat)
    requires Inv(s) && At(s, f, {Identified})
    ensures s.futures[f].waiterId.Some? && AllHeard(DoRegister(s, f))
  {
    assert NumberedBelow(s.futures[f], s.nextWaiterId);
    var next := DoRegister(s, f);
    ReplaceKeepsTheOthers(s.waiters, s.futures[f].waiterId.value, s.futures[f].waker);
    forall g | 0 <= g < |s.futures| && g != f
      ensures InWaiters(s, s.futures[g]) ==> InWaiters(next, s.futures[g])
    {
      assert ShareNoNumber(s.futures[if g < f then g else f], s.futures[if g < f then f else g]);
    }
    OneFutureMoves(s, next, f);
  }

  lemma DropIsHeard(s: State, f: nat)
    requires Inv(s) && At(s, f, {Idle, Pending, Ready})
    ensures AllHeard(DoDrop(s, f))
  {
    var next := DoDrop(s, f);
    if s.futures[f].waiterId.Some? {
      RemoveKeepsTheOthers(s.waiters, s.futures[f].waiterId.value);
      forall g | 0 <= g < |s.futures| && g != f
        ensures InWaiters(s, s.futures[g]) ==> InWaiters(next, s.futures[g])
      {
        assert ShareNoNumber(s.futures[if g < f then g else f], s.futures[if g < f then f else g]);
      }
    }
    OneFutureMoves(s, next, f);
  }

  /** The second look at the flag is what closes the race: a future that goes to sleep saw the flag
      off after its waiter could be found. */
  lemma RecheckIsHeard(s: State, f: nat)
    requires Inv(s) && At(s, f, {Registered})
    ensures AllHeard(DoRecheck(s, f))
  {
    var next := DoRecheck(s, f);
    assert Heard(s, s.futures[f]);
    SameCancellers(s, next, s.futures[f]);
    assert InWaiters(s, s.futures[f]) == InWaiters(next, next.futures[f]);
    assert BeingWoken(next, s.futures[f]) == BeingWoken(next, next.futures[f]) by {
      assert forall c :: 0 <= c < |next.cancellers| ==>
                           WokenBy(next.cancellers[c], s.futures[f]) == WokenBy(next.cancellers[c], next.futures[f]);
    }
    OneFutureMoves(s, next, f);
  }

  lemma SwapIsHeard(s: State)
    requires AllHeard(s)
    ensures AllHeard(DoSwap(s))
  {
    var next := DoSwap(s);
    if !s.cancelled {
      assert next.cancellers[|s.cancellers|].Won?;
      forall f | 0 <= f < |s.futures| ensures Heard(next, next.futures[f]) {
        assert Heard(s, s.futures[f]);
        if BeingWoken(s, s.futures[f]) {
          var c :| 0 <= c < |s.cancellers| && WokenBy(s.cancellers[c], s.futures[f]);
          assert WokenBy(next.cancellers[c], s.futures[f]);
        }
      }
    }
  }

  lemma TakeIsHeard(s: State, c: nat)
    requires AllHeard(s) && c < |s.cancellers| && s.cancellers[c].Won?
    ensures AllHeard(DoTake(s, c))
  {
    var next := DoTake(s, c);
    forall f | 0 <= f < |s.futures| ensures Heard(next, next.futures[f]) {
      assert Heard(s, s.futures[f]);
      if BeingWoken(s, s.futures[f]) {
        var d :| 0 <= d < |s.cancellers| && WokenBy(s.cancellers[d], s.futures[f]);
        assert WokenBy(next.cancellers[d], s.futures[f]);
      } else if InWaiters(s, s.futures[f]) {
        assert WokenBy(next.cancellers[c], s.futures[f]);
      }
    }
  }

  lemma WakeNextIsHeard(s: State, c: nat)
    requires AllHeard(s) && c < |s.cancellers| && s.cancellers[c].Waking?
    ensures AllHeard(DoWakeNext(s, c))
  {
    var next := DoWakeNext(s, c);
    var list := s.cancellers[c].list;
    forall f | 0 <= f < |s.futures| ensures Heard(next, next.futures[f]) {
      var before := s.futures[f];
      var after := next.futures[f];
      assert Heard(s, before);
      if Waits(after) {
        assert after == before;
        if BeingWoken(s, before) {
          var d :| 0 <= d < |s.cancellers| && WokenBy(s.cancellers[d], before);
          assert WokenBy(next.cancellers[d], before) by {
            assert list == [] || list == [list[0]] + list[1..];
          }
        }
        if SomeWon(s) {
          var d :| 0 <= d < |s.cancellers| && s.cancellers[d].Won?;
          assert next.cancellers[d].Won?;
        }
      }
    }
  }

  lemma StepKeepsHeard(s: State, action: Action)
    requires Inv(s) && Enabled(s, action)
    ensures AllHeard(Next(s, action))
  {
    hide Heard, UniqueIds, Numbered, ReplaceWaiter, RemoveWaiter;
    var next := Next(s, action);
    match action
    case Create =>
      CreateIsHeard(s);
    case BeginPoll(f, waker) =>
      NotWaitingIsHeard(next, next.futures[f]);
      OneFutureMoves(s, next, f);
    case Identify(f) =>
      NotWaitingIsHeard(next, next.futures[f]);
      OneFutureMoves(s, next, f);
    case Register(f) => RegisterIsHeard(s, f);
    case Recheck(f) => RecheckIsHeard(s, f);
    case Drop(f) => DropIsHeard(s, f);
    case Swap => SwapIsHeard(s);
    case Take(c) => TakeIsHeard(s, c);
    case WakeNext(c) => WakeNextIsHeard(s, c);
    case Reset => ResetIsHeard(s);
  }

  lemma NotWaitingIsHeard(s: State, future: Future)
    requires future.step !in {Registered, Pending}
    ensures Heard(s, future)
  {
  }

  lemma CreateIsHeard(s: State)
    requires AllHeard(s)
    ensures AllHeard(s.(futures := s.futures + [NEW_FUTURE]))
  {
    var next := s.(futures := s.futures + [NEW_FUTURE]);
    forall f | 0 <= f < |next.futures| ensures Heard(next, next.futures[f]) {
      if f < |s.futures| {
        assert Heard(s, s.futures[f]);
        SameCancellers(s, next, s.futures[f]);
      }
    }
  }

  lemma ResetIsHeard(s: State)
    requires AllHeard(s)
    ensures AllHeard(s.(cancelled := false))
  {
    var next := s.(cancelled := false);
    forall f | 0 <= f < |next.futures| ensures Heard(next, next.futures[f]) {
      assert Heard(s, s.futures[f]);
      SameCancellers(s, next, s.futures[f]);
    }
  }

  // ---------------------------------------------------------------- all runs

  lemma {:induction false} EveryRunIsHeard(actions: seq<Action>)
    requires StateAfter(actions).Some?
    ensures Inv(StateAfter(actions).value)
  {
    hide Numbered, UniqueIds, AllHeard, Next, Enabled;
    if actions == [] {
      NothingWaitsAtFirst();
    } else {
      var before := actions[..|actions| - 1];
      var last := actions[|actions| - 1];
      EveryRunIsHeard(before);
      StepKeepsHeard(StateAfter(before).value, last);
      StepKeepsNumbers(StateAfter(before).value, last);
      StepKeepsUniqueIds(StateAfter(before).value, last);
    }
  }

  lemma NothingWaitsAtFirst()
    ensures Inv(INITIAL)
  {
  }

  /** No call of `cancel` that won the flag is still taking or waking its waiters. */
  predicate NobodyCancels(s: State) {
    forall c :: 0 <= c < |s.cancellers| ==> s.cancellers[c].Done?
  }

  /** No lost wakeup: with any number of futures, cancels and resets interleaved in any way, once
      the flag is on and the cancels that turned it on have returned, every future whose last poll
      answered "pending" has been woken since that poll began. */
  lemma NoLostWakeup(actions: seq<Action>, f: nat)
    requires StateAfter(actions).Some?
    requires var s := StateAfter(actions).value;
             s.cancelled && NobodyCancels(s) && At(s, f, {Pending})
    ensures StateAfter(actions).value.futures[f].woken
  {
    var s := StateAfter(actions).value;
    EveryRunIsHeard(actions);
    assert Heard(s, s.futures[f]);
  }

  /** The flag may be off again, or not yet on: a sleeping future that was not woken can still be
      found, so the next cancel that wins takes its waiter. */
  lemma SleepersCanBeFound(actions: seq<Action>, f: nat)
    requires StateAfter(actions).Some?
    requires var s := StateAfter(actions).value;
             NobodyCancels(s) && At(s, f, {Pending}) && !s.futures[f].woken
    ensures var s := StateAfter(actions).value;
            !s.cancelled && InWaiters(s, s.futures[f])
  {
    var s := StateAfter(actions).value;
    EveryRunIsHeard(actions);
    assert Heard(s, s.futures[f]);
  }

  /** Each waiter is listed once, and no two futures share a number. */
  lemma WaiterIdsAreUnique(actions: seq<Action>)
    requires StateAfter(actions).Some?
    ensures var s := StateAfter(actions).value;
            && UniqueIds(s.waiters)
            && forall f, g :: 0 <= f < g < |s.futures| ==> ShareNoNumber(s.futures[f], s.futures[g])
  {
    EveryRunIsHeard(actions);
  }

  lemma OneMore(actions: seq<Action>, s: State, action: Action) returns (longer: seq<Action>, next: State)
    requires StateAfter(actions) == Some(s) && Enabled(s, action)
    ensures longer == actions + [action] && next == Next(s, action)
    ensures StateAfter(longer) == Some(next)
  {
    longer, next := actions + [action], Next(s, action);
    assert longer[..|actions|] == actions;
  }

  /** The race the second look closes is real: a whole cancel can pass between a poll's first look
      and its registration, and then nobody is left to wake the waiter it registers. */
  lemma RegistrationCanComeTooLate()
    ensures exists actions :: StateAfter(actions).Some? && CameTooLate(StateAfter(actions).value)
  {
    var run, s := CancelPassesAPoll();
    run, s := OneMore(run, s, Register(0));
    assert s.futures == [Future(Registered, Some(0), 7, false)] && s.waiters == [Waiter(0, 7)];
    assert At(s, 0, {Registered}) && InWaiters(s, s.futures[0]) && !s.futures[0].woken;
    assert CameTooLate(s);
  }

  /** A poll that looked once, and a whole cancel behind that look. */
  lemma CancelPassesAPoll() returns (run: seq<Action>, s: State)
    ensures StateAfter(run) == Some(s) && s.cancelled && s.cancellers == [Done] && s.waiters == []
    ensures s.futures == [Future(Identified, Some(0), 7, false)]
  {
    run, s := PollLooked();
    hide StateAfter;
    run, s := OneMore(run, s, Swap);
    assert s.cancellers == [Won];
    run, s := OneMore(run, s, Take(0));
    run, s := OneMore(run, s, WakeNext(0));
  }

  lemma PollLooked() returns (run: seq<Action>, s: State)
    ensures StateAfter(run) == Some(s) && !s.cancelled && s.cancellers == [] && s.waiters == []
    ensures s.futures == [Future(Identified, Some(0), 7, false)]
  {
    run, s := OneMore([], INITIAL, Create);
    hide StateAfter;
    assert s.futures == [NEW_FUTURE];
    run, s := OneMore(run, s, BeginPoll(0, 7));
    run, s := OneMore(run, s, Identify(0));
  }

  ghost predicate CameTooLate(s: State) {
    && s.cancelled && NobodyCancels(s)
    && exists f: nat :: At(s, f, {Registered}) && InWaiters(s, s.futures[f]) && !s.futures[f].woken
  }
}
