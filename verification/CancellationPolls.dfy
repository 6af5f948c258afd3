/** What the schedule alone says about the polls of a cancellation signal: where the flag stands,
    what each poll answers, and who can be found. None of it looks into the signal's state. */
module CancellationPolls {
  import opened CancellationSignal
  import opened ModelTypes

  function Before(actions: seq<Action>): seq<Action>
    requires actions != []
  {
    actions[..|actions| - 1]
  }

  function Latest(actions: seq<Action>): Action
    requires actions != []
  {
    actions[|actions| - 1]
  }

  // ------------------------------------------------------------------ the flag

  /** The flag is on when a `cancel` came behind which no `reset` came. */
  predicate FlagOn(actions: seq<Action>) {
    exists k :: 0 <= k < |actions| && actions[k] == Swap && Reset !in actions[k..]
  }

  lemma FlagAfter(actions: seq<Action>)
    requires actions != []
    ensures FlagOn(actions) == match Latest(actions)
                               case Swap => true
                               case Reset => false
                               case _ => FlagOn(Before(actions))
  {
    var before, last := Before(actions), Latest(actions);
    if last == Swap {
      assert actions[|before|..] == [Swap];
    }
    if FlagOn(actions) && last != Swap {
      var k :| 0 <= k < |actions| && actions[k] == Swap && Reset !in actions[k..];
      assert last in actions[k..] by {
        assert actions[k..][|before| - k] == last;
      }
      forall action | action in before[k..] ensures action in actions[k..] {
        var j :| 0 <= j < |before[k..]| && before[k..][j] == action;
        assert actions[k..][j] == action;
      }
      assert before[k] == Swap;
    }
    if last != Reset && FlagOn(before) {
      var k :| 0 <= k < |before| && before[k] == Swap && Reset !in before[k..];
      assert actions[k..] == before[k..] + [last];
    }
  }

  /** How often a `cancel` turned the flag on. */
  function Edges(actions: seq<Action>): nat {
    if actions == [] then 0
    else Edges(Before(actions)) + (if Latest(actions) == Swap && !FlagOn(Before(actions)) then 1 else 0)
  }

  function Futures(actions: seq<Action>): nat {
    if actions == [] then 0 else Futures(Before(actions)) + (if Latest(actions) == Create then 1 else 0)
  }

  /** The flag is what the latest `cancel` or `reset` left; each edge has exactly one canceller. */
  lemma {:induction false} TheFlagIsTheLatestWord(actions: seq<Action>)
    requires StateAfter(actions).Some?
    ensures StateAfter(actions).value.cancelled <==> FlagOn(actions)
    ensures |StateAfter(actions).value.cancellers| == Edges(actions)
    ensures |StateAfter(actions).value.futures| == Futures(actions)
  {
    hide FlagOn;
    if actions == [] {
      assert !FlagOn([]) by {
        NothingIsOn();
      }
    } else {
      TheFlagIsTheLatestWord(Before(actions));
      FlagAfter(actions);
    }
  }

  lemma NothingIsOn()
    ensures !FlagOn([])
  {
  }

  // ------------------------------------------------------------ what polls answer

  /** Where the schedule puts a future: at its latest action, and at a look by the flag. */
  function StepBySchedule(actions: seq<Action>, f: nat): FutureStep {
    if actions == [] then Idle
    else
      var before := Before(actions);
      match Latest(actions)
      case BeginPoll(g, _) => if g != f then StepBySchedule(before, f) else if FlagOn(before) then Ready else Checked
      case Identify(g) => if g != f then StepBySchedule(before, f) else Identified
      case Register(g) => if g != f then StepBySchedule(before, f) else Registered
      case Recheck(g) => if g != f then StepBySchedule(before, f) else if FlagOn(before) then Ready else Pending
      case Drop(g) => if g != f then StepBySchedule(before, f) else Dropped
      case _ => StepBySchedule(before, f)
  }

  /** The waker of the future's latest poll. */
  function LatestWaker(actions: seq<Action>, f: nat): Waker {
    if actions == [] then NEW_FUTURE.waker
    else
      match Latest(actions)
      case BeginPoll(g, waker) => if g == f then waker else LatestWaker(Before(actions), f)
      case _ => LatestWaker(Before(actions), f)
  }

  /** Whether a canceller woke anybody since the future's latest poll began. */
  predicate SomebodyWoke(actions: seq<Action>, f: nat) {
    if actions == [] then false
    else
      match Latest(actions)
      case BeginPoll(g, _) => g != f && SomebodyWoke(Before(actions), f)
      case WakeNext(_) => true
      case _ => SomebodyWoke(Before(actions), f)
  }

  /** The future's own actions. */
  predicate Moves(action: Action, f: nat) {
    match action
    case BeginPoll(g, _) => g == f
    case Identify(g) => g == f
    case Register(g) => g == f
    case Recheck(g) => g == f
    case Drop(g) => g == f
    case _ => false
  }

  /** Every future of every schedule stands where the schedule puts it. */
  lemma {:induction false} FuturesStandByTheSchedule(actions: seq<Action>, f: nat)
    requires StateAfter(actions).Some? && f < |StateAfter(actions).value.futures|
    ensures var future := StateAfter(actions).value.futures[f];
            && future.step == StepBySchedule(actions, f)
            && future.waker == LatestWaker(actions, f)
            && (future.woken ==> SomebodyWoke(actions, f))
  {
    hide FlagOn;
    if actions == [] {
    } else {
      var before, last := Before(actions), Latest(actions);
      var s := StateAfter(before).value;
      TheFlagIsTheLatestWord(before);
      if f < |s.futures| {
        FuturesStandByTheSchedule(before, f);
        StepMovesOne(s, last, f);
      } else {
        assert last == Create;
        NobodyThereYet(before, f);
      }
    }
  }

  /** What one action does to one future. */
  lemma StepMovesOne(s: State, action: Action, f: nat)
    requires Enabled(s, action) && f < |s.futures|
    ensures f < |Next(s, action).futures|
    ensures var was, now := s.futures[f], Next(s, action).futures[f];
            && (!Moves(action, f) ==> now.step == was.step && now.waiterId == was.waiterId)
            && (was.waiterId.Some? ==> now.waiterId == was.waiterId)
            && (!(action.BeginPoll? && action.future == f) ==> now.waker == was.waker)
            && (!action.WakeNext? && !(action.BeginPoll? && action.future == f) ==> now.woken == was.woken)
  {
  }

  /** An action of a future that does not exist is not enabled. */
  lemma {:induction false} NobodyThereYet(actions: seq<Action>, f: nat)
    requires StateAfter(actions).Some? && f >= |StateAfter(actions).value.futures|
    ensures StepBySchedule(actions, f) == Idle && LatestWaker(actions, f) == NEW_FUTURE.waker
  {
    hide FlagOn;
    if actions == [] {
    } else {
      NobodyThereYet(Before(actions), f);
    }
  }

  // ------------------------------------------------------------ what "ready" means

  predicate IsLook(action: Action, f: nat) {
    (action.BeginPoll? && action.future == f) || action == Recheck(f)
  }

  /** At `k` the future looked while the flag was on, and it did nothing since. */
  predicate SawTheFlagLast(actions: seq<Action>, f: nat, k: nat) {
    && k < |actions| && IsLook(actions[k], f) && FlagOn(actions[..k])
    && forall j :: k < j < |actions| ==> !Moves(actions[j], f)
  }

  lemma {:induction false} ReadyBySchedule(actions: seq<Action>, f: nat)
    ensures StepBySchedule(actions, f) == Ready <==> exists k: nat :: SawTheFlagLast(actions, f, k)
  {
    hide FlagOn;
    if actions == [] {
    } else {
      var before, last := Before(actions), Latest(actions);
      ReadyBySchedule(before, f);
      if Moves(last, f) {
        assert forall k: nat :: SawTheFlagLast(actions, f, k) ==> k == |before|;
        assert SawTheFlagLast(actions, f, |before|) <==> IsLook(last, f) && FlagOn(before);
      } else {
        forall k: nat ensures SawTheFlagLast(actions, f, k) <==> SawTheFlagLast(before, f, k) {
          if k < |before| {
            assert actions[..k] == before[..k];
            assert forall j :: k < j < |before| ==> actions[j] == before[j];
          }
        }
      }
    }
  }

  /** A poll answers "ready" exactly when one of its looks finds the flag on: over every schedule a
      future is ready if and only if its latest action was a look while the flag was on. */
  lemma ReadyIffALookSawTheFlag(actions: seq<Action>, f: nat)
    requires StateAfter(actions).Some? && f < |StateAfter(actions).value.futures|
    ensures StateAfter(actions).value.futures[f].step == Ready <==> exists k: nat :: SawTheFlagLast(actions, f, k)
  {
    FuturesStandByTheSchedule(actions, f);
    ReadyBySchedule(actions, f);
  }

  /** Without a `cancel` the signal does nothing: the flag is off, nobody is ready, nobody is woken. */
  lemma NothingHappensWithoutACancel(actions: seq<Action>, f: nat)
    requires StateAfter(actions).Some? && f < |StateAfter(actions).value.futures| && Swap !in actions
    ensures !StateAfter(actions).value.cancelled && StateAfter(actions).value.cancellers == []
    ensures StateAfter(actions).value.futures[f].step != Ready && !StateAfter(actions).value.futures[f].woken
  {
    ReadyIffALookSawTheFlag(actions, f);
    FuturesStandByTheSchedule(actions, f);
    TheFlagIsTheLatestWord(actions);
    NobodyCancelled(actions, f);
    NoFlagWithoutACancel(actions);
    assert forall k: nat :: !SawTheFlagLast(actions, f, k);
  }

  lemma NoFlagWithoutACancel(actions: seq<Action>)
    requires Swap !in actions
    ensures forall k :: 0 <= k <= |actions| ==> !FlagOn(actions[..k])
  {
  }

  lemma {:induction false} NobodyCancelled(actions: seq<Action>, f: nat)
    requires StateAfter(actions).Some? && Swap !in actions
    ensures Edges(actions) == 0 && !SomebodyWoke(actions, f)
  {
    hide FlagOn;
    if actions == [] {
    } else {
      var before, last := Before(actions), Latest(actions);
      assert last in actions && forall action :: action in before ==> action in actions;
      NobodyCancelled(before, f);
      TheFlagIsTheLatestWord(before);
    }
  }

  // ------------------------------------------------------------ who can be found

  /** The future registered in its latest poll, and no canceller took the waiters since. */
  predicate OnTheList(actions: seq<Action>, f: nat) {
    if actions == [] then false
    else
      match Latest(actions)
      case Register(g) => g == f || OnTheList(Before(actions), f)
      case BeginPoll(g, _) => g != f && OnTheList(Before(actions), f)
      case Drop(g) => g != f && OnTheList(Before(actions), f)
      case Take(_) => false
      case _ => OnTheList(Before(actions), f)
  }

  /** Whoever registered and was not taken is in the vector, under the waker of its latest poll. */
  lemma {:induction false} RegisteredIsListed(actions: seq<Action>, f: nat)
    requires StateAfter(actions).Some? && OnTheList(actions, f)
    ensures f < |StateAfter(actions).value.futures|
    ensures InWaiters(StateAfter(actions).value, StateAfter(actions).value.futures[f])
  {
    if actions == [] {
    } else {
      var before, last := Before(actions), Latest(actions);
      var s := StateAfter(before).value;
      EveryRunIsHeard(before);
      if last == Register(f) {
        ReplaceKeepsTheOthers(s.waiters, s.futures[f].waiterId.value, s.futures[f].waker);
      } else {
        RegisteredIsListed(before, f);
        OthersLeaveItListed(s, last, f);
      }
    }
  }

  lemma OthersLeaveItListed(s: State, action: Action, f: nat)
    requires Inv(s) && Enabled(s, action) && f < |s.futures| && InWaiters(s, s.futures[f])
    requires !action.Take?
    requires Moves(action, f) ==> action.Identify? || action.Recheck?
    ensures InWaiters(Next(s, action), Next(s, action).futures[f])
  {
    hide AllHeard, UniqueIds;
    StepMovesOne(s, action, f);
    match action
    case Register(g) =>
      assert ShareNoNumber(s.futures[if g < f then g else f], s.futures[if g < f then f else g]);
      ReplaceKeepsTheOthers(s.waiters, s.futures[g].waiterId.value, s.futures[g].waker);
    case Drop(g) =>
      assert ShareNoNumber(s.futures[if g < f then g else f], s.futures[if g < f then f else g]);
      if s.futures[g].waiterId.Some? {
        RemoveKeepsTheOthers(s.waiters, s.futures[g].waiterId.value);
      }
    case _ =>
  }

  /** A poll whose second look finds the flag off goes to sleep, and it sleeps registered unless a
      canceller took the waiters since it registered. */
  lemma AQuietLookSleeps(actions: seq<Action>, f: nat)
    requires StateAfter(actions + [Recheck(f)]).Some? && !FlagOn(actions)
    ensures f < |StateAfter(actions + [Recheck(f)]).value.futures|
    ensures var s := StateAfter(actions + [Recheck(f)]).value;
            && s.futures[f].step == Pending
            && (OnTheList(actions, f) ==> InWaiters(s, s.futures[f]))
            && (s.futures[f].woken || InWaiters(s, s.futures[f]) || BeingWoken(s, s.futures[f]))
  {
    var longer := actions + [Recheck(f)];
    assert Before(longer) == actions && Latest(longer) == Recheck(f);
    FuturesStandByTheSchedule(longer, f);
    if OnTheList(actions, f) {
      RegisteredIsListed(longer, f);
    }
    EveryRunIsHeard(longer);
    assert Heard(StateAfter(longer).value, StateAfter(longer).value.futures[f]);
  }
}
