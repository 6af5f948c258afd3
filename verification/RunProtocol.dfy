/** The order in which things may happen during a run, as an automaton over histories.

    A history is orderly when every happening is one that may come next and when everything the
    run was told is really what its environment said: the next poll, the next reply, the next
    batch of turns, the next signal - none skipped, none invented. */
module RunProtocol {
  import opened ModelTypes
  import opened RunEvents
  import opened RunStatus
  import opened Text

  const MAX_ROUND_REASONING_ECHO_BYTES: nat := 512 * 1024

  /** How the stream of a round ended. */
  datatype RoundEnd =
    | StreamFinished(reason: FinishReason)
    | StreamDried
    | StreamBroke(retryable: bool)
    | StreamTimedOut
    | StreamDisordered
    | StreamCancelled

  /** Where a run stands. `checked` says that the executor looked for a stop since and saw none. */
  datatype Phase =
    | Fresh
    | Between
    | Ready(checked: bool)
    | Streaming(lifecycle: Lifecycle)
    | Over(end: RoundEnd, committed: bool, checked: bool)
    | Lost(retryable: bool, committed: bool, checked: bool)
    | Batch(todo: seq<ToolCall>, partial: bool)
    | Asking(todo: seq<ToolCall>, partial: bool, rows: nat)
    | Told(todo: seq<ToolCall>, partial: bool, outcome: ToolOutcome)
    | Drained(partial: bool, checked: bool)
    | Broken
    | NoticeDue(next: Phase)
    | StopDue
    | StopNoted
    | Settled
    | Ended

  /** The reasoning a round keeps to send back: all of it up to the bound. */
  datatype Echo = Echo(seen: bool, exceeds: bool, text: string)

  const NO_ECHO := Echo(false, false, "")

  /** Everything the order of a run depends on. `calls` and `echo` are the current round's, `late`
      says that its batch dispatched a call behind a stop, `idle` counts the looks since anything else
      happened, and the last five fields count what was asked of the environment. */
  datatype Standing = Standing(
    phase: Phase,
    calls: seq<ToolCall>,
    echo: Echo,
    stopped: bool,
    raised: bool,
    edges: nat,
    late: bool,
    lateBatches: nat,
    lateRequests: nat,
    idle: nat,
    looks: nat,
    heard: nat,
    replies: nat,
    asks: nat,
    writes: nat)

  const AT_START := Standing(Fresh, [], NO_ECHO, false, false, 0, false, 0, 0, 0, 0, 0, 0, 0, 0)

  /** How often the executor looks at the cancellation handle without doing anything else. */
  const MAX_IDLE_LOOKS: nat := 5

  // --------------------------------------------------------- decisions of values

  predicate IsForbiddenReasoningCharacter(c: char) {
    (c < '\U{20}' || '\U{7F}' <= c <= '\U{9F}') && c !in {'\n', '\r', '\t'}
  }

  /** When an attachment can carry the reasoning of a round. */
  predicate IsAttachable(ids: seq<CallId>, text: string) {
    && ids != []
    && (forall i, j :: 0 <= i < j < |ids| ==> ids[i] != ids[j])
    && Bytes(text) <= MAX_ROUND_REASONING_ECHO_BYTES
    && (forall i :: 0 <= i < |text| ==> !IsForbiddenReasoningCharacter(text[i]))
  }

  function CallIds(calls: seq<ToolCall>): seq<CallId> {
    seq(|calls|, i requires 0 <= i < |calls| => calls[i].callId)
  }

  /** A round that opened the reasoning channel but whose reasoning no attachment can carry. */
  predicate IsUnattachable(calls: seq<ToolCall>, echo: Echo) {
    echo.seen && (echo.exceeds || !IsAttachable(CallIds(calls), echo.text))
  }

  /** Whether and how a round failed; the value says whether it may be retried. */
  function FailureOf(end: RoundEnd, calls: seq<ToolCall>, echo: Echo): Option<bool> {
    match end
    case StreamBroke(retryable) => Some(retryable)
    case StreamTimedOut => Some(true)
    case StreamDisordered => Some(false)
    case StreamCancelled => None
    case StreamDried => if calls == [] || IsUnattachable(calls, echo) then Some(false) else None
    case StreamFinished(_) => if calls != [] && IsUnattachable(calls, echo) then Some(false) else None
  }

  /** The durable reasoning text of a step, when it carried any. */
  function StepReasoning(echo: string): Option<string> {
    if echo == "" then None else Some(echo)
  }

  // -------------------------------------------------------------- what follows

  function Looked(phase: Phase, stopped: bool): Phase {
    match phase
    case Ready(checked) => Ready(checked || !stopped)
    case Over(end, committed, checked) => Over(end, committed, checked || !stopped)
    case Lost(retryable, committed, checked) => Lost(retryable, committed, checked || !stopped)
    case Drained(partial, checked) => Drained(partial, checked || !stopped)
    case _ => phase
  }

  function AfterLook(s: Standing, signal: Signal): Standing {
    var stopped := s.stopped || signal == Signal.Stop;
    s.(stopped := stopped,
       edges := s.edges + (if signal != Quiet && !s.raised then 1 else 0),
       raised := s.raised || signal != Quiet,
       looks := s.looks + 1, idle := s.idle + 1,
       phase := Looked(s.phase, stopped))
  }

  function AfterRequest(s: Standing): Standing {
    s.(phase := Streaming(FRESH_LIFECYCLE), idle := 0, calls := [], echo := NO_ECHO,
       lateRequests := s.lateRequests + (if s.stopped then 1 else 0))
  }

  function Echoed(echo: Echo, content: string): Echo {
    if content == "" then echo.(seen := true)
    else if echo.exceeds || Bytes(echo.text) + Bytes(content) > MAX_ROUND_REASONING_ECHO_BYTES
    then Echo(true, true, echo.text)
    else Echo(true, false, echo.text + content)
  }

  /** The round takes this fact in: its stream is open and the order rules accept the event. */
  predicate Takes(s: Standing, poll: Poll) {
    s.phase.Streaming? && poll.Item? && s.phase.lifecycle.Accepts(poll.event)
  }

  function AfterEvent(s: Standing, lifecycle: Lifecycle, event: ModelEvent): Standing {
    var open := s.(phase := Streaming(lifecycle.After(event)));
    match event
    case Finished(reason) => s.(phase := Over(StreamFinished(reason), false, false))
    case ToolCallReady(call) => open.(calls := s.calls + [call])
    case ReasoningDelta(content) => open.(echo := Echoed(s.echo, content))
    case _ => open
  }

  function AfterHearing(s: Standing, poll: Poll): Standing {
    var told := s.(heard := s.heard + 1, idle := 0);
    if !s.phase.Streaming? then told
    else
      match poll
      case Item(event) =>
        if s.phase.lifecycle.Accepts(event) then AfterEvent(told, s.phase.lifecycle, event)
        else told.(phase := Over(StreamDisordered, false, false))
      case ItemError(retryable) => told.(phase := Over(StreamBroke(retryable), false, false))
      case StreamEnded => told.(phase := Over(StreamDried, false, false))
      case IdleTimeout => told.(phase := Over(StreamTimedOut, false, false))
  }

  function AfterAnswerRow(s: Standing): Standing {
    s.(writes := s.writes + 1, idle := 0,
       phase := match s.phase
         case Over(end, _, checked) => Over(end, true, checked)
         case Lost(retryable, _, checked) => Lost(retryable, true, checked)
         case _ => s.phase)
  }

  /** A tool row is the port's own write. */
  function AfterToolRow(s: Standing): Standing {
    if s.phase.Asking? then s.(idle := 0, phase := s.phase.(rows := s.phase.rows + 1)) else s
  }

  function AfterNoticeRow(s: Standing): Standing {
    s.(writes := s.writes + 1, idle := 0,
       phase := match s.phase
         case NoticeDue(next) => next
         case StopDue => StopNoted
         case _ => s.phase)
  }

  function AfterRow(s: Standing, kind: RowKind): Standing {
    match kind
    case AssistantRow => AfterAnswerRow(s)
    case NoticeRow => AfterNoticeRow(s)
    case UserRow => s
    case _ => AfterToolRow(s)
  }

  function AfterDispatch(s: Standing): Standing {
    s.(late := s.late || s.stopped, idle := 0,
       lateBatches := s.lateBatches + (if s.stopped && !s.late then 1 else 0),
       phase := if s.phase.Batch? then Asking(s.phase.todo, s.phase.partial, 0) else s.phase)
  }

  function AfterReply(s: Standing, reply: PortReply): Standing {
    s.(replies := s.replies + 1, idle := 0,
       phase := if !s.phase.Asking? then s.phase
         else if reply.Broke? then Broken
         else Told(s.phase.todo, s.phase.partial, reply.outcome))
  }

  function AfterAnswer(s: Standing): Standing {
    if !s.phase.Told? || s.phase.todo == [] then s
    else
      var partial := s.phase.partial || s.phase.outcome.ToolPartial?;
      s.(idle := 0, phase := if |s.phase.todo| == 1 then Drained(partial, false) else Batch(s.phase.todo[1..], partial))
  }

  function AfterTurns(s: Standing, turns: seq<string>): Standing {
    s.(asks := s.asks + 1, writes := s.writes + 1, idle := 0,
       phase := if s.phase.Over? && turns == [] then Settled else Ready(false))
  }

  function AfterClear(s: Standing): Standing {
    s.(raised := false, idle := 0,
       phase := match s.phase
         case Over(_, _, _) => NoticeDue(Ready(false))
         case Lost(_, _, _) => NoticeDue(Between)
         case Drained(partial, _) => if partial then s.phase else NoticeDue(s.phase)
         case _ => s.phase)
  }

  function Then(s: Standing, latest: Happening): Standing {
    match latest
    case AttemptBegan => s.(phase := Ready(false), idle := 0)
    case Requested(_, _, _) => AfterRequest(s)
    case Heard(poll) => AfterHearing(s, poll)
    case RoundCancelled => s.(phase := Over(StreamCancelled, false, false), idle := 0)
    case RoundFailedWith(retryable) => s.(phase := Lost(retryable, false, false), idle := 0)
    case RoundCalled(calls) => s.(phase := Batch(calls, false), idle := 0, late := false)
    case Dispatched(_) => AfterDispatch(s)
    case PortAnswered(reply) => AfterReply(s, reply)
    case Answered(_, _) => AfterAnswer(s)
    case TurnsJoined(turns) => AfterTurns(s, turns)
    case Appended(row) => AfterRow(s, row.kind)
    case StatusWritten(status, _) =>
      s.(writes := s.writes + 1, idle := 0, phase := if status == Running then Between else Ended)
    case Signalled(signal) => AfterLook(s, signal)
    case SignalCleared => AfterClear(s)
    case Stopping => s.(raised := false, idle := 0, phase := StopDue)
  }

  function StandingOf(h: History): Standing {
    match h
    case Beginning => AT_START
    case After(past, latest) => Then(StandingOf(past), latest)
  }

  // -------------------------------------------------------------- what may come

  /** A boundary that looked for a stop: further looks leave its phase. */
  predicate AtRest(phase: Phase) {
    (phase.Over? && phase.checked) || (phase.Lost? && phase.checked) || (phase.Drained? && phase.checked)
  }

  /** The round answered without calls, or was cut: a boundary of the attempt loop. */
  predicate AtBoundary(s: Standing) {
    s.phase.Over? && (s.phase.end.StreamCancelled? || (s.phase.end.StreamFinished? && s.calls == []))
  }

  /** An assistant row commits one round, once, with that round's reasoning; only a cancelled
      round's row is cut, and a failed round's row carries no reasoning. */
  predicate MayCommit(s: Standing, reasoning: Option<string>, cut: bool) {
    || (&& s.phase.Over? && !s.phase.committed
        && FailureOf(s.phase.end, s.calls, s.echo) == None
        && reasoning == StepReasoning(s.echo.text)
        && (cut ==> s.phase.end.StreamCancelled?))
    || (s.phase.Lost? && !s.phase.committed && reasoning == None && !cut)
  }

  predicate MayAppend(s: Standing, row: Row) {
    match row.kind
    case AssistantRow => MayCommit(s, row.reasoning, row.cut) && row.callId == None
    case NoticeRow => (s.phase.NoticeDue? && row == NOTICE_ROW) || (s.phase.StopDue? && row == STOP_ROW)
    case ToolCallRow =>
      && s.phase.Asking? && s.phase.rows == 0 && s.phase.todo != []
      && row == Row(ToolCallRow, s.phase.todo[0].argumentsJson, None, Some(s.phase.todo[0].callId), false)
    case ToolResultRow =>
      && s.phase.Asking? && s.phase.rows == 1 && s.phase.todo != []
      && row == Row(ToolResultRow, row.text, None, Some(s.phase.todo[0].callId), false)
    case UserRow => false
  }

  function RowsOf(reply: PortReply): nat {
    if reply.Replied? || reply.rows >= 2 then 2 else reply.rows
  }

  predicate MayWrite(s: Standing, status: Status) {
    match status
    case Starting => false
    case Running => s.phase.Fresh?
    case Completed => s.phase.Settled? && !s.stopped
    case Failed => s.phase.Fresh? || s.phase.Broken? || (s.phase.Lost? && s.phase.checked && !s.stopped)
    case Interrupted => s.phase.StopNoted? && s.stopped
  }

  /** A round that did not fail is left only with its row committed, or with no reasoning to commit. */
  predicate IsKept(s: Standing) {
    s.phase.Over? ==> s.phase.committed || IsBlank(s.echo.text)
  }

  predicate MayClear(s: Standing) {
    && s.raised && IsKept(s)
    && ((AtBoundary(s) && s.phase.checked) || (s.phase.Drained? && s.phase.checked) || s.phase == Lost(true, false, true))
  }

  predicate MayStop(s: Standing) {
    s.stopped && IsKept(s) && (s.phase.Ready? || AtBoundary(s) || s.phase.Lost? || s.phase.Drained?)
  }

  /** Pending turns are asked for at two boundaries: behind a finished round that no stop and no
      interruption came upon, and behind a tool batch whose interruption was answered. */
  predicate MayJoin(s: Standing) {
    && !s.raised && IsKept(s)
    && ((s.phase.Over? && s.phase.end.StreamFinished? && s.calls == [] && s.phase.checked && !s.stopped)
        || (s.phase.Drained? && s.phase.checked))
  }

  /** Whether a happening may come next, and what was told is what the environment says. */
  predicate Allowed(env: Environment, s: Standing, latest: Happening) {
    match latest
    case AttemptBegan => s.phase == Between || s.phase == Lost(true, false, true)
    case Requested(_, _, _) => s.phase == Ready(true)
    case Heard(poll) => s.phase.Streaming? && !s.raised && poll == env.poll(s.heard)
    case RoundCancelled => s.phase.Streaming? && s.raised
    case RoundFailedWith(retryable) =>
      s.phase.Over? && !s.phase.committed && FailureOf(s.phase.end, s.calls, s.echo) == Some(retryable)
    case RoundCalled(calls) =>
      && s.phase.Over? && (s.phase.end.StreamFinished? || s.phase.end.StreamDried?)
      && FailureOf(s.phase.end, s.calls, s.echo) == None
      && calls == s.calls && calls != [] && IsKept(s)
    case Dispatched(call) => s.phase.Batch? && s.phase.todo != [] && call == s.phase.todo[0]
    case PortAnswered(reply) => s.phase.Asking? && reply == env.port(s.replies) && RowsOf(reply) == s.phase.rows
    case Answered(callId, content) =>
      s.phase.Told? && s.phase.todo != [] && callId == s.phase.todo[0].callId && content == s.phase.outcome.content
    case TurnsJoined(turns) =>
      MayJoin(s) && turns == env.turns(s.asks) && forall turn :: turn in turns ==> !IsBlank(turn)
    case Appended(row) => MayAppend(s, row)
    case StatusWritten(status, _) => MayWrite(s, status)
    case Signalled(signal) => signal == env.signal(s.looks) && s.idle < MAX_IDLE_LOOKS
    case SignalCleared => MayClear(s)
    case Stopping => MayStop(s)
  }

  predicate Orderly(env: Environment, h: History) {
    match h
    case Beginning => true
    case After(past, latest) => Orderly(env, past) && Allowed(env, StandingOf(past), latest)
  }

  // ------------------------------------------------------- what a step leaves alone

  /** A look only learns of signals: what a stop, a cleared signal or a notice may do next stays. */
  lemma LookLeaves(s: Standing, signal: Signal)
    ensures var t := AfterLook(s, signal);
            && t.looks == s.looks + 1 && t.idle == s.idle + 1 && t.heard == s.heard && t.replies == s.replies
            && t.asks == s.asks && t.writes == s.writes
            && t.calls == s.calls && t.echo == s.echo
            && t.stopped == (s.stopped || signal == Signal.Stop) && t.raised == (s.raised || signal != Quiet)
            && (MayStop(s) ==> MayStop(t)) && (MayClear(s) ==> MayClear(t)) && (IsKept(s) ==> IsKept(t))
            && match s.phase
               case Ready(checked) => t.phase == Ready(checked || !t.stopped)
               case Over(end, committed, checked) => t.phase == Over(end, committed, checked || !t.stopped)
               case Lost(retryable, committed, checked) => t.phase == Lost(retryable, committed, checked || !t.stopped)
               case Drained(partial, checked) => t.phase == Drained(partial, checked || !t.stopped)
               case _ => t.phase == s.phase
  {
  }

  /** Where a cleared signal and its notice lead. */
  lemma ClearLeaves(s: Standing)
    ensures var t := AfterNoticeRow(AfterClear(s));
            && !AfterClear(s).raised && !t.raised && t.idle == 0 && t.stopped == s.stopped && t.looks == s.looks
            && t.asks == s.asks
            && (s.raised && AtBoundary(s) && s.phase.checked && IsKept(s) ==>
                MayClear(s) && AfterClear(s).phase.NoticeDue? && t.phase == Ready(false))
            && (s.raised && s.phase == Drained(false, true) ==>
                MayClear(s) && AfterClear(s).phase.NoticeDue? && t.phase == s.phase)
            && (s.raised && s.phase == Lost(true, false, true) ==>
                MayClear(s) && AfterClear(s).phase.NoticeDue? && t.phase == Between)
    ensures s.raised && s.phase == Drained(true, true) ==> MayClear(s) && AfterClear(s) == s.(raised := false, idle := 0)
  {
  }

  lemma AnswerRowLeaves(s: Standing)
    ensures var t := AfterAnswerRow(s);
            && t.stopped == s.stopped && t.raised == s.raised && t.edges == s.edges && t.calls == s.calls
            && t.echo == s.echo
            && t.looks == s.looks && t.heard == s.heard && t.replies == s.replies && t.asks == s.asks && t.idle == 0
    ensures s.phase.Over? ==> AfterAnswerRow(s).phase == Over(s.phase.end, true, s.phase.checked)
    ensures s.phase.Lost? ==> AfterAnswerRow(s).phase == Lost(s.phase.retryable, true, s.phase.checked)
  {
  }

  lemma FailedRoundMayStop(s: Standing)
    requires s.stopped && s.phase.Lost?
    ensures MayStop(s) && MayStop(AfterAnswerRow(s))
  {
  }

  lemma FailedLeaves(s: Standing, retryable: bool)
    ensures Then(s, RoundFailedWith(retryable)) == s.(phase := Lost(retryable, false, false), idle := 0)
  {
  }

  lemma RequestLeaves(s: Standing)
    ensures var t := AfterRequest(s);
            t.stopped == s.stopped && t.raised == s.raised && t.edges == s.edges && t.looks == s.looks && t.idle == 0
  {
  }

  lemma HearingLeaves(s: Standing, poll: Poll)
    ensures var t := AfterHearing(s, poll);
            && t.stopped == s.stopped && t.raised == s.raised && t.edges == s.edges && t.looks == s.looks
            && t.asks == s.asks && t.idle == 0
            && t.heard == s.heard + 1 && t.replies == s.replies
            && (!Takes(s, poll) ==> t.calls == s.calls && t.echo == s.echo)
  {
    if s.phase.Streaming? && poll.Item? {
      EventLeaves(s.(heard := s.heard + 1, idle := 0), s.phase.lifecycle, poll.event);
    }
    hide AfterEvent;
  }

  lemma EventLeaves(s: Standing, lifecycle: Lifecycle, event: ModelEvent)
    ensures var t := AfterEvent(s, lifecycle, event);
            && t.stopped == s.stopped && t.raised == s.raised && t.edges == s.edges && t.looks == s.looks
            && t.asks == s.asks && t.idle == s.idle && t.heard == s.heard && t.replies == s.replies
  {
    hide Echoed, Lifecycle.After;
  }

  /** What the next fact does to an open stream. */
  lemma FactMeans(s: Standing, lifecycle: Lifecycle, poll: Poll)
    requires s.phase == Streaming(lifecycle)
    ensures var t := AfterHearing(s, poll);
            match poll
            case Item(event) =>
              && (Takes(s, poll) <==> lifecycle.Accepts(event))
              && (!lifecycle.Accepts(event) ==> t.phase == Over(StreamDisordered, false, false))
              && FailureOf(StreamDisordered, s.calls, s.echo) == Some(false)
              && (lifecycle.Accepts(event) && !event.Finished? ==> t.phase == Streaming(lifecycle.After(event)))
            case ItemError(retryable) =>
              && !Takes(s, poll) && t.phase == Over(StreamBroke(retryable), false, false)
              && FailureOf(StreamBroke(retryable), s.calls, s.echo) == Some(retryable)
            case StreamEnded => !Takes(s, poll) && t.phase == Over(StreamDried, false, false)
            case IdleTimeout =>
              && !Takes(s, poll) && t.phase == Over(StreamTimedOut, false, false)
              && FailureOf(StreamTimedOut, s.calls, s.echo) == Some(true)
  {
    hide Echoed;
  }

  lemma StoppingLeaves(s: Standing)
    ensures MayStop(s) ==> s.stopped
    ensures Then(s, Stopping) == s.(raised := false, idle := 0, phase := StopDue)
  {
  }

  lemma DispatchLeaves(s: Standing)
    ensures var t := AfterDispatch(s);
            && t.stopped == s.stopped && t.raised == s.raised && t.edges == s.edges && t.looks == s.looks
            && t.replies == s.replies
            && t.idle == 0 && (s.phase.Batch? ==> t.phase == Asking(s.phase.todo, s.phase.partial, 0))
  {
  }

  lemma ToolRowLeaves(s: Standing)
    ensures s.phase.Asking? ==>
              AfterToolRow(s) == s.(idle := 0, phase := Asking(s.phase.todo, s.phase.partial, s.phase.rows + 1))
  {
  }

  lemma AnswerLeaves(s: Standing)
    ensures var t := AfterAnswer(s);
            && t.stopped == s.stopped && t.raised == s.raised && t.edges == s.edges && t.looks == s.looks
            && t.replies == s.replies
            && (s.phase.Told? && s.phase.todo != [] ==> t.idle == 0)
  {
  }

  lemma TurnsLeave(s: Standing, turns: seq<string>)
    ensures var t := AfterTurns(s, turns);
            && t.stopped == s.stopped && t.raised == s.raised && t.edges == s.edges && t.looks == s.looks && t.idle == 0
            && (t.phase.Settled? <==> s.phase.Over? && turns == [])
            && (!t.phase.Settled? ==> t.phase == Ready(false))
  {
  }

  // ---------------------------------------------------------- a run moves on

  /** How much of a history is anything but a look at the handle. */
  function Moves(h: History): nat {
    match h
    case Beginning => 0
    case After(past, latest) => Moves(past) + (if latest.Signalled? then 0 else 1)
  }

  /** A run never idles: it looks at the handle at most five times between two other happenings, so a
      run observed for many looks did much. */
  lemma {:induction false} LooksAreBounded(env: Environment, h: History)
    requires Orderly(env, h)
    ensures StandingOf(h).idle <= MAX_IDLE_LOOKS
    ensures StandingOf(h).looks <= MAX_IDLE_LOOKS * Moves(h) + StandingOf(h).idle
    ensures StandingOf(h).looks <= MAX_IDLE_LOOKS * (Moves(h) + 1)
  {
    match h
    case Beginning =>
    case After(past, latest) =>
      var s, t := StandingOf(past), StandingOf(h);
      assert Orderly(env, past) && Allowed(env, s, latest) && t == Then(s, latest);
      assert Moves(h) == Moves(past) + (if latest.Signalled? then 0 else 1);
      LooksAreBounded(env, past);
      hide *;
      assert s.idle <= MAX_IDLE_LOOKS;
      MoveResetsIdle(env, s, latest);
  }

  lemma MoveResetsIdle(env: Environment, s: Standing, latest: Happening)
    requires Allowed(env, s, latest) && s.idle <= MAX_IDLE_LOOKS
    ensures var t := Then(s, latest);
            if latest.Signalled? then t.looks == s.looks + 1 && t.idle == s.idle + 1 <= MAX_IDLE_LOOKS
            else t.looks == s.looks && t.idle == 0
  {
    hide Echoed, Looked, FailureOf, IsUnattachable;
  }

  // ------------------------------------------------------------- stop is final

  /** What a stop leaves possible. Behind a look that saw none, nothing was done behind a stop. */
  predicate StopHeld(s: Standing) {
    && (!s.stopped ==> s.lateRequests == 0 && s.lateBatches == 0 && !s.late)
    && s.lateRequests <= 1 && s.lateBatches <= 1
    && match s.phase
       case Fresh => s.lateRequests == 0 && s.lateBatches == 0
       case Between => s.lateRequests == 0 && s.lateBatches == 0
       case Ready(_) => s.lateRequests == 0 && s.lateBatches == 0
       case Streaming(_) => s.lateBatches == 0
       case Over(_, _, checked) => s.lateBatches == 0 && (checked ==> s.lateRequests == 0)
       case Lost(_, _, checked) => s.lateBatches == 0 && (checked ==> s.lateRequests == 0)
       case Batch(_, _) => s.lateBatches == (if s.late then 1 else 0)
       case Asking(_, _, _) => s.lateBatches == (if s.late then 1 else 0)
       case Told(_, _, _) => s.lateBatches == (if s.late then 1 else 0)
       case Drained(_, checked) => checked ==> s.lateRequests == 0 && s.lateBatches == 0
       case NoticeDue(next) =>
         s.lateRequests == 0 && s.lateBatches == 0 && (next == Ready(false) || next == Between || next.Drained?)
       case _ => true
  }

  /** Over every orderly history at most one provider round starts behind a stop, and the calls
      dispatched behind it belong to at most one tool batch. */
  lemma {:induction false} StopIsFinal(env: Environment, h: History)
    requires Orderly(env, h)
    ensures StopHeld(StandingOf(h))
  {
    match h
    case Beginning =>
    case After(past, latest) =>
      StopIsFinal(env, past);
      StopStep(env, StandingOf(past), latest);
  }

  lemma StopStep(env: Environment, s: Standing, latest: Happening)
    requires StopHeld(s) && Allowed(env, s, latest)
    ensures StopHeld(Then(s, latest))
  {
    match latest
    case Heard(poll) => HearingHoldsTheStop(s, poll);
    case Signalled(signal) => LookHoldsTheStop(s, signal);
    case Appended(row) => RowHoldsTheStop(s, row);
    case SignalCleared => ClearHoldsTheStop(s);
    case _ => OtherStepHoldsTheStop(env, s, latest);
  }

  lemma HearingHoldsTheStop(s: Standing, poll: Poll)
    requires StopHeld(s) && s.phase.Streaming?
    ensures StopHeld(AfterHearing(s, poll))
  {
    hide Echoed;
  }

  lemma LookHoldsTheStop(s: Standing, signal: Signal)
    requires StopHeld(s)
    ensures StopHeld(AfterLook(s, signal))
  {
  }

  lemma RowHoldsTheStop(s: Standing, row: Row)
    requires StopHeld(s) && MayAppend(s, row)
    ensures StopHeld(AfterRow(s, row.kind))
  {
    hide StopHeld, AfterAnswerRow, AfterNoticeRow, AfterToolRow, MayCommit;
    match row.kind
    case AssistantRow => AnswerRowHoldsTheStop(s);
    case NoticeRow => NoticeRowHoldsTheStop(s);
    case UserRow =>
    case _ => ToolRowHoldsTheStop(s);
  }

  lemma AnswerRowHoldsTheStop(s: Standing)
    requires StopHeld(s)
    ensures StopHeld(AfterAnswerRow(s))
  {
  }

  lemma NoticeRowHoldsTheStop(s: Standing)
    requires StopHeld(s)
    ensures StopHeld(AfterNoticeRow(s))
  {
  }

  lemma ToolRowHoldsTheStop(s: Standing)
    requires StopHeld(s)
    ensures StopHeld(AfterToolRow(s))
  {
  }

  lemma ClearHoldsTheStop(s: Standing)
    requires StopHeld(s) && MayClear(s)
    ensures StopHeld(AfterClear(s))
  {
  }

  lemma OtherStepHoldsTheStop(env: Environment, s: Standing, latest: Happening)
    requires StopHeld(s) && Allowed(env, s, latest)
    requires !latest.Heard? && !latest.Signalled? && !latest.Appended? && !latest.SignalCleared?
    ensures StopHeld(Then(s, latest))
  {
    hide IsUnattachable, FailureOf, AfterHearing, AfterLook, AfterRow, AfterClear, MayAppend, MayClear;
  }

  // ---------------------------------------------------- what a stop does not prevent

  const NO_USAGE: Option<Usage> := None
  const A_CALL := ToolCall(7, "read", "{}")

  /** One attempt and one look that saw nothing: the run may ask. */
  const ABOUT_TO_ASK := After(After(After(Beginning, StatusWritten(Running, NO_USAGE)), AttemptBegan), Signalled(Quiet))

  lemma OneMore(env: Environment, h: History, latest: Happening) returns (longer: History, s: Standing)
    requires Orderly(env, h) && Allowed(env, StandingOf(h), latest)
    ensures longer == After(h, latest) && Orderly(env, longer)
    ensures s == StandingOf(longer) == Then(StandingOf(h), latest)
  {
    longer := After(h, latest);
    s := StandingOf(longer);
  }

  /** The facts of a round that calls one tool. */
  function CallingRound(k: nat): Poll {
    if k == 0 then Item(Started)
    else if k == 1 then Item(ToolCallReady(A_CALL))
    else Item(Finished(FinishReason.ToolCalls))
  }

  /** A stop that comes behind the last look before a request does not prevent the request. */
  lemma OneRoundMayStartBehindAStop() returns (env: Environment, h: History)
    ensures Orderly(env, h) && StandingOf(h).lateRequests == 1 && h.latest == Requested(0, [], [])
  {
    env := Environment(k => if k == 0 then Quiet else Signal.Stop, CallingRound, _ => Broke(0), _ => [], _ => false, 0);
    var s: Standing;
    AboutToAsk(env);
    hide Orderly, StandingOf;
    h, s := OneMore(env, ABOUT_TO_ASK, Signalled(Signal.Stop));
    h, s := OneMore(env, h, Requested(0, [], []));
  }

  lemma AboutToAsk(env: Environment)
    requires env.signal(0) == Quiet
    ensures Orderly(env, ABOUT_TO_ASK)
    ensures StandingOf(ABOUT_TO_ASK) == AT_START.(phase := Ready(true), writes := 1, looks := 1, idle := 1)
  {
    assert Orderly(env, Beginning) && StandingOf(Beginning) == AT_START;
    hide Orderly, StandingOf;
    var h, s := OneMore(env, Beginning, StatusWritten(Running, NO_USAGE));
    h, s := OneMore(env, h, AttemptBegan);
    h, s := OneMore(env, h, Signalled(Quiet));
  }

  /** A stop does not prevent the calls of the current batch. */
  lemma OneBatchMayGoOnBehindAStop() returns (env: Environment, h: History)
    ensures Orderly(env, h) && StandingOf(h).lateBatches == 1 && h.latest == Dispatched(A_CALL)
  {
    env := Environment(k => if k == 0 then Quiet else Signal.Stop, CallingRound, _ => Broke(0), _ => [], _ => false, 0);
    var s: Standing;
    AboutToAsk(env);
    hide Orderly, StandingOf, IsAttachable;
    h, s := OneMore(env, ABOUT_TO_ASK, Requested(0, [], []));
    var called, batch := ToolIsCalled(env, h);
    h := StoppedThenDispatched(env, called);
  }

  lemma StoppedThenDispatched(env: Environment, called: History) returns (h: History)
    requires Orderly(env, called) && env.signal(1) == Signal.Stop
    requires StandingOf(called) ==
               AT_START.(phase := Batch([A_CALL], false), calls := [A_CALL], writes := 1, looks := 1, heard := 3)
    ensures Orderly(env, h) && StandingOf(h).lateBatches == 1 && h.latest == Dispatched(A_CALL)
  {
    hide Orderly, StandingOf;
    var s: Standing;
    h, s := OneMore(env, called, Signalled(Signal.Stop));
    h, s := OneMore(env, h, Dispatched(A_CALL));
  }

  lemma ToolIsCalled(env: Environment, asked: History) returns (h: History, s: Standing)
    requires Orderly(env, asked) && env.poll == CallingRound
    requires StandingOf(asked) == AT_START.(phase := Streaming(FRESH_LIFECYCLE), writes := 1, looks := 1)
    ensures Orderly(env, h) && s == StandingOf(h)
    ensures s == AT_START.(phase := Batch([A_CALL], false), calls := [A_CALL], writes := 1, looks := 1, heard := 3)
  {
    hide Orderly, StandingOf, IsAttachable;
    EmptyIsBlank();
    h, s := OneMore(env, asked, Heard(Item(Started)));
    h, s := OneMore(env, h, Heard(Item(ToolCallReady(A_CALL))));
    assert s.calls == [A_CALL];
    h, s := OneMore(env, h, Heard(Item(Finished(FinishReason.ToolCalls))));
    h, s := OneMore(env, h, RoundCalled([A_CALL]));
  }

  // ------------------------------------------------- what the environment said

  predicate Ends(poll: Poll, end: RoundEnd) {
    match end
    case StreamFinished(reason) => poll == Item(Finished(reason))
    case StreamDried => poll == StreamEnded
    case StreamBroke(retryable) => poll == ItemError(retryable)
    case StreamTimedOut => poll == IdleTimeout
    case StreamDisordered => poll.Item?
    case StreamCancelled => false
  }

  /** The last fact a failed round heard. A finish or an end of the stream fails a round only when
      its calls and reasoning make it one, and then for good. */
  predicate Fails(poll: Poll, retryable: bool) {
    match poll
    case ItemError(r) => retryable == r
    case IdleTimeout => retryable
    case _ => !retryable
  }

  ghost predicate StopWasSent(env: Environment, looks: nat) {
    exists k: nat :: k < looks && env.signal(k) == Signal.Stop
  }

  /** What a phase says of the environment. */
  ghost predicate IsTrue(env: Environment, s: Standing) {
    && (s.stopped <==> StopWasSent(env, s.looks))
    && match s.phase
       case Fresh => s.writes == 0
       case Over(end, _, _) => end.StreamCancelled? || (s.heard > 0 && Ends(env.poll(s.heard - 1), end))
       case Lost(retryable, _, _) => s.heard > 0 && Fails(env.poll(s.heard - 1), retryable)
       case Told(_, _, outcome) => s.replies > 0 && env.port(s.replies - 1) == Replied(outcome)
       case Broken => s.replies > 0 && env.port(s.replies - 1).Broke?
       case Settled =>
         && s.heard > 0 && env.poll(s.heard - 1).Item? && env.poll(s.heard - 1).event.Finished?
         && s.calls == [] && s.asks > 0 && env.turns(s.asks - 1) == []
       case StopDue => s.stopped
       case StopNoted => s.stopped
       case NoticeDue(next) => next == Ready(false) || next == Between || next.Drained?
       case _ => true
  }

  lemma {:induction false} PhasesAreTrue(env: Environment, h: History)
    requires Orderly(env, h)
    ensures IsTrue(env, StandingOf(h))
  {
    match h
    case Beginning =>
    case After(past, latest) =>
      PhasesAreTrue(env, past);
      TruthStep(env, StandingOf(past), latest);
  }

  lemma LookStep(env: Environment, looks: nat)
    ensures StopWasSent(env, looks + 1) <==> StopWasSent(env, looks) || env.signal(looks) == Signal.Stop
  {
    if StopWasSent(env, looks) {
      var k: nat :| k < looks && env.signal(k) == Signal.Stop;
      assert k < looks + 1;
    }
  }

  lemma TruthStep(env: Environment, s: Standing, latest: Happening)
    requires IsTrue(env, s) && Allowed(env, s, latest)
    ensures IsTrue(env, Then(s, latest))
  {
    match latest
    case Heard(poll) => HearingIsTrue(env, s, poll);
    case Signalled(signal) => LookIsTrue(env, s, signal);
    case PortAnswered(reply) => ReplyIsTrue(env, s, reply);
    case TurnsJoined(turns) => TurnsAreTrue(env, s, turns);
    case Appended(row) => RowIsTrue(env, s, row);
    case RoundFailedWith(retryable) => FailureIsTrue(env, s, retryable);
    case _ => OwnStepIsTrue(env, s, latest);
  }

  lemma HearingIsTrue(env: Environment, s: Standing, poll: Poll)
    requires IsTrue(env, s) && Allowed(env, s, Heard(poll))
    ensures IsTrue(env, AfterHearing(s, poll))
  {
    hide Echoed, StopWasSent;
  }

  lemma LookIsTrue(env: Environment, s: Standing, signal: Signal)
    requires IsTrue(env, s) && signal == env.signal(s.looks)
    ensures IsTrue(env, AfterLook(s, signal))
  {
    LookStep(env, s.looks);
    hide StopWasSent;
  }

  lemma ReplyIsTrue(env: Environment, s: Standing, reply: PortReply)
    requires IsTrue(env, s) && Allowed(env, s, PortAnswered(reply))
    ensures IsTrue(env, AfterReply(s, reply))
  {
    hide StopWasSent;
  }

  lemma TurnsAreTrue(env: Environment, s: Standing, turns: seq<string>)
    requires IsTrue(env, s) && Allowed(env, s, TurnsJoined(turns))
    ensures IsTrue(env, AfterTurns(s, turns))
  {
    hide StopWasSent;
  }

  lemma RowIsTrue(env: Environment, s: Standing, row: Row)
    requires IsTrue(env, s) && MayAppend(s, row)
    ensures IsTrue(env, AfterRow(s, row.kind))
  {
    hide IsTrue, AfterAnswerRow, AfterNoticeRow, AfterToolRow, FailureOf;
    match row.kind
    case AssistantRow => AnswerRowIsTrue(env, s);
    case NoticeRow => NoticeRowIsTrue(env, s);
    case UserRow =>
    case _ => ToolRowIsTrue(env, s);
  }

  lemma AnswerRowIsTrue(env: Environment, s: Standing)
    requires IsTrue(env, s) && !s.phase.Fresh?
    ensures IsTrue(env, AfterAnswerRow(s))
  {
    hide StopWasSent;
  }

  lemma NoticeRowIsTrue(env: Environment, s: Standing)
    requires IsTrue(env, s) && !s.phase.Fresh?
    ensures IsTrue(env, AfterNoticeRow(s))
  {
    hide StopWasSent;
  }

  lemma ToolRowIsTrue(env: Environment, s: Standing)
    requires IsTrue(env, s)
    ensures IsTrue(env, AfterToolRow(s))
  {
    hide StopWasSent;
  }

  lemma FailureIsTrue(env: Environment, s: Standing, retryable: bool)
    requires IsTrue(env, s) && Allowed(env, s, RoundFailedWith(retryable))
    ensures IsTrue(env, Then(s, RoundFailedWith(retryable)))
  {
    hide StopWasSent, IsUnattachable;
  }

  /** A step that asks the environment nothing. */
  lemma OwnStepIsTrue(env: Environment, s: Standing, latest: Happening)
    requires IsTrue(env, s) && Allowed(env, s, latest)
    requires !latest.Heard? && !latest.Signalled? && !latest.PortAnswered? && !latest.TurnsJoined?
    requires !latest.Appended? && !latest.RoundFailedWith?
    ensures IsTrue(env, Then(s, latest))
  {
    hide StopWasSent, FailureOf, AfterHearing, AfterLook, AfterReply, AfterTurns, AfterRow, MayAppend, MayJoin;
  }
}
