/** The model-run executor: provider attempts, provider rounds and tool batches of one run. */
module RunExecutor {
  import opened ContextWindow
  import opened ModelTypes
  import opened RunEvents
  import opened RunHistory
  import opened RunProtocol
  import opened RunReadings
  import opened RunStatus
  import opened RunWindow
  import opened Text

  /** The selected run. `selectionUsable` stands for the agreement of request, durable
      configuration snapshot and current configuration. */
  datatype ExecutionInput = ExecutionInput(
    base: seq<ModelMessage>,
    status: Status,
    selectionUsable: bool,
    maxAttempts: nat,
    windowTokens: nat)
  {
    ghost function ScopeOf(env: Environment): Scope {
      Scope(base, maxAttempts, windowTokens, env)
    }
  }

  datatype RunError =
    | ConfigurationUnavailable
    | AttemptTimedOut
    | ProviderFailed
    | ProviderStreamEnded
    | InvalidStreamOrder
    | ReasoningUnrepresentable
    | ToolPortError

  datatype ExecutionOutcome = RunCompleted | RunFailed(error: RunError)

  datatype AttemptResult =
    | AttemptCompleted
    | AttemptFailed(error: RunError, retryable: bool)
    | AttemptFailedTerminal(error: RunError)

  datatype RoundOutcome =
    | RoundFinished(reason: FinishReason, committed: bool)
    | RoundInterrupted(committed: bool)
    | RoundFailed(error: RunError, retryable: bool)
    | RoundToolCalls(calls: seq<ToolCall>, reasoning: Option<AssistantReasoning>, committed: bool)

  /** Why an execution returned without an outcome: a durable write failed, a value the code refuses
      was there, or the environment was observed no further. */
  ghost predicate Excused(input: ExecutionInput, env: Environment, s: Standing, fault: Fault) {
    match fault
    case StorageFailed =>
      env.storageFails(s.writes) || (MayJoin(s) && exists turn :: turn in env.turns(s.asks) && IsBlank(turn))
    case InvalidValue => (s.phase.Told? && IsBlank(s.phase.outcome.content)) || (s.phase.Ready? && input.base == [])
    case Unfinished => s.looks >= env.horizon && (s.phase.Ready? || s.phase.Streaming?)
    case InvalidStart => input.status != Starting
  }

  /** The error of a failed round names the last fact it heard. */
  predicate Names(error: RunError, fact: Poll) {
    match error
    case AttemptTimedOut => fact == IdleTimeout
    case ProviderFailed => fact.ItemError?
    case ProviderStreamEnded => fact == StreamEnded
    case InvalidStreamOrder => fact.Item?
    case ReasoningUnrepresentable => fact == StreamEnded || (fact.Item? && fact.event.Finished?)
    case _ => false
  }

  /** An error names what really happened: the port's last reply, or the last fact heard. */
  predicate Blames(error: RunError, env: Environment, s: Standing) {
    if error == ToolPortError then s.replies > 0 && env.port(s.replies - 1).Broke?
    else s.heard > 0 && Names(error, env.poll(s.heard - 1))
  }

  lemma FactsAreNamed(fact: Poll)
    ensures fact == IdleTimeout ==> Names(AttemptTimedOut, fact)
    ensures fact.ItemError? ==> Names(ProviderFailed, fact)
    ensures fact.Item? ==> Names(InvalidStreamOrder, fact)
  {
  }

  // ------------------------------------------------------- decisions of values

  /** The retry decision of the attempt loop. */
  predicate Retries(retryable: bool, durableOutput: bool, pendingText: string, attempt: nat, maxAttempts: nat) {
    retryable && !durableOutput && IsBlank(pendingText) && attempt < maxAttempts
  }

  /** Whether closing a step leaves an assistant row: it had text or reasoning to commit. */
  predicate LeavesRow(text: string, reasoning: Option<string>) {
    !IsBlank(text) || (reasoning.Some? && !IsBlank(reasoning.value))
  }

  /** The history after a step was closed. */
  function Committed(h: History, text: string, reasoning: Option<string>, cut: bool): History {
    if !LeavesRow(text, reasoning) then h
    else After(h, Appended(Row(AssistantRow, if IsBlank(text) then "" else text, reasoning, None, cut)))
  }

  /** The history a failed run leaves: what was pending as its last step, then the status. */
  function FailedHistory(h: History, pendingText: string, usage: Option<Usage>): History {
    After(Committed(h, pendingText, None, false), StatusWritten(Failed, usage))
  }

  /** What a failed round of an unstopped run leads to, by the counter of tool rounds: a retry
      (`None`), or a failed run with this history. The counter is asked first; only an attempt
      without a tool round asks the attempt loop. */
  function Concluded(toolRound: nat, h: History, pendingText: string, usage: Option<Usage>,
                     retryable: bool, durableOutput: bool, attempt: nat, maxAttempts: nat): Option<History>
  {
    if toolRound == 0 && Retries(retryable, durableOutput, pendingText, attempt, maxAttempts) then None
    else Some(FailedHistory(h, pendingText, usage))
  }

  /** The 8-bit counter may wrap: whatever it shows, the run ends with the history the exact number
      of tool rounds would give, because a tool round made the output durable. */
  lemma ToolRoundCounterNeverDecides(
    batches: nat, h: History, pendingText: string, usage: Option<Usage>,
    retryable: bool, durableOutput: bool, attempt: nat, maxAttempts: nat)
    requires batches > 0 ==> durableOutput
    ensures Concluded(batches % 256, h, pendingText, usage, retryable, durableOutput, attempt, maxAttempts)
            == Concluded(batches, h, pendingText, usage, retryable, durableOutput, attempt, maxAttempts)
  {
  }

  // ------------------------------------------------------ cancellation handle

  /** The run-scoped cancellation handle. Each method is one atomic step. */
  class RunCancellation {
    var model: bool
    var tool: bool
    var noticeTaken: bool
    var stop: bool

    constructor ()
      ensures !model && !tool && !noticeTaken && !stop
    {
      model, tool, noticeTaken, stop := false, false, false, false;
    }

    predicate IsCancelled()
      reads this
    {
      model || tool
    }

    method Cancel()
      modifies this`model, this`tool
      ensures model && tool
    {
      model := true;
      tool := true;
    }

    method RequestStop()
      modifies this`model, this`tool, this`stop
      ensures stop && model && tool
    {
      stop := true;
      Cancel();
    }

    /** A stop survives every reset. */
    method Reset()
      modifies this`model, this`tool, this`noticeTaken
      ensures !model && !tool && !noticeTaken
    {
      model := false;
      tool := false;
      noticeTaken := false;
    }

    method TakeInterruptNotice() returns (owed: bool)
      modifies this`noticeTaken
      ensures owed == (IsCancelled() && !old(noticeTaken))
      ensures noticeTaken == (old(noticeTaken) || IsCancelled())
    {
      if !IsCancelled() {
        return false;
      }
      owed := !noticeTaken;
      noticeTaken := true;
    }
  }

  // ---------------------------------------------------------------- execution

  lemma PairedPush(context: seq<ModelMessage>, message: ModelMessage)
    requires Paired(context) && message.toolCalls == [] && message.role in {User, Notice}
    ensures Paired(context + [message])
  {
    assert [message][BlockLength([message])..] == [];
    assert OpensWithBlock([message]);
    PairedConcat(context, [message]);
  }

  class RunExecution {
    const input: ExecutionInput
    const env: Environment
    const cancellation: RunCancellation

    /** What happened so far; it also says which answer of the environment is the next one. */
    var history: History

    // State of the whole run.
    var pendingText: string
    var usage: Option<Usage>
    var durableOutput: bool
    var nextStep: nat
    var extraMessages: seq<ModelMessage>
    ghost var attempts: nat

    // State of the current attempt.
    var messages: seq<ModelMessage>
    var attachments: seq<AssistantReasoning>
    var toolRound: nat
    var window: ContextWindowState
    ghost var batches: nat

    // State of the current round.
    var reasoningChannelSeen: bool
    var reasoningExceedsBound: bool
    var interruptedTool: bool

    constructor (input: ExecutionInput, env: Environment)
      ensures this.input == input && this.env == env && fresh(cancellation) && fresh(window)
      ensures history == Beginning && pendingText == "" && usage == None && !durableOutput && nextStep == 0
      ensures extraMessages == [] && attempts == 0
      ensures !cancellation.model && !cancellation.tool && !cancellation.noticeTaken && !cancellation.stop
    {
      this.input := input;
      this.env := env;
      cancellation := new RunCancellation();
      history := Beginning;
      pendingText, usage, durableOutput, nextStep, extraMessages := "", None, false, 0, [];
      messages, attachments, toolRound, batches, attempts := [], [], 0, 0, 0;
      window := new ContextWindowState(input.windowTokens);
      reasoningChannelSeen, reasoningExceedsBound, interruptedTool := false, false, false;
    }

    ghost function P(): Progress
      reads this`history
    {
      ProgressOf(input.ScopeOf(env), history)
    }

    ghost function C(): Content
      reads this`history
    {
      ContentOf(input.ScopeOf(env), history)
    }

    function L(): Standing
      reads this`history
    {
      StandingOf(history)
    }

    ghost predicate Sound()
      reads this`history
    {
      Safe(input.ScopeOf(env), history)
    }

    ghost predicate Fails(fault: Fault)
      reads this`history
    {
      Excused(input, env, L(), fault)
    }

    /** The two flags move together, the flags are what the history says, and every signal still
        standing is one that no notice has answered yet. */
    ghost predicate SignalsCounted()
      reads this`history, cancellation
    {
      && cancellation.model == cancellation.tool == L().raised
      && cancellation.stop == L().stopped
      && C().interruptNotices + (if L().raised then 1 else 0) <= L().edges
    }

    /** The run is running and its live state agrees with its history. */
    ghost predicate Counting()
      reads this`history, this`extraMessages, this`usage, this`nextStep, this`attempts, cancellation
    {
      && Sound()
      && SignalsCounted()
      && P().statuses == [Running]
      && C().stopNotices == 0
      && extraMessages == C().additions
      && usage == P().lastUsage
      && nextStep == P().requestCount
      && attempts == P().attempts
    }

    /** As above, and the notice budget is free: whoever sees a signal first will owe its notice. */
    ghost predicate Active()
      reads this`history, this`extraMessages, this`usage, this`nextStep, this`attempts, cancellation
    {
      Counting() && !cancellation.noticeTaken
    }

    ghost predicate EvidenceHeld()
      reads this`history, this`durableOutput
    {
      C().evidence <==> durableOutput
    }

    /** Everything streamed is either committed or still pending, and what is pending is the text since
        the newest row, character by character. */
    ghost predicate TextHeld()
      reads this`history, this`pendingText
    {
      && NonWhitespace(P().answerText) == NonWhitespace(C().committedText) + NonWhitespace(pendingText)
      && IsTail(pendingText, P().unrowed)
    }

    /** Nothing but whitespace is pending. */
    ghost predicate TextSettled()
      reads this`history, this`pendingText
    {
      && NonWhitespace(P().answerText) == NonWhitespace(C().committedText) && NonWhitespace(pendingText) == ""
      && IsTail(pendingText, P().unrowed)
    }

    /** The attachments and the window accounting are what the history says. */
    ghost predicate MeasureHeld()
      reads this`attachments, this`window, this`history, window
    {
      attachments == P().attemptReasoning && window.Value() == P().accounting
    }

    /** So is the live message list, as the passes so far left it. */
    ghost predicate LiveHeld()
      reads this`messages, this`attachments, this`window, this`history, window
    {
      MeasureHeld() && messages == C().liveList
    }

    /** The 8-bit round counter, and what a counted batch implies. */
    ghost predicate CounterHeld()
      reads this`toolRound, this`batches, this`durableOutput
    {
      && toolRound == batches % 256
      && (batches > 0 ==> durableOutput)
    }

    /** An attempt is going on. */
    ghost predicate Attempting()
      reads this, cancellation, window
    {
      Active() && EvidenceHeld() && MeasureHeld() && CounterHeld() && Paired(C().liveContext)
    }

    ghost predicate InAttempt()
      reads this, cancellation, window
    {
      Attempting() && messages == C().liveList
    }

    /** The message list is the live one behind a window pass: the next request may be sent. */
    ghost predicate Reviewed()
      reads this, cancellation, window
    {
      Attempting() && messages == Windowed(P().accounting, C().liveList, attachments)
    }

    /** The history once the next signal was looked at. */
    function LookedHistory(): History
      reads this`history
    {
      After(history, Signalled(env.signal(L().looks)))
    }

    /** A look at the handle: whatever the host did before it, the executor sees now. */
    method HostActs()
      requires Sound() && SignalsCounted() && L().idle < MAX_IDLE_LOOKS
      modifies this`history, cancellation
      ensures history == old(LookedHistory())
      ensures L() == AfterLook(old(L()), env.signal(old(L()).looks))
      ensures Sound() && SignalsCounted()
      ensures P() == old(P()) && C() == old(C())
      ensures cancellation.noticeTaken == old(cancellation.noticeTaken)
    {
      hide Safe, ProgressOf, ContentOf, StandingOf;
      var signal := env.signal(L().looks);
      QuietRead(input.ScopeOf(env), history, Signalled(signal));
      history := After(history, Signalled(signal));
      if signal == Cancel {
        cancellation.Cancel();
      } else if signal == Signal.Stop {
        cancellation.RequestStop();
      }
    }

    /** A look while an attempt is going on. */
    method Pause()
      requires Attempting() && L().idle < MAX_IDLE_LOOKS
      modifies this`history, cancellation
      ensures history == old(LookedHistory())
      ensures L() == AfterLook(old(L()), env.signal(old(L()).looks))
      ensures Sound() && Attempting() && P() == old(P()) && C() == old(C())
    {
      hide Safe, ProgressOf, ContentOf, StandingOf, Paired, Windowed, AfterLook;
      HostActs();
    }

    /** The stop check of a boundary. */
    method SeesStop() returns (stopped: bool)
      requires Attempting() && L().idle < MAX_IDLE_LOOKS
      modifies this`history, cancellation
      ensures history == old(LookedHistory())
      ensures L() == AfterLook(old(L()), env.signal(old(L()).looks))
      ensures Attempting() && P() == old(P()) && C() == old(C())
      ensures stopped == L().stopped
    {
      hide Safe, ProgressOf, ContentOf, StandingOf, Paired, Windowed, AfterLook;
      HostActs();
      stopped := cancellation.stop;
    }

    // ------------------------------------------------------- durable writes

    method AppendRow(row: Row) returns (r: Result<Row>)
      modifies this`history
      ensures r.Ok? ==> history == After(old(history), Appended(row))
      ensures r.Err? ==> history == old(history) && Fails(r.fault)
    {
      hide StandingOf;
      if env.storageFails(L().writes) {
        return Err(StorageFailed);
      }
      history := After(history, Appended(row));
      return Ok(row);
    }

    /** Writes one status; the log refuses anything but a declared successor. */
    method WriteStatus(status: Status) returns (r: Result<Status>)
      requires MayFollow(CurrentStatus(Statuses(history)), status)
      modifies this`history
      ensures r.Ok? ==> history == After(old(history), StatusWritten(status, usage))
      ensures r.Err? ==> history == old(history) && Fails(r.fault)
    {
      hide StandingOf;
      if env.storageFails(L().writes) || !MayFollow(CurrentStatus(Statuses(history)), status) {
        return Err(StorageFailed);
      }
      history := After(history, StatusWritten(status, usage));
      return Ok(status);
    }

    /** Commits the pending text as one assistant row; a step with neither text nor reasoning
        commits nothing. Returns whether a row was committed. */
    method CommitText(reasoning: Option<string>, cut: bool) returns (r: Result<bool>)
      requires Counting() && MayCommit(L(), reasoning, cut)
      requires NonWhitespace(P().answerText) == NonWhitespace(C().committedText)
                + NonWhitespace(Uncut(pendingText, cut))
      requires IsTail(Uncut(pendingText, cut), P().unrowed)
      requires cut ==> EndsCut(pendingText) && !IsBlank(pendingText) && !IsBlank(Uncut(pendingText, true))
      modifies this`history, this`pendingText
      ensures Sound()
      ensures r.Err? ==> Fails(r.fault)
      ensures r.Ok? ==> Counting() && TextSettled() && pendingText == ""
      ensures r.Ok? ==> r.value == LeavesRow(old(pendingText), reasoning)
      ensures r.Ok? ==> history == Committed(old(history), old(pendingText), reasoning, cut)
      ensures r.Ok? ==> L() == if r.value then AfterAnswerRow(old(L())) else old(L())
      ensures r.Ok? ==> P() == old(P()).(unrowed := P().unrowed) && (!r.value ==> C() == old(C()))
      ensures r.Ok? ==> C().liveContext == old(C()).liveContext && C().interruptNotices == old(C()).interruptNotices
      ensures r.Ok? ==> C().liveList == old(C()).liveList
      ensures r.Ok? ==> C().evidence == (old(C()).evidence || r.value)
    {
      hide Safe, ProgressOf, ContentOf, StandingOf, NonWhitespace, IsBlank, EndsCut, MayCommit, AfterAnswerRow, IsTail;
      var carriesReasoning := reasoning.Some? && !IsBlank(reasoning.value);
      BlankIffNoCharacters(pendingText);
      EmptyIsBlank();
      WholeIsTail("");
      if IsBlank(pendingText) {
        BlankTailEnds(pendingText, P().unrowed);
        pendingText := "";
        if !carriesReasoning {
          return Ok(false);
        }
      }
      var row := Row(AssistantRow, pendingText, reasoning, None, cut);
      NonWhitespaceConcat(C().committedText, RowAnswer(row));
      AnswerRowLeaves(L());
      RowRead(input.ScopeOf(env), history, row);
      assert C().liveContext + [] == C().liveContext;
      assert C().additions + [] == C().additions;
      assert C().liveList + [] == C().liveList;
      pendingText := "";
      var _ :- AppendRow(row);
      return Ok(true);
    }

    /** Closes a step: its row carries its whole text, unmarked. */
    method CommitStep(reasoning: Option<string>) returns (r: Result<bool>)
      requires Counting() && TextHeld() && MayCommit(L(), reasoning, false)
      modifies this`history, this`pendingText
      ensures Sound()
      ensures r.Err? ==> Fails(r.fault)
      ensures r.Ok? ==> Counting() && TextSettled() && pendingText == ""
      ensures r.Ok? ==> r.value == LeavesRow(old(pendingText), reasoning)
      ensures r.Ok? ==> history == Committed(old(history), old(pendingText), reasoning, false)
      ensures r.Ok? ==> L() == if r.value then AfterAnswerRow(old(L())) else old(L())
      ensures r.Ok? ==> P() == old(P()).(unrowed := P().unrowed) && (!r.value ==> C() == old(C()))
      ensures r.Ok? ==> C().liveContext == old(C()).liveContext && C().interruptNotices == old(C()).interruptNotices
      ensures r.Ok? ==> C().liveList == old(C()).liveList
      ensures r.Ok? ==> C().evidence == (old(C()).evidence || r.value)
    {
      hide Safe, ProgressOf, ContentOf, StandingOf, NonWhitespace, IsTail, MayCommit, AfterAnswerRow, Committed;
      hide LeavesRow;
      r := CommitText(reasoning, false);
    }

    /** Commits a stopped step: its text gets the marker, a step without text gets none. */
    method CommitInterruptedStep(reasoning: Option<string>) returns (r: Result<bool>)
      requires Counting() && TextHeld() && MayCommit(L(), reasoning, true) && MayCommit(L(), reasoning, false)
      modifies this`history, this`pendingText
      ensures Sound()
      ensures r.Err? ==> Fails(r.fault)
      ensures r.Ok? ==> Counting() && TextSettled() && pendingText == ""
      ensures r.Ok? ==> r.value == LeavesRow(old(pendingText), reasoning)
      ensures r.Ok? ==> history == if IsBlank(old(pendingText))
                then Committed(old(history), "", reasoning, false)
                else After(old(history), 
                  Appended(Row(AssistantRow, old(pendingText) + CUT_SUFFIX, reasoning, None, true)))
      ensures r.Ok? ==> L() == if r.value then AfterAnswerRow(old(L())) else old(L())
      ensures r.Ok? ==> P() == old(P()).(unrowed := P().unrowed)
      ensures r.Ok? ==> C().liveContext == old(C()).liveContext && C().interruptNotices == old(C()).interruptNotices
      ensures r.Ok? ==> C().liveList == old(C()).liveList
      ensures r.Ok? ==> C().evidence == (old(C()).evidence || r.value)
    {
      hide Safe, ProgressOf, ContentOf, StandingOf, NonWhitespace, IsTail, MayCommit, AfterAnswerRow;
      EmptyIsBlank();
      if !IsBlank(pendingText) {
        MarkingIsUndone(pendingText);
        pendingText := pendingText + CUT_SUFFIX;
        r := CommitText(reasoning, true);
      } else {
        r := CommitText(reasoning, false);
      }
    }

    /** Writes the run's terminal status as its last durable write. */
    method FinishRun(status: Status) returns (r: Result<Status>)
      requires Sound() && P().statuses == [Running] && IsTerminal(status) && usage == P().lastUsage
      requires TextSettled() && MayWrite(L(), status) && MayConclude(input.ScopeOf(env), history, status)
      requires C().stopNotices == (if status == Interrupted then 1 else 0)
      requires status == Interrupted ==> C().lastRow == Some(STOP_ROW)
      modifies this`history
      ensures Sound()
      ensures r.Err? ==> Fails(r.fault)
      ensures r.Ok? ==> EndedWith(history, status) && history == After(old(history), StatusWritten(status, usage))
      ensures r.Ok? ==> L().heard == old(L()).heard && L().replies == old(L()).replies
    {
      hide Safe, ContentOf, StandingOf, NonWhitespace, IsTail, EndedWith, MayWrite, MayConclude;
      FinishRead(input.ScopeOf(env), history, status);
      WritesLeave(history, status, usage);
      r := WriteStatus(status);
    }

    // ---------------------------------------------------------- boundaries

    /** Clears the signal of a stopped run; the stop itself survives. */
    method ClearForStop()
      requires Active() && TextSettled() && MayStop(L()) && L().idle < MAX_IDLE_LOOKS
      modifies this`history, cancellation
      ensures Active() && L().phase == StopDue && L().stopped && L().idle == 0
      ensures P() == old(P()) && C() == old(C())
    {
      hide Safe, ProgressOf, ContentOf, StandingOf, AfterLook, MayStop, NonWhitespace, IsTail;
      LookLeaves(L(), env.signal(L().looks));
      HostActs();
      QuietRead(input.ScopeOf(env), history, Stopping);
      StoppingLeaves(L());
      history := After(history, Stopping);
      cancellation.Reset();
    }

    method CommitStopNotice() returns (r: Result<Row>)
      requires Active() && L().phase == StopDue && L().stopped && L().idle == 0
      modifies this`history, cancellation
      ensures Sound()
      ensures r.Err? ==> Fails(r.fault)
      ensures r.Ok? ==> SignalsCounted() && P() == old(P()) && C().committedText == old(C()).committedText
      ensures r.Ok? ==> C().stopNotices == 1 && C().lastRow == Some(STOP_ROW)
      ensures r.Ok? ==> L().phase == StopNoted && L().stopped && L().idle == 0
    {
      hide Safe, ProgressOf, ContentOf, StandingOf, AfterLook;
      LookLeaves(L(), env.signal(L().looks));
      HostActs();
      RowRead(input.ScopeOf(env), history, STOP_ROW);
      assert C().committedText + "" == C().committedText;
      r := AppendRow(STOP_ROW);
    }

    /** Ends a stopped run: one notice, then the terminal outcome. */
    method EndStoppedRun() returns (r: Result<AttemptResult>)
      requires Active() && TextSettled() && MayStop(L()) && L().idle < MAX_IDLE_LOOKS
      modifies this`history, cancellation
      ensures Sound()
      ensures r.Err? ==> Fails(r.fault)
      ensures r.Ok? ==> r.value == AttemptCompleted && EndedWith(history, Interrupted)
    {
      hide Safe, ProgressOf, ContentOf, StandingOf, NonWhitespace, IsTail, EndedWith, AfterLook, MayStop;
      ClearForStop();
      var _ :- CommitStopNotice();
      LookLeaves(L(), env.signal(L().looks));
      HostActs();
      var _ :- FinishRun(Interrupted);
      return Ok(AttemptCompleted);
    }

    /** Clears the signal, so that the next interruption is seen afresh. */
    method ClearSignal()
      requires Counting() && TextSettled() && MayClear(L())
      modifies this`history, cancellation
      ensures Sound() && Counting() && !cancellation.IsCancelled() && !cancellation.noticeTaken
      ensures history == After(old(history), SignalCleared) && L() == AfterClear(old(L()))
      ensures P() == old(P()) && C() == old(C()) && C().interruptNotices < L().edges
    {
      hide Safe, ProgressOf, ContentOf, StandingOf, NonWhitespace, IsTail;
      QuietRead(input.ScopeOf(env), history, SignalCleared);
      history := After(history, SignalCleared);
      cancellation.Reset();
    }

    /** Clears the signal and commits its notice. */
    method RecordInterruptNotice() returns (r: Result<Row>)
      requires Counting() && TextSettled() && MayClear(L()) && AfterClear(L()).phase.NoticeDue?
      modifies this`history, cancellation
      ensures Sound()
      ensures r.Err? ==> Fails(r.fault)
      ensures r.Ok? ==> SignalsCounted() && !cancellation.IsCancelled() && !cancellation.noticeTaken
      ensures r.Ok? ==> P() == old(P()) && L() == AfterNoticeRow(AfterClear(old(L())))
      ensures r.Ok? ==> C() == old(C()).(
                liveContext := old(C()).liveContext + [NOTICE_MESSAGE],
                additions := old(C()).additions + [NOTICE_MESSAGE],
                interruptNotices := old(C()).interruptNotices + 1,
                lastRow := Some(NOTICE_ROW),
                liveList := old(C()).liveList + [NOTICE_MESSAGE])
    {
      hide Safe, ProgressOf, ContentOf, StandingOf, NonWhitespace, IsTail;
      ClearSignal();
      RowRead(input.ScopeOf(env), history, NOTICE_ROW);
      assert C().committedText + "" == C().committedText;
      r := AppendRow(NOTICE_ROW);
    }

    /** Records the notice a seen signal owes and adds it to the live context. */
    method NoteInterruption() returns (r: Result<Row>)
      requires Counting() && TextSettled() && EvidenceHeld() && LiveHeld() && CounterHeld() && Paired(C().liveContext)
      requires MayClear(L()) && AfterClear(L()).phase.NoticeDue?
      modifies this`history, this`messages, this`extraMessages, cancellation
      ensures Sound()
      ensures r.Err? ==> Fails(r.fault)
      ensures r.Ok? ==> InAttempt() && !cancellation.IsCancelled()
      ensures r.Ok? ==> P() == old(P()) && C().committedText == old(C()).committedText
      ensures r.Ok? ==> L() == AfterNoticeRow(AfterClear(old(L())))
      ensures r.Ok? ==> C().interruptNotices == old(C()).interruptNotices + 1
    {
      hide Safe, ProgressOf, ContentOf, StandingOf, Paired, Windowed, AfterClear, AfterNoticeRow, NonWhitespace, IsTail;
      var row :- RecordInterruptNotice();
      PairedPush(old(C()).liveContext, NOTICE_MESSAGE);
      messages := messages + [NOTICE_MESSAGE];
      extraMessages := extraMessages + [NOTICE_MESSAGE];
      return Ok(row);
    }

    /** Takes the notice budget of the signal that was seen, with a look before and a look behind. */
    method TakeBudget() returns (owed: bool)
      requires Active() && L().raised && L().idle < MAX_IDLE_LOOKS - 1 && AtRest(L().phase)
      modifies this`history, cancellation
      ensures Sound() && Counting() && P() == old(P()) && C() == old(C())
      ensures owed && L().raised && L().phase == old(L()).phase && L().echo == old(L()).echo
      ensures L().calls == old(L()).calls
      ensures L().looks == old(L()).looks + 2 && L().asks == old(L()).asks && (old(L()).stopped ==> L().stopped)
    {
      hide Safe, ProgressOf, ContentOf, StandingOf, AfterLook;
      LookLeaves(L(), env.signal(L().looks));
      HostActs();
      owed := cancellation.TakeInterruptNotice();
      LookLeaves(L(), env.signal(L().looks));
      HostActs();
    }

    /** A boundary that saw the signal: whoever takes the notice budget records the notice. The
        branch for a budget already taken, which would clear the signal without a notice, is never
        reached: the budget is always free here. */
    method AnswerSignal() returns (r: Result<Row>)
      requires InAttempt() && TextSettled()
      requires L().raised && AtRest(L().phase) && L().idle < MAX_IDLE_LOOKS - 1 && IsKept(L())
      requires (AtBoundary(L()) && L().phase.checked) || L().phase == Drained(false, true)
      modifies this`history, this`messages, this`extraMessages, cancellation
      ensures Sound()
      ensures r.Err? ==> Fails(r.fault)
      ensures r.Ok? ==> InAttempt() && !cancellation.IsCancelled()
      ensures r.Ok? ==> P() == old(P()) && C().committedText == old(C()).committedText
      ensures r.Ok? ==> L().phase == if old(L()).phase.Over? then Ready(false) else Drained(false, true)
      ensures r.Ok? ==> L().looks >= old(L()).looks && L().asks == old(L()).asks && L().idle == 0
      ensures r.Ok? ==> C().interruptNotices == old(C()).interruptNotices + 1
    {
      hide Safe, ProgressOf, ContentOf, StandingOf, Paired, Windowed, NonWhitespace, IsTail, AfterClear, AfterNoticeRow;
      hide MayClear;
      var owed := TakeBudget();
      ClearLeaves(L());
      if owed {
        r := NoteInterruption();
      } else {
        assert false;
      }
    }

    /** Re-runs the window pass over the live message list, in place. */
    method ApplyWindow()
      modifies this`messages
      ensures messages == Windowed(window.Value(), old(messages), attachments)
    {
      hide Windowed;
      var list := messages;
      var buffer := new ModelMessage[|list|](i requires 0 <= i < |list| => list[i]);
      assert buffer[..] == list;
      window.Apply(buffer, attachments);
      messages := buffer[..];
    }

    /** The window pass of the attempt loop, the last thing before a request. */
    method ReviewWindow()
      requires InAttempt()
      modifies this`messages
      ensures Reviewed()
      ensures messages == [] ==> old(messages) == []
    {
      hide Safe, ProgressOf, ContentOf, StandingOf, Paired;
      ApplyWindow();
    }

    /** Records, once more at the boundary, that the closed round committed its assistant row. */
    method RecordStepCommit(committed: bool)
      requires InAttempt() && (committed ==> durableOutput)
      modifies this`durableOutput
      ensures InAttempt()
    {
      hide Safe, ProgressOf, ContentOf, StandingOf, Windowed, Paired;
      durableOutput := durableOutput || committed;
    }

    /** Completes the run. */
    method Complete() returns (r: Result<AttemptResult>)
      requires InAttempt() && TextSettled() && L().phase.Settled? && !L().stopped
      modifies this`history
      ensures Sound()
      ensures r.Err? ==> Fails(r.fault)
      ensures r.Ok? ==> r.value == AttemptCompleted && EndedWith(history, Completed)
    {
      hide Safe, ProgressOf, ContentOf, StandingOf, Windowed, Paired, NonWhitespace, IsTail, EndedWith;
      var _ :- FinishRun(Completed);
      return Ok(AttemptCompleted);
    }

    /** Puts the joined turns into the live message list and the run's additions, in order. */
    method JoinLive(turns: seq<string>)
      modifies this`messages, this`extraMessages
      ensures messages == old(messages) + TurnMessages(turns)
      ensures extraMessages == old(extraMessages) + TurnMessages(turns)
    {
      hide TurnMessages;
      NoTurns(messages);
      NoTurns(extraMessages);
      assert turns[..0] == [];
      var i := 0;
      while i < |turns|
        invariant 0 <= i <= |turns|
        invariant messages == old(messages) + TurnMessages(turns[..i])
        invariant extraMessages == old(extraMessages) + TurnMessages(turns[..i])
      {
        var live := ModelMessage(User, turns[i], [], None, false);
        TurnMessagesPush(turns, i);
        messages := messages + [live];
        extraMessages := extraMessages + [live];
        i := i + 1;
      }
      assert turns[..i] == turns;
    }

    /** A committed batch of pending turns joins the live context. */
    method JoinTurns(turns: seq<string>)
      requires InAttempt() && TextSettled() && Allowed(env, L(), TurnsJoined(turns))
      modifies this`history, this`messages, this`extraMessages
      ensures Sound() && InAttempt() && history == After(old(history), TurnsJoined(turns))
      ensures L() == AfterTurns(old(L()), turns)
      ensures P() == old(P()) && C().committedText == old(C()).committedText
      ensures C().interruptNotices == old(C()).interruptNotices
      ensures C().liveContext == old(C()).liveContext + TurnMessages(turns)
    {
      hide Safe, ProgressOf, ContentOf, StandingOf, Paired, AfterTurns, IsBlank, TurnMessages, NonWhitespace, IsTail;
      hide Allowed;
      TurnsRead(input.ScopeOf(env), history, turns);
      TurnsKeepPaired(C().liveContext, turns);
      TurnsLeave(L(), turns);
      history := After(history, TurnsJoined(turns));
      JoinLive(turns);
    }

    /** Commits every pending user turn and adds it to the live context, in FIFO order. The
        storage transaction refuses the whole batch when one turn is blank: then no turn joined. */
    method ConsumePendingUserTurns() returns (r: Result<bool>)
      requires InAttempt() && TextSettled() && MayJoin(L())
      modifies this`history, this`messages, this`extraMessages
      ensures Sound()
      ensures r.Err? ==> Fails(r.fault) && history == old(history) && messages == old(messages)
      ensures r.Ok? ==> InAttempt() && history == After(old(history), TurnsJoined(env.turns(old(L()).asks)))
      ensures r.Ok? ==> L() == AfterTurns(old(L()), env.turns(old(L()).asks))
      ensures r.Ok? ==> P() == old(P()) && C().committedText == old(C()).committedText
      ensures r.Ok? ==> C().interruptNotices == old(C()).interruptNotices
      ensures r.Ok? ==> C().liveContext == old(C()).liveContext + TurnMessages(env.turns(old(L()).asks))
      ensures r.Ok? ==> r.value == (env.turns(old(L()).asks) != [])
    {
      hide Safe, ProgressOf, ContentOf, StandingOf, Paired, MayJoin, IsBlank, TurnMessages;
      hide NonWhitespace, IsTail, AfterTurns;
      var turns := env.turns(L().asks);
      if env.storageFails(L().writes) || exists turn :: turn in turns && IsBlank(turn) {
        return Err(StorageFailed);
      }
      TurnsLeave(L(), turns);
      JoinTurns(turns);
      return Ok(turns != []);
    }

    // ------------------------------------------------------ provider rounds

    /** What the round's local collections hold. */
    ghost predicate Collected(calls: seq<ToolCall>, echo: string)
      reads this
    {
      && calls == L().calls
      && L().echo == Echo(reasoningChannelSeen, reasoningExceedsBound, echo)
      && !interruptedTool
    }

    /** Keeps a fragment of reasoning to send back. */
    method ObserveReasoning(content: string, echo: string) returns (grown: string)
      modifies this`reasoningChannelSeen, this`reasoningExceedsBound
      ensures Echo(reasoningChannelSeen, reasoningExceedsBound, grown) ==
                Echoed(Echo(old(reasoningChannelSeen), old(reasoningExceedsBound), echo), content)
    {
      reasoningChannelSeen := true;
      if content == "" {
        return echo;
      }
      if reasoningExceedsBound || Bytes(echo) + Bytes(content) > MAX_ROUND_REASONING_ECHO_BYTES {
        reasoningExceedsBound := true;
        return echo;
      }
      return echo + content;
    }

    /** How a round may leave the run. */
    ghost predicate RoundClosed(outcome: RoundOutcome)
      reads this, cancellation, window
    {
      && InAttempt() && L().idle == 0
      && (!outcome.RoundFailed? ==> IsKept(L()) && (outcome.committed ==> durableOutput))
      && match outcome
         case RoundFinished(reason, committed) =>
           TextSettled() && L().phase == Over(StreamFinished(reason), committed, false) && L().calls == []
         case RoundInterrupted(committed) =>
           TextSettled() && L().phase == Over(StreamCancelled, committed, false) && L().raised
         case RoundFailed(error, retryable) =>
           TextHeld() && L().phase == Lost(retryable, false, false) && Blames(error, env, L())
         case RoundToolCalls(calls, reasoning, _) => TextSettled() && Called(calls, reasoning)
    }

    /** A tool round hands over exactly the calls it streamed, with its whole reasoning. */
    ghost predicate Called(calls: seq<ToolCall>, reasoning: Option<AssistantReasoning>)
      reads this`history, this`interruptedTool
    {
      && Allowed(env, L(), RoundCalled(calls))
      && ReasoningOf(calls, P().roundReasoning) == Attached(reasoning)
      && !interruptedTool
    }

    /** A failed round commits nothing. */
    method FailRound(error: RunError, retryable: bool) returns (outcome: RoundOutcome)
      requires InAttempt() && TextHeld() && Allowed(env, L(), RoundFailedWith(retryable)) && Blames(error, env, L())
      modifies this`history
      ensures outcome == RoundFailed(error, retryable) && RoundClosed(outcome) && Sound()
      ensures P() == old(P()) && C() == old(C()) && L().looks == old(L()).looks
    {
      hide Safe, ProgressOf, ContentOf, StandingOf, Paired, Windowed, NonWhitespace, IsTail, Allowed;
      QuietRead(input.ScopeOf(env), history, RoundFailedWith(retryable));
      FailedLeaves(L(), retryable);
      history := After(history, RoundFailedWith(retryable));
      return RoundFailed(error, retryable);
    }

    /** What the stream said, recorded: the round's stream is open and no cancellation is there. */
    method Hear(poll: Poll)
      requires Counting() && Allowed(env, L(), Heard(poll))
      modifies this`history
      ensures Sound() && SignalsCounted() && C() == old(C())
      ensures history == After(old(history), Heard(poll)) && L() == AfterHearing(old(L()), poll)
      ensures var fact := if Takes(old(L()), poll) then Some(poll.event) else None;
              P() == old(P()).(
                answerText := old(P()).answerText + TextOf(fact),
                unrowed := old(P()).unrowed + TextOf(fact),
                lastUsage := UsageAfter(old(P()).lastUsage, fact),
                roundReasoning := ReasoningAfter(old(P()).roundReasoning, fact),
                accounting := Calibrated(old(P()).accounting, ReportIn(fact), old(P()).asked))
    {
      hide Safe, ProgressOf, ContentOf, StandingOf, AfterHearing, Allowed, TextOf, UsageAfter, ReasoningAfter, Takes;
      HearingRead(input.ScopeOf(env), history, poll);
      HearingLeaves(L(), poll);
      history := After(history, Heard(poll));
    }

    /** A fact that ends the stream and brings nothing in. */
    method HearTheEnd(poll: Poll, end: RoundEnd)
      requires InAttempt() && TextHeld() && Allowed(env, L(), Heard(poll)) && !Takes(L(), poll)
      requires AfterHearing(L(), poll).phase == Over(end, false, false)
      modifies this`history
      ensures InAttempt() && TextHeld() && L().phase == Over(end, false, false)
      ensures L().calls == old(L()).calls && L().echo == old(L()).echo && L().looks == old(L()).looks && L().idle == 0
      ensures L().heard == old(L()).heard + 1
      ensures P() == old(P()) && C() == old(C())
    {
      hide Safe, ProgressOf, ContentOf, StandingOf, Paired, Windowed, NonWhitespace, IsTail, AfterHearing, Allowed;
      hide Takes;
      HearingLeaves(L(), poll);
      Hear(poll);
      assert old(P()).answerText + "" == old(P()).answerText && old(P()).unrowed + "" == old(P()).unrowed;
    }

    /** A round the provider failed. */
    method FailStream(poll: Poll, end: RoundEnd, error: RunError, retryable: bool) returns (outcome: RoundOutcome)
      requires InAttempt() && TextHeld() && Allowed(env, L(), Heard(poll)) && !Takes(L(), poll)
      requires AfterHearing(L(), poll).phase == Over(end, false, false)
      requires FailureOf(end, L().calls, L().echo) == Some(retryable)
      requires Names(error, poll)
      modifies this`history
      ensures outcome == RoundFailed(error, retryable) && RoundClosed(outcome) && Sound()
      ensures P() == old(P()) && C() == old(C()) && L().looks == old(L()).looks
    {
      hide Safe, ProgressOf, ContentOf, StandingOf, Paired, Windowed, NonWhitespace, IsTail, AfterHearing, Takes;
      hide RoundClosed, FailureOf;
      HearTheEnd(poll, end);
      outcome := FailRound(error, retryable);
    }

    /** Commits the step of a round that did not fail, and records that output is durable. */
    method CommitRound(reasoning: Option<string>) returns (r: Result<bool>)
      requires InAttempt() && TextHeld() && L().phase.Over? && !L().phase.committed
      requires MayCommit(L(), reasoning, false) && reasoning == StepReasoning(L().echo.text) && L().idle == 0
      modifies this`history, this`pendingText, this`durableOutput
      ensures Sound()
      ensures r.Err? ==> Fails(r.fault)
      ensures r.Ok? ==> InAttempt() && TextSettled() && P() == old(P()).(unrowed := P().unrowed)
      ensures r.Ok? ==> L().phase == Over(old(L()).phase.end, r.value, old(L()).phase.checked)
      ensures r.Ok? ==> L().calls == old(L()).calls && L().echo == old(L()).echo && L().looks == old(L()).looks
      ensures r.Ok? ==> L().idle == 0 && IsKept(L())
      ensures r.Ok? ==> r.value == LeavesRow(old(pendingText), reasoning) && (r.value ==> durableOutput)
      ensures r.Ok? ==> history == Committed(old(history), old(pendingText), reasoning, false)
    {
      hide Safe, ProgressOf, ContentOf, StandingOf, Paired, Windowed, NonWhitespace, IsTail, LeavesRow, Committed;
      hide AfterAnswerRow, MayCommit, IsBlank, StepReasoning;
      AnswerRowLeaves(L());
      CommittedOrBlank(pendingText, L().echo.text);
      var committed :- CommitStep(reasoning);
      durableOutput := durableOutput || committed;
      return Ok(committed);
    }

    /** Builds the attachment of a round that streamed tool calls. A round whose reasoning no
        attachment can carry is refused, never truncated. */
    method ReasoningAttachment(calls: seq<ToolCall>, echo: string) returns (r: Result<Option<AssistantReasoning>>)
      ensures r.Err? <==> IsUnattachable(calls, Echo(reasoningChannelSeen, reasoningExceedsBound, echo))
      ensures r.Ok? ==> r.value == Attachment(calls, Echo(reasoningChannelSeen, reasoningExceedsBound, echo))
    {
      hide IsAttachable;
      if !reasoningChannelSeen {
        return Ok(None);
      }
      if reasoningExceedsBound || !IsAttachable(CallIds(calls), echo) {
        return Err(InvalidValue);
      }
      return Ok(Some(AssistantReasoning(CallIds(calls), echo)));
    }

    /** Closes a round that streamed tool calls: builds the attachment, then commits the step. A
        round whose reasoning no attachment can carry fails before anything of it is committed. */
    method CloseToolRound(calls: seq<ToolCall>, echo: string) returns (r: Result<RoundOutcome>)
      requires InAttempt() && TextHeld() && Collected(calls, echo) && calls != []
      requires Blames(ReasoningUnrepresentable, env, L())
      requires L().idle == 0 && L().phase.Over? && !L().phase.committed
      requires (L().phase.end.StreamFinished? || L().phase.end.StreamDried?)
      modifies this`history, this`pendingText, this`durableOutput
      ensures Sound()
      ensures r.Err? ==> Fails(r.fault)
      ensures r.Ok? ==> RoundClosed(r.value) && P() == old(P()).(unrowed := P().unrowed) && L().looks == old(L()).looks
      ensures r.Ok? ==> r.value == ToolRoundOutcome(calls, old(L()).echo, old(pendingText))
      ensures r.Ok? && r.value.RoundFailed? ==> C() == old(C()) && pendingText == old(pendingText)
    {
      hide Safe, ProgressOf, ContentOf, StandingOf, Paired, Windowed, NonWhitespace, IsTail, IsBlank, LeavesRow;
      hide IsUnattachable, AfterAnswerRow, Committed, EchoAgrees, ReasoningOf, Attachment, Attached;
      EchoIsRead(input.ScopeOf(env), history);
      var reasoning := ReasoningAttachment(calls, echo);
      if reasoning.Err? {
        var failed := FailRound(ReasoningUnrepresentable, false);
        return Ok(failed);
      }
      AttachmentIsWhole(calls, L().echo, P().roundReasoning);
      var committed :- CommitRound(StepReasoning(echo));
      return Ok(RoundToolCalls(calls, reasoning.value, committed));
    }

    /** Closes a round that answered without calls: its row carries the whole text and reasoning. */
    method CloseFinishedRound(reason: FinishReason, echo: string) returns (r: Result<RoundOutcome>)
      requires InAttempt() && TextHeld() && Collected([], echo)
      requires L().phase == Over(StreamFinished(reason), false, false) && L().idle == 0
      modifies this`history, this`pendingText, this`durableOutput
      ensures Sound()
      ensures r.Err? ==> Fails(r.fault)
      ensures r.Ok? ==> RoundClosed(r.value) && P() == old(P()).(unrowed := P().unrowed) && L().looks == old(L()).looks
      ensures r.Ok? ==> r.value == RoundFinished(reason, LeavesRow(old(pendingText), StepReasoning(echo)))
      ensures r.Ok? ==> history == Committed(old(history), old(pendingText), StepReasoning(echo), false)
    {
      hide Safe, ProgressOf, ContentOf, StandingOf, Paired, Windowed, NonWhitespace, IsTail, IsBlank, LeavesRow;
      hide Committed;
      hide AfterAnswerRow, IsUnattachable;
      var committed :- CommitRound(StepReasoning(echo));
      return Ok(RoundFinished(reason, committed));
    }

    /** Drops the stream of a cancelled round. */
    method DropStream()
      requires InAttempt() && TextHeld() && L().phase.Streaming? && L().raised
      modifies this`history
      ensures InAttempt() && TextHeld() && P() == old(P()) && C() == old(C())
      ensures history == After(old(history), RoundCancelled)
      ensures L() == old(L()).(phase := Over(StreamCancelled, false, false), idle := 0)
    {
      hide Safe, ProgressOf, ContentOf, StandingOf, Paired, Windowed, NonWhitespace, IsTail;
      QuietRead(input.ScopeOf(env), history, RoundCancelled);
      history := After(history, RoundCancelled);
    }

    /** Commits the step of a cancelled round, and records that output is durable. */
    method CommitCutRound(reasoning: Option<string>) returns (r: Result<bool>)
      requires InAttempt() && TextHeld() && L().phase.Over? && !L().phase.committed && L().idle == 0
      requires MayCommit(L(), reasoning, true) && MayCommit(L(), reasoning, false)
      requires reasoning == StepReasoning(L().echo.text)
      modifies this`history, this`pendingText, this`durableOutput
      ensures Sound()
      ensures r.Err? ==> Fails(r.fault)
      ensures r.Ok? ==> InAttempt() && TextSettled() && P() == old(P()).(unrowed := P().unrowed)
      ensures r.Ok? ==> L().phase == Over(old(L()).phase.end, r.value, old(L()).phase.checked)
      ensures r.Ok? ==> L().raised == old(L()).raised && L().looks == old(L()).looks && L().idle == 0 && IsKept(L())
      ensures r.Ok? ==> r.value == LeavesRow(old(pendingText), reasoning) && (r.value ==> durableOutput)
      ensures r.Ok? && !IsBlank(old(pendingText)) ==>
                history == After(old(history), 
                  Appended(Row(AssistantRow, old(pendingText) + CUT_SUFFIX, reasoning, None, true)))
    {
      hide Safe, ProgressOf, ContentOf, StandingOf, Paired, Windowed, NonWhitespace, IsTail, LeavesRow, Committed;
      hide AfterAnswerRow, MayCommit, IsBlank, StepReasoning;
      AnswerRowLeaves(L());
      CommittedOrBlank(pendingText, L().echo.text);
      var committed :- CommitInterruptedStep(reasoning);
      durableOutput := durableOutput || committed;
      return Ok(committed);
    }

    /** Closes a cancelled round: its partial text becomes a cut row. */
    method CloseInterruptedRound(calls: seq<ToolCall>, echo: string) returns (r: Result<RoundOutcome>)
      requires InAttempt() && TextHeld() && Collected(calls, echo) && L().phase.Streaming? && L().raised
      modifies this`history, this`pendingText, this`durableOutput
      ensures Sound()
      ensures r.Err? ==> Fails(r.fault)
      ensures r.Ok? ==> RoundClosed(r.value) && P() == old(P()).(unrowed := P().unrowed) && L().looks == old(L()).looks
      ensures r.Ok? ==> r.value == RoundInterrupted(LeavesRow(old(pendingText), StepReasoning(echo)))
      ensures r.Ok? && !IsBlank(old(pendingText)) ==> history == After(After(old(history), RoundCancelled),
                Appended(Row(AssistantRow, old(pendingText) + CUT_SUFFIX, StepReasoning(echo), None, true)))
    {
      hide Safe, ProgressOf, ContentOf, StandingOf, Paired, Windowed, NonWhitespace, IsTail, IsBlank, LeavesRow;
      hide AfterAnswerRow, IsUnattachable, Committed;
      DropStream();
      var committed :- CommitCutRound(StepReasoning(echo));
      return Ok(RoundInterrupted(committed));
    }

    /** The stream ended without a finish: complete only when it carried tool calls. */
    method CloseEndedStream(calls: seq<ToolCall>, echo: string) returns (r: Result<RoundOutcome>)
      requires InAttempt() && TextHeld() && Collected(calls, echo) && Allowed(env, L(), Heard(StreamEnded))
      modifies this`history, this`pendingText, this`durableOutput
      ensures Sound()
      ensures r.Err? ==> Fails(r.fault)
      ensures r.Ok? ==> RoundClosed(r.value) && P() == old(P()).(unrowed := P().unrowed) && L().looks == old(L()).looks
      ensures r.Ok? ==> if calls == [] then r.value == RoundFailed(ProviderStreamEnded, false)
                        else r.value.RoundToolCalls? || r.value == RoundFailed(ReasoningUnrepresentable, false)
    {
      hide Safe, ProgressOf, ContentOf, StandingOf, Paired, Windowed, NonWhitespace, IsTail, IsAttachable, RoundClosed;
      if calls == [] {
        var failed := FailStream(StreamEnded, StreamDried, ProviderStreamEnded, false);
        return Ok(failed);
      }
      HearTheEnd(StreamEnded, StreamDried);
      r := CloseToolRound(calls, echo);
    }

    /** The stream's terminal fact. */
    method CloseFinishedStream(reason: FinishReason, calls: seq<ToolCall>, echo: string)
      returns (r: Result<RoundOutcome>)
      requires InAttempt() && TextHeld() && Collected(calls, echo)
      requires Allowed(env, L(), Heard(Item(Finished(reason)))) && Takes(L(), Item(Finished(reason)))
      modifies this`history, this`pendingText, this`durableOutput
      ensures Sound()
      ensures r.Err? ==> Fails(r.fault)
      ensures r.Ok? ==> RoundClosed(r.value) && P() == old(P()).(unrowed := P().unrowed) && L().looks == old(L()).looks
      ensures r.Ok? ==> if calls == [] then r.value.RoundFinished? && r.value.reason == reason
                        else r.value.RoundToolCalls? || r.value == RoundFailed(ReasoningUnrepresentable, false)
    {
      hide Safe, ProgressOf, ContentOf, StandingOf, Paired, Windowed, NonWhitespace, IsTail, IsAttachable, RoundClosed;
      hide LeavesRow, Committed, IsUnattachable;
      Hear(Item(Finished(reason)));
      assert old(P()).answerText + "" == old(P()).answerText && old(P()).unrowed + "" == old(P()).unrowed;
      if calls == [] {
        r := CloseFinishedRound(reason, echo);
      } else {
        r := CloseToolRound(calls, echo);
      }
    }

    /** Records an accepted event; a known usage becomes the run's. */
    method TakeIn(event: ModelEvent)
      requires InAttempt() && Allowed(env, L(), Heard(Item(event))) && Takes(L(), Item(event))
      modifies this`history, this`usage
      ensures Sound() && Active() && EvidenceHeld() && C() == old(C())
      ensures P().attemptReasoning == old(P()).attemptReasoning
      ensures P().accounting == if event.UsageReport? then old(P()).accounting.Observed(event.usage, old(P()).asked)
                                else old(P()).accounting
      ensures history == After(old(history), Heard(Item(event))) && L() == AfterHearing(old(L()), Item(event))
      ensures NonWhitespace(P().answerText) == NonWhitespace(old(P()).answerText) + NonWhitespace(TextOf(Some(event)))
      ensures P().unrowed == old(P()).unrowed + TextOf(Some(event))
      ensures P().requestCount == old(P()).requestCount && P().asked == old(P()).asked
      ensures usage == UsageAfter(old(usage), Some(event))
    {
      hide Safe, ProgressOf, ContentOf, StandingOf, Paired, Windowed, AfterHearing, Takes, Allowed, TextOf;
      hide CounterHeld, MeasureHeld, NonWhitespace, IsTail;
      NonWhitespaceConcat(P().answerText, TextOf(Some(event)));
      Hear(Item(event));
      usage := UsageAfter(usage, Some(event));
    }

    /** Takes in one event the stream-order rules accepted, other than a terminal one: an answer
        delta into the pending text, reasoning into the echo, a call into the round's calls, a known
        usage into the run's and any usage into the window's accounting. */
    method AcceptEvent(event: ModelEvent, requestCharacters: nat, calls: seq<ToolCall>, echo: string)
      returns (calls': seq<ToolCall>, echo': string)
      requires InAttempt() && TextHeld() && Collected(calls, echo)
      requires Allowed(env, L(), Heard(Item(event))) && Takes(L(), Item(event)) && !event.Finished?
      requires requestCharacters == P().asked
      modifies this`history, this`pendingText, this`usage, this`reasoningChannelSeen, this`reasoningExceedsBound, window
      ensures Sound() && InAttempt() && TextHeld() && Collected(calls', echo')
      ensures history == After(old(history), Heard(Item(event))) && L() == AfterHearing(old(L()), Item(event))
      ensures L().looks == old(L()).looks && L().idle == 0
      ensures L().phase == Streaming(old(L()).phase.lifecycle.After(event))
      ensures pendingText == old(pendingText) + TextOf(Some(event))
      ensures usage == UsageAfter(old(usage), Some(event))
      ensures event.UsageReport? ==> window.Value() == old(window.Value()).Observed(event.usage, requestCharacters)
      ensures P().requestCount == old(P()).requestCount && P().asked == old(P()).asked
    {
      hide Safe, ProgressOf, ContentOf, StandingOf, Paired, Windowed, NonWhitespace, IsTail, IsBlank, Bytes;
      hide CounterHeld;
      hide Allowed, Accounting.Observed, Active, EvidenceHeld;
      assert pendingText + "" == pendingText;
      NonWhitespaceConcat(pendingText, TextOf(Some(event)));
      TailGrows(pendingText, P().unrowed, TextOf(Some(event)));
      TakeIn(event);
      calls', echo' := calls, echo;
      match event {
        case Started =>
        case TextDelta(content) =>
          pendingText := pendingText + content;
        case ReasoningDelta(content) =>
          echo' := ObserveReasoning(content, echo);
        case UsageReport(reported) =>
          window.ObserveUsage(reported, requestCharacters);
        case ToolCallReady(call) =>
          calls' := calls + [call];
      }
    }

    /** Claims the round's step and sends its request. */
    method SendRequest()
      requires MayContinue() && L().phase == Ready(true)
      modifies this`history, this`nextStep
      ensures InAttempt() && TextSettled() && L() == AfterRequest(old(L()))
      ensures history == After(old(history), Requested(old(nextStep), messages, attachments))
      ensures FaithfulRequest(input.ScopeOf(env), old(history), history.latest)
      ensures P().requestCount == old(P()).requestCount + 1 && P().asked == RequestCharacters(messages, attachments)
    {
      hide Safe, ProgressOf, ContentOf, StandingOf, Paired, Windowed, NonWhitespace, IsTail, CounterHeld;
      hide FaithfulRequest;
      hide AfterRequest;
      var request := Requested(nextStep, messages, attachments);
      RequestIsFaithful(input.ScopeOf(env), history, request);
      RequestRead(input.ScopeOf(env), history, request);
      RequestLeaves(L());
      nextStep := nextStep + 1;
      history := After(history, request);
    }

    /** Clears the previous round's observations and starts the provider stream. */
    method BeginRound()
      requires MayContinue() && L().phase == Ready(true) && L().idle < MAX_IDLE_LOOKS
      modifies this`history, this`nextStep, this`reasoningChannelSeen, this`reasoningExceedsBound, this`interruptedTool
      modifies cancellation
      ensures Sound() && InAttempt() && TextHeld() && Collected([], "") && L().phase == Streaming(FRESH_LIFECYCLE)
      ensures history.After? && history.latest == Requested(old(nextStep), messages, attachments)
      ensures P().requestCount == old(P()).requestCount + 1 && L().looks > old(L()).looks && L().idle == 0
      ensures P().asked == RequestCharacters(messages, attachments)
    {
      hide Safe, ProgressOf, ContentOf, StandingOf, Paired, Windowed, NonWhitespace, IsTail, LiveHeld, CounterHeld;
      hide FaithfulRequest;
      Pause();
      reasoningChannelSeen, reasoningExceedsBound, interruptedTool := false, false, false;
      SendRequest();
      SettledIsHeld();
    }

    /** One turn of the stream loop up to its next fact; `None` says that the round was cancelled.
        A cancellation that is ready wins over the stream and over the idle deadline. */
    method WaitForFact(ghost calls: seq<ToolCall>, ghost echo: string) returns (fact: Option<Poll>)
      requires InAttempt() && TextHeld() && Collected(calls, echo) && L().phase.Streaming? && L().idle == 0
      modifies this`history, cancellation
      ensures InAttempt() && TextHeld() && Collected(calls, echo) && P() == old(P())
      ensures L().phase == old(L()).phase && L().looks > old(L()).looks && L().asks == old(L()).asks
      ensures fact.None? ==> L().raised
      ensures fact.Some? ==> Sound() && Allowed(env, L(), Heard(fact.value))
      ensures fact.Some? ==> fact.value == env.poll(old(L()).heard)
    {
      hide Safe, ProgressOf, ContentOf, StandingOf, Paired, Windowed, NonWhitespace, IsTail, LiveHeld, CounterHeld;
      hide AfterLook;
      LookLeaves(L(), env.signal(L().looks));
      Pause();
      if cancellation.IsCancelled() {
        return None;
      }
      LookLeaves(L(), env.signal(L().looks));
      Pause();
      if cancellation.model {
        return None;
      }
      return Some(env.poll(L().heard));
    }

    /** One provider round: one request, its stream, and at most one assistant row. Its outcome is
        the one the stream gave. */
    method DriveProviderRound() returns (r: Result<RoundOutcome>)
      requires MayContinue() && L().phase == Ready(true) && L().idle < MAX_IDLE_LOOKS
      modifies this, cancellation, window
      ensures window == old(window) && attempts == old(attempts)
      ensures Sound()
      ensures r.Err? ==> Fails(r.fault)
      ensures r.Ok? ==> RoundClosed(r.value) && L().looks > old(L()).looks
      ensures r.Ok? ==> P().requestCount == old(P()).requestCount + 1
    {
      hide *;
      var lifecycle := FRESH_LIFECYCLE;
      var requestCharacters := RequestCharacters(messages, attachments);
      var calls: seq<ToolCall> := [];
      var echo := "";
      BeginRound();
      while L().looks < env.horizon
        invariant window == old(window) && attempts == old(attempts) && L().looks > old(L()).looks
        invariant Sound() && InAttempt() && TextHeld() && Collected(calls, echo) && L().phase == Streaming(lifecycle)
        invariant L().idle == 0
        invariant P().requestCount == old(P()).requestCount + 1 && P().asked == requestCharacters
        decreases env.horizon - L().looks
      {
        var fact := WaitForFact(calls, echo);
        if fact.None? {
          r := CloseInterruptedRound(calls, echo);
          return;
        }
        FactMeans(L(), lifecycle, fact.value);
        FactsAreNamed(fact.value);
        match fact.value {
          case IdleTimeout =>
            var failed := FailStream(IdleTimeout, StreamTimedOut, AttemptTimedOut, true);
            return Ok(failed);
          case ItemError(retryable) =>
            var failed := FailStream(ItemError(retryable), StreamBroke(retryable), ProviderFailed, retryable);
            return Ok(failed);
          case StreamEnded =>
            r := CloseEndedStream(calls, echo);
            return;
          case Item(event) =>
            if !lifecycle.Accepts(event) {
              var failed := FailStream(Item(event), StreamDisordered, InvalidStreamOrder, false);
              return Ok(failed);
            }
            lifecycle := lifecycle.After(event);
            if event.Finished? {
              r := CloseFinishedStream(event.reason, calls, echo);
              return;
            }
            calls, echo := AcceptEvent(event, requestCharacters, calls, echo);
        }
      }
      ObservedNoFurther();
      return Err(Unfinished);
    }

    lemma ObservedNoFurther()
      requires L().looks >= env.horizon && L().phase.Streaming?
      ensures Fails(Unfinished)
    {
    }

    lemma SettledIsHeld()
      requires TextSettled()
      ensures TextHeld()
    {
      hide ProgressOf, ContentOf, NonWhitespace, IsTail;
      assert NonWhitespace(C().committedText) + "" == NonWhitespace(C().committedText);
    }

    /** The state in which the attempt loop may go on. */
    ghost predicate MayContinue()
      reads this, cancellation, window
    {
      Reviewed() && TextSettled() && L().phase.Ready?
    }

    /** Whether the next look sees a stop. */
    predicate StopIsDue()
      reads this`history
    {
      L().stopped || env.signal(L().looks) == Signal.Stop
    }

    /** Whether a stop comes at one of these looks. */
    predicate StopComes(first: nat, end: nat) {
      exists k: nat :: first <= k < end && env.signal(k) == Signal.Stop
    }

    lemma StopComesByOneMore(first: nat, end: nat)
      requires first <= end
      ensures StopComes(first, end + 1) <==> StopComes(first, end) || env.signal(end) == Signal.Stop
      ensures !StopComes(first, first)
    {
      if StopComes(first, end) {
        var k: nat :| first <= k < end && env.signal(k) == Signal.Stop;
        assert first <= k < end + 1;
      }
    }

    // --------------------------------------------------------- tool batches

    /** The port commits one row of the call it was asked to run. */
    method PortRow(row: Row)
      requires Counting() && durableOutput && L().phase.Asking? && MayAppend(L(), row)
      requires row.kind in {ToolCallRow, ToolResultRow} && !row.cut
      modifies this`history
      ensures Counting() && P() == old(P())
      ensures history == After(old(history), Appended(row)) && L() == AfterToolRow(old(L())) && C().evidence
      ensures C().liveContext == old(C()).liveContext && C().committedText == old(C()).committedText
      ensures C().liveList == old(C()).liveList
    {
      hide Safe, ProgressOf, ContentOf, StandingOf, MayAppend;
      RowRead(input.ScopeOf(env), history, row);
      ToolRowLeaves(L());
      assert C().committedText + "" == C().committedText;
      assert C().liveContext + [] == C().liveContext;
      assert C().additions + [] == C().additions;
      assert C().liveList + [] == C().liveList;
      history := After(history, Appended(row));
    }

    /** The executor looks at the handle, then hands the call to the port. */
    method AskPort(call: ToolCall)
      requires Active() && L().idle == 0 && L().phase.Batch? && L().phase.todo != [] && L().phase.todo[0] == call
      modifies this`history, this`durableOutput, cancellation
      ensures Active() && durableOutput
      ensures history == After(old(LookedHistory()), Dispatched(call))
      ensures L().phase == Asking(old(L()).phase.todo, old(L()).phase.partial, 0)
      ensures L().replies == old(L()).replies && L().looks == old(L()).looks + 1 && L().stopped == old(StopIsDue())
      ensures P() == old(P()) && C() == old(C()).(evidence := true)
    {
      hide Safe, ProgressOf, ContentOf, StandingOf, AfterLook, AfterDispatch;
      LookLeaves(L(), env.signal(L().looks));
      HostActs();
      DispatchLeaves(L());
      DispatchRead(input.ScopeOf(env), history, Dispatched(call));
      history := After(history, Dispatched(call));
      durableOutput := true;
    }

    /** Takes the port's answer to the call it was asked to run. */
    method TakeReply(reply: PortReply)
      requires Active() && durableOutput && Allowed(env, L(), PortAnswered(reply))
      modifies this`history
      ensures Sound() && Active() && P() == old(P()) && C() == old(C()).(evidence := true)
      ensures history == After(old(history), PortAnswered(reply)) && L() == AfterReply(old(L()), reply)
    {
      hide Safe, ProgressOf, ContentOf, StandingOf, Allowed;
      DispatchRead(input.ScopeOf(env), history, PortAnswered(reply));
      history := After(history, PortAnswered(reply));
    }

    /** The port commits the rows of the call: both when it replies, some when it breaks. */
    method CommitPortRows(call: ToolCall, reply: PortReply)
      requires Active() && durableOutput && C().evidence
      requires L().phase.Asking? && L().phase.rows == 0 && L().phase.todo != [] && L().phase.todo[0] == call
      modifies this`history
      ensures Active() && C().evidence && history == PortRows(old(history), call, reply) && P() == old(P())
      ensures L().phase == Asking(old(L()).phase.todo, old(L()).phase.partial, RowsOf(reply))
      ensures L().replies == old(L()).replies && L().looks == old(L()).looks && L().stopped == old(L()).stopped
      ensures C().liveContext == old(C()).liveContext && C().committedText == old(C()).committedText
      ensures C().liveList == old(C()).liveList
    {
      hide Safe, ProgressOf, ContentOf, StandingOf, AfterToolRow, MayAppend, Counting;
      if RowsOf(reply) >= 1 {
        PortMayCommit(L(), call, ReplyText(reply));
        ToolRowLeaves(L());
        PortRow(CallRow(call));
      }
      if RowsOf(reply) >= 2 {
        PortMayCommit(L(), call, ReplyText(reply));
        ToolRowLeaves(L());
        PortRow(ResultRow(call, ReplyText(reply)));
      }
    }

    /** Dispatches one call through the tool port; `None` says that the port itself failed. The
        port's next reply decides, and a port that replies has committed the call and its result. */
    method Dispatch(call: ToolCall) returns (outcome: Option<ToolOutcome>)
      requires Active() && L().idle == 0 && L().phase.Batch? && L().phase.todo != [] && L().phase.todo[0] == call
      modifies this`history, this`durableOutput, cancellation
      ensures Sound() && Active() && durableOutput
      ensures history == Served(old(LookedHistory()), call, env.port(old(L()).replies))
      ensures match env.port(old(L()).replies)
              case Replied(reply) =>
                outcome == Some(reply) && L().phase == Told(old(L()).phase.todo, old(L()).phase.partial, reply)
              case Broke(_) => outcome == None && L().phase == Broken
      ensures L().replies == old(L()).replies + 1 && L().looks == old(L()).looks + 1 && L().stopped == old(StopIsDue())
      ensures P() == old(P())
      ensures C().liveContext == old(C()).liveContext && C().committedText == old(C()).committedText && C().evidence
      ensures C().liveList == old(C()).liveList
    {
      hide Safe, ProgressOf, ContentOf, StandingOf, LookedHistory, Counting, PortRows;
      AskPort(call);
      var reply := env.port(L().replies);
      CommitPortRows(call, reply);
      TakeReply(reply);
      match reply {
        case Replied(answer) => return Some(answer);
        case Broke(_) => return None;
      }
    }

    /** Adds one call's result to the live context; its window pass is still to come. */
    method AddAnswer(call: ToolCall, content: string)
      requires Active() && durableOutput && LiveHeld() && !IsBlank(content)
      requires Allowed(env, L(), Answered(call.callId, content))
      modifies this`history, this`messages
      ensures Active() && MeasureHeld() && messages == old(messages) + [ResultMessage(call, content)]
      ensures C().liveList == Windowed(P().accounting, messages, attachments)
      ensures history == After(old(history), Answered(call.callId, content)) && L() == AfterAnswer(old(L()))
      ensures P() == old(P()) && C().committedText == old(C()).committedText && C().evidence
      ensures C().liveContext == old(C()).liveContext + [ResultMessage(call, content)]
    {
      hide Safe, ProgressOf, ContentOf, StandingOf, Windowed, Allowed;
      AnswerRead(input.ScopeOf(env), history, call.callId, content);
      AnswerLeaves(L());
      history := After(history, Answered(call.callId, content));
      messages := messages + [ResultMessage(call, content)];
    }

    /** Between two calls of a batch: the live context ends with the batch's tool-call message and,
        in call order, what the port replied to each call so far. `first` is the number of replies
        before the batch. */
    ghost predicate InBatch(before: seq<ModelMessage>, calls: seq<ToolCall>, i: nat, first: nat)
      requires i <= |calls|
      reads this, cancellation, window
    {
      && Active() && LiveHeld() && TextSettled()
      && toolRound == batches % 256 && (i > 0 ==> durableOutput) && C().evidence
      && C().liveContext == before + ([CallMessage(calls)] + ReplyMessages(env, first, calls, i))
      && L().replies == first + i && L().idle == 0
      && L().phase == (if i == |calls| && calls != [] then Drained(interruptedTool, false)
                       else Batch(calls[i..], interruptedTool))
    }

    /** A broken tool port ends the run. */
    method FailTool() returns (r: Result<Option<AttemptResult>>)
      requires Active() && TextSettled() && L().phase == Broken && Blames(ToolPortError, env, L())
      modifies this`history
      ensures Sound()
      ensures r.Err? ==> Fails(r.fault)
      ensures r.Ok? ==> r.value == Some(AttemptFailedTerminal(ToolPortError)) && EndedWith(history, Failed)
      ensures r.Ok? ==> Blames(ToolPortError, env, L())
    {
      hide Safe, ProgressOf, ContentOf, StandingOf, NonWhitespace, IsTail, EndedWith;
      var _ :- FinishRun(Failed);
      return Ok(Some(AttemptFailedTerminal(ToolPortError)));
    }

    /** The port replied to call `i`: its result joins the live context, and the window pass runs. */
    method AnswerCall(calls: seq<ToolCall>, i: nat, ghost before: seq<ModelMessage>, ghost first: nat,
                      outcome: ToolOutcome)
      requires i < |calls| && Active() && LiveHeld() && TextSettled() && !IsBlank(outcome.content)
      requires toolRound == batches % 256 && durableOutput && C().evidence && L().replies == first + i + 1
      requires env.port(first + i) == Replied(outcome) && (outcome.ToolPartial? ==> interruptedTool)
      requires L().phase.Told? && L().phase.todo == calls[i..] && L().phase.outcome == outcome
      requires interruptedTool == (L().phase.partial || outcome.ToolPartial?)
      requires C().liveContext == before + ([CallMessage(calls)] + ReplyMessages(env, first, calls, i))
      modifies this`history, this`messages
      ensures Sound() && InBatch(before, calls, i + 1, first)
      ensures L().looks == old(L()).looks && L().stopped == old(L()).stopped
    {
      hide Safe, ProgressOf, ContentOf, StandingOf, Windowed, NonWhitespace, IsTail, IsBlank, ReplyMessages;
      RestOfCalls(calls, i);
      AnswerLeaves(L());
      AddAnswer(calls[i], outcome.content);
      OneMoreReply(before, env, first, calls, i);
      ApplyWindow();
    }

    lemma ThePortBroke()
      requires L().replies > 0 && env.port(L().replies - 1).Broke?
      ensures Blames(ToolPortError, env, L())
    {
    }

    /** One call of a batch: dispatch it, add its result, re-run the window pass. */
    method RunCall(calls: seq<ToolCall>, i: nat, ghost before: seq<ModelMessage>, ghost first: nat)
      returns (r: Result<Option<AttemptResult>>)
      requires i < |calls| && InBatch(before, calls, i, first)
      modifies this`history, this`durableOutput, this`messages, this`interruptedTool, cancellation
      ensures Sound()
      ensures r.Err? ==> Fails(r.fault)
      ensures r.Ok? && r.value.None? ==> InBatch(before, calls, i + 1, first) && env.port(first + i).Replied?
      ensures r.Ok? && r.value.None? ==> L().looks == old(L()).looks + 1 && L().stopped == old(StopIsDue())
      ensures r.Ok? && r.value.None? ==>
                interruptedTool == (old(interruptedTool) || env.port(first + i).outcome.ToolPartial?)
      ensures r.Ok? && r.value.Some? ==>
                && r.value.value == AttemptFailedTerminal(ToolPortError) && EndedWith(history, Failed)
                && env.port(first + i).Broke? && Blames(ToolPortError, env, L())
    {
      hide Safe, ProgressOf, ContentOf, StandingOf, Windowed, NonWhitespace, IsTail, EndedWith, IsBlank, Served;
      hide ReplyMessages, Active, Blames;
      RestOfCalls(calls, i);
      BatchIsActive(before, calls, i, first);
      var outcome := Dispatch(calls[i]);
      if outcome.None? {
        ThePortBroke();
        r := FailTool();
        return;
      }
      if outcome.value.ToolPartial? {
        interruptedTool := true;
      }
      if IsBlank(outcome.value.content) {
        return Err(InvalidValue);
      }
      AnswerCall(calls, i, before, first, outcome.value);
      return Ok(None);
    }

    /** Runs every call of one round in order. `None` says that all of them were answered: each
        with the port's own reply to it. A broken tool port ends the run. */
    method RunToolBatch(calls: seq<ToolCall>, ghost before: seq<ModelMessage>, ghost first: nat)
      returns (r: Result<Option<AttemptResult>>)
      requires Sound() && calls != [] && Paired(before) && InBatch(before, calls, 0, first) && !interruptedTool
      modifies this`history, this`durableOutput, this`messages, this`interruptedTool, cancellation
      ensures Sound()
      ensures r.Err? ==> Fails(r.fault)
      ensures r.Ok? && r.value.None? ==> InAttempt() && TextSettled() && L().phase == Drained(interruptedTool, false)
      ensures r.Ok? && r.value.None? ==> L().idle == 0
      ensures r.Ok? && r.value.None? ==>
                && L().looks == old(L()).looks + |calls|
                && (L().stopped <==> old(L()).stopped || StopComes(old(L()).looks, old(L()).looks + |calls|))
      ensures r.Ok? && r.value.None? ==>
                && (forall k :: first <= k < first + |calls| ==> env.port(k).Replied?)
                && (interruptedTool <==> exists k :: first <= k < first + |calls| && env.port(k).outcome.ToolPartial?)
                && C().liveContext == before + ([CallMessage(calls)] + ReplyMessages(env, first, calls, |calls|))
      ensures r.Ok? && r.value.Some? ==>
                && r.value.value == AttemptFailedTerminal(ToolPortError) && EndedWith(history, Failed)
                && Blames(ToolPortError, env, L())
                && exists k :: first <= k < first + |calls| && env.port(k).Broke?
    {
      hide Safe, ProgressOf, ContentOf, StandingOf, InBatch, Active, LiveHeld, TextSettled, ReplyMessages, EndedWith;
      hide Paired, StopComes;
      StopComesByOneMore(L().looks, L().looks);
      var i := 0;
      while i < |calls|
        invariant 0 <= i <= |calls|
        invariant Sound() && InBatch(before, calls, i, first)
        invariant L().looks == old(L()).looks + i
        invariant L().stopped <==> old(L()).stopped || StopComes(old(L()).looks, old(L()).looks + i)
        invariant forall k :: first <= k < first + i ==> env.port(k).Replied?
        invariant interruptedTool <==> exists k :: first <= k < first + i && env.port(k).outcome.ToolPartial?
      {
        var ended :- RunCall(calls, i, before, first);
        if ended.Some? {
          return Ok(ended);
        }
        StopComesByOneMore(old(L()).looks, old(L()).looks + i);
        i := i + 1;
      }
      BatchIsAnswered(before, calls, first);
      return Ok(None);
    }

    lemma BatchIsActive(before: seq<ModelMessage>, calls: seq<ToolCall>, i: nat, first: nat)
      requires i < |calls| && InBatch(before, calls, i, first)
      ensures Active()
    {
      hide Safe, ProgressOf, ContentOf, StandingOf, Windowed, NonWhitespace, IsTail, ReplyMessages;
    }

    lemma BatchIsAnswered(before: seq<ModelMessage>, calls: seq<ToolCall>, first: nat)
      requires calls != [] && Paired(before) && InBatch(before, calls, |calls|, first)
      ensures InAttempt() && TextSettled() && L().phase == Drained(interruptedTool, false) && L().idle == 0
      ensures C().liveContext == before + ([CallMessage(calls)] + ReplyMessages(env, first, calls, |calls|))
    {
      hide Safe, ProgressOf, ContentOf, StandingOf, Paired, Windowed, NonWhitespace, IsTail;
      BatchCompletes(before, env, first, calls);
    }

    // ------------------------------------------------- after a provider round

    /** A finished round completes the run, unless a stop, an interruption or a pending user
        turn is there first. */
    method AfterFinished(reason: FinishReason) returns (r: Result<Option<AttemptResult>>)
      requires InAttempt() && TextSettled()
      requires L().idle == 0 && IsKept(L()) && L().phase.Over? && L().phase.end == StreamFinished(reason)
      requires L().calls == []
      modifies this`history, this`messages, this`extraMessages, cancellation
      ensures Sound()
      ensures r.Err? ==> Fails(r.fault)
      ensures r.Ok? && r.value.None? ==> MayContinue() && L().looks >= old(L()).looks && L().idle == 0
      ensures r.Ok? && r.value.None? ==>
                C().interruptNotices == old(C()).interruptNotices + 1 || env.turns(old(L()).asks) != []
      ensures r.Ok? && r.value.Some? ==>
                && r.value.value == AttemptCompleted
                && EndedWith(history, if old(StopIsDue()) then Interrupted else Completed)
                && (!old(StopIsDue()) ==> env.turns(old(L()).asks) == [])
      ensures r.Ok? && old(StopIsDue()) ==> r.value.Some?
    {
      hide Safe, ProgressOf, ContentOf, StandingOf, Paired, Windowed, NonWhitespace, IsTail, EndedWith, Counting;
      hide LiveHeld;
      hide CounterHeld;
      hide AfterLook, AfterClear, AfterNoticeRow, MayClear, AfterTurns;
      LookLeaves(L(), env.signal(L().looks));
      var stopped := SeesStop();
      if stopped {
        var ended :- EndStoppedRun();
        return Ok(Some(ended));
      }
      r := SettleFinished();
    }

    /** An unstopped finished round: its interruption first, then the pending turns, then the end. */
    method SettleFinished() returns (r: Result<Option<AttemptResult>>)
      requires InAttempt() && TextSettled() && IsKept(L()) && L().idle == 1 && !L().stopped
      requires L().phase.Over? && L().phase.end.StreamFinished? && L().calls == [] && L().phase.checked
      modifies this`history, this`messages, this`extraMessages, cancellation
      ensures Sound()
      ensures r.Err? ==> Fails(r.fault)
      ensures r.Ok? && r.value.None? ==> MayContinue() && L().looks >= old(L()).looks && L().idle == 0
      ensures r.Ok? && r.value.None? ==>
                C().interruptNotices == old(C()).interruptNotices + 1 || env.turns(old(L()).asks) != []
      ensures r.Ok? && r.value.Some? ==>
                r.value.value == AttemptCompleted && EndedWith(history, Completed) && env.turns(old(L()).asks) == []
    {
      hide Safe, ProgressOf, ContentOf, StandingOf, Paired, Windowed, NonWhitespace, IsTail, EndedWith, Counting;
      hide LiveHeld;
      hide CounterHeld, AfterLook, AfterClear, AfterNoticeRow, MayClear, AfterTurns;
      LookLeaves(L(), env.signal(L().looks));
      Pause();
      if cancellation.IsCancelled() {
        SignalIsRead();
        ClearLeaves(L());
        var _ :- AnswerSignal();
        ReviewWindow();
        return Ok(None);
      }
      SignalIsRead();
      TurnsLeave(L(), env.turns(L().asks));
      var joined :- ConsumePendingUserTurns();
      if joined {
        ReviewWindow();
        return Ok(None);
      }
      var completed :- Complete();
      return Ok(Some(completed));
    }

    lemma SignalIsRead()
      requires Counting()
      ensures cancellation.IsCancelled() == L().raised
    {
      hide Safe, ProgressOf, ContentOf, StandingOf;
    }

    /** An interrupted round records its notice and goes on, unless the run was stopped. */
    method AfterInterrupted() returns (r: Result<Option<AttemptResult>>)
      requires InAttempt() && TextSettled() && IsKept(L()) && L().raised && L().phase.Over?
      requires L().phase.end == StreamCancelled
      requires L().idle == 0
      modifies this`history, this`messages, this`extraMessages, cancellation
      ensures Sound()
      ensures r.Err? ==> Fails(r.fault)
      ensures r.Ok? ==> (r.value.Some? <==> old(StopIsDue()))
      ensures r.Ok? && r.value.None? ==> MayContinue() && !cancellation.IsCancelled() && L().looks >= old(L()).looks
      ensures r.Ok? && r.value.None? ==> L().idle == 0
      ensures r.Ok? && r.value.None? ==> C().interruptNotices == old(C()).interruptNotices + 1
      ensures r.Ok? && r.value.Some? ==> r.value.value == AttemptCompleted && EndedWith(history, Interrupted)
    {
      hide Safe, ProgressOf, ContentOf, StandingOf, Paired, Windowed, NonWhitespace, IsTail, EndedWith;
      hide AfterLook, AfterClear, AfterNoticeRow, MayClear;
      LookLeaves(L(), env.signal(L().looks));
      var stopped := SeesStop();
      if stopped {
        var ended :- EndStoppedRun();
        return Ok(Some(ended));
      }
      r := NoteRound();
    }

    /** The interruption's own notice: a round that was cut records it whoever took the budget. */
    method NoteRound() returns (r: Result<Option<AttemptResult>>)
      requires InAttempt() && TextSettled() && IsKept(L()) && L().raised && AtBoundary(L()) && L().phase.checked
      requires L().idle <= 1
      modifies this`history, this`messages, this`extraMessages, cancellation
      ensures Sound()
      ensures r.Err? ==> Fails(r.fault)
      ensures r.Ok? ==> r.value == None && MayContinue() && !cancellation.IsCancelled() && L().looks >= old(L()).looks
      ensures r.Ok? ==> L().idle == 0
      ensures r.Ok? ==> C().interruptNotices == old(C()).interruptNotices + 1
    {
      hide Safe, ProgressOf, ContentOf, StandingOf, Paired, Windowed, NonWhitespace, IsTail;
      hide AfterLook, AfterClear, AfterNoticeRow, MayClear, MayStop;
      var _ := TakeBudget();
      ClearLeaves(L());
      var _ :- NoteInterruption();
      ReviewWindow();
      return Ok(None);
    }

    /** What is pending becomes the failed run's last step. */
    method EndFailedRun(error: RunError) returns (r: Result<Status>)
      requires Active() && TextHeld() && L().phase.Lost? && !L().phase.committed && L().phase.checked && !L().stopped
      requires L().phase.retryable ==> C().evidence || !IsBlank(pendingText) || attempts >= input.maxAttempts
      requires Blames(error, env, L())
      modifies this`history, this`pendingText
      ensures Sound()
      ensures r.Err? ==> Fails(r.fault)
      ensures r.Ok? ==> EndedWith(history, Failed) && Blames(error, env, L())
      ensures r.Ok? ==> history == FailedHistory(old(history), old(pendingText), usage)
    {
      hide Safe, ProgressOf, ContentOf, StandingOf, NonWhitespace, IsTail, EndedWith, Committed, IsBlank, Names;
      AnswerRowLeaves(L());
      var _ :- CommitStep(None);
      r := FinishRun(Failed);
    }

    /** A failed round of a stopped run ends it; otherwise the caller may retry, when the counter
        shows no tool round, or the run fails. */
    method AfterFailed(error: RunError, retryable: bool) returns (r: Result<AttemptResult>)
      requires Blames(error, env, L())
      requires InAttempt() && TextHeld() && L().phase == Lost(retryable, false, false) && L().idle == 0
      modifies this`history, this`pendingText, cancellation
      ensures Sound()
      ensures r.Err? ==> Fails(r.fault)
      ensures r.Ok? ==> (r.value.AttemptCompleted? <==> old(StopIsDue()))
      ensures r.Ok? && r.value.AttemptCompleted? ==> EndedWith(history, Interrupted)
      ensures r.Ok? && !r.value.AttemptCompleted? ==> Blames(error, env, L())
      ensures r.Ok? && r.value.AttemptFailed? ==>
                && r.value == AttemptFailed(error, retryable) && toolRound == 0
                && InAttempt() && TextHeld() && L().phase == Lost(retryable, false, true) && L().idle == 1
                && !L().stopped
                && history == old(LookedHistory()) && pendingText == old(pendingText)
      ensures r.Ok? && r.value.AttemptFailedTerminal? ==>
                && r.value.error == error && toolRound != 0 && EndedWith(history, Failed)
                && history == FailedHistory(old(LookedHistory()), old(pendingText), usage)
    {
      hide Safe, ProgressOf, ContentOf, StandingOf, Paired, Windowed, NonWhitespace, IsTail, EndedWith, Committed;
      hide LeavesRow;
      hide LookedHistory, AfterLook, FailedHistory, Names, MayStop;
      LookLeaves(L(), env.signal(L().looks));
      var stopped := SeesStop();
      if stopped {
        AnswerRowLeaves(L());
        FailedRoundMayStop(L());
        var _ :- CommitStep(None);
        r := EndStoppedRun();
        return;
      }
      if toolRound == 0 {
        return Ok(AttemptFailed(error, retryable));
      }
      var _ :- EndFailedRun(error);
      return Ok(AttemptFailedTerminal(error));
    }

    /** A partial tool result answers the signal without a row. */
    method ForgiveSignal()
      requires InAttempt() && TextSettled() && L().raised && L().phase == Drained(true, true) && L().idle <= 2
      modifies this`history, cancellation
      ensures Sound() && InAttempt() && P() == old(P()) && C() == old(C())
      ensures L().phase == Drained(true, true) && !L().raised && L().looks >= old(L()).looks && L().idle == 0
      ensures L().asks == old(L()).asks && (old(L()).stopped ==> L().stopped)
    {
      hide Safe, ProgressOf, ContentOf, StandingOf, Paired, Windowed, AfterLook, AfterClear, AfterNoticeRow;
      hide MayClear, MayStop, NonWhitespace, IsTail;
      var _ := TakeBudget();
      ClearLeaves(L());
      ClearSignal();
    }

    /** The interruption boundary behind a tool batch. A partial tool result already tells the
        model that its call was stopped, so it answers the signal without another row. */
    method SettleBatchSignal() returns (r: Result<bool>)
      requires InAttempt() && TextSettled() && L().phase == Drained(interruptedTool, true) && L().idle <= 1
      modifies this`history, this`messages, this`extraMessages, cancellation
      ensures Sound()
      ensures r.Err? ==> Fails(r.fault)
      ensures r.Ok? ==> InAttempt() && P() == old(P()) && C().committedText == old(C()).committedText
      ensures r.Ok? ==> L().phase == old(L()).phase && !L().raised && L().looks >= old(L()).looks
      ensures r.Ok? ==> C().interruptNotices == old(C()).interruptNotices + (if r.value then 1 else 0)
      ensures r.Ok? && old(L()).raised ==> (r.value <==> !interruptedTool)
    {
      hide Safe, ProgressOf, ContentOf, StandingOf, Paired, Windowed, Counting, LiveHeld, CounterHeld;
      hide AfterLook, AfterClear, AfterNoticeRow, MayClear, MayStop;
      LookLeaves(L(), env.signal(L().looks));
      Pause();
      SignalIsRead();
      ClearLeaves(L());
      if !cancellation.IsCancelled() {
        return Ok(false);
      }
      if interruptedTool {
        ForgiveSignal();
        return Ok(false);
      }
      var _ :- AnswerSignal();
      SignalIsRead();
      return Ok(true);
    }

    /** Runs the tool batch of one round and the boundary behind it. */
    method AfterToolCalls(calls: seq<ToolCall>, reasoning: Option<AssistantReasoning>)
      returns (r: Result<Option<AttemptResult>>)
      requires InAttempt() && TextSettled() && Called(calls, reasoning) && L().idle == 0
      modifies this, cancellation
      ensures window == old(window) && attempts == old(attempts)
      ensures Sound()
      ensures r.Err? ==> Fails(r.fault)
      ensures r.Ok? && r.value.None? ==> MayContinue() && L().looks >= old(L()).looks && L().idle == 0
      ensures r.Ok? && r.value.None? ==>
                !old(L()).stopped && !StopComes(old(L()).looks, old(L()).looks + |calls| + 1)
      ensures r.Ok? && r.value.None? ==>
                forall k :: old(L()).replies <= k < old(L()).replies + |calls| ==> env.port(k).Replied?
      ensures r.Ok? && r.value.Some? ==>
                || (r.value.value == AttemptCompleted && EndedWith(history, Interrupted)
                    && (old(L()).stopped || StopComes(old(L()).looks, old(L()).looks + |calls| + 1)))
                || (r.value.value == AttemptFailedTerminal(ToolPortError) && EndedWith(history, Failed)
                    && Blames(ToolPortError, env, L())
                    && exists k :: old(L()).replies <= k < old(L()).replies + |calls| && env.port(k).Broke?)
    {
      hide Safe, ProgressOf, ContentOf, StandingOf, Paired, Windowed, NonWhitespace, IsTail, EndedWith, Called;
      hide Counting;
      hide LiveHeld, CounterHeld;
      hide InBatch, ReplyMessages, TurnMessages, AfterLook, AfterTurns, MayClear, StopComes, InAttempt, TextSettled;
      hide MayContinue, Blames;
      ghost var before, first := C().liveContext, L().replies;
      BeginBatch(calls, reasoning);
      var broken :- RunToolBatch(calls, before, first);
      if broken.Some? {
        return Ok(broken);
      }
      StopComesByOneMore(old(L()).looks, L().looks);
      r := LeaveBatch();
    }

    /** The boundary behind a tool batch: a stop ends the run here. */
    method LeaveBatch() returns (r: Result<Option<AttemptResult>>)
      requires InAttempt() && TextSettled() && L().phase == Drained(interruptedTool, false) && L().idle == 0
      modifies this`history, this`messages, this`extraMessages, cancellation
      ensures Sound()
      ensures r.Err? ==> Fails(r.fault)
      ensures r.Ok? ==> (r.value.Some? <==> old(StopIsDue()))
      ensures r.Ok? && r.value.None? ==> MayContinue() && L().looks >= old(L()).looks && L().idle == 0
      ensures r.Ok? && r.value.Some? ==> r.value.value == AttemptCompleted && EndedWith(history, Interrupted)
    {
      hide Safe, ProgressOf, ContentOf, StandingOf, Paired, Windowed, NonWhitespace, IsTail, EndedWith, Counting;
      hide LiveHeld, CounterHeld, AfterLook;
      LookLeaves(L(), env.signal(L().looks));
      var stopped := SeesStop();
      if stopped {
        var ended :- EndStoppedRun();
        return Ok(Some(ended));
      }
      r := GoOnBehindBatch();
    }

    /** Settles the interruption of a batch and joins the pending turns. */
    method GoOnBehindBatch() returns (r: Result<Option<AttemptResult>>)
      requires InAttempt() && TextSettled() && L().phase == Drained(interruptedTool, true) && L().idle <= 1
      modifies this`history, this`messages, this`extraMessages, cancellation
      ensures Sound()
      ensures r.Err? ==> Fails(r.fault)
      ensures r.Ok? ==> r.value == None && MayContinue() && L().looks >= old(L()).looks && L().idle == 0
    {
      hide Safe, ProgressOf, ContentOf, StandingOf, Paired, Windowed, NonWhitespace, IsTail, Counting, LiveHeld;
      hide CounterHeld;
      hide TurnMessages, AfterTurns, MayClear;
      var _ :- SettleBatchSignal();
      TurnsLeave(L(), env.turns(L().asks));
      var _ :- ConsumePendingUserTurns();
      ReviewWindow();
      return Ok(None);
    }

    /** Records the calls of the round. */
    method CallRound(calls: seq<ToolCall>)
      requires Active() && TextSettled() && Allowed(env, L(), RoundCalled(calls))
      modifies this`history
      ensures Sound() && Active() && TextSettled()
      ensures history == After(old(history), RoundCalled(calls))
      ensures L().phase == Batch(calls, false) && L().idle == 0
      ensures L().looks == old(L()).looks && L().stopped == old(L()).stopped && L().replies == old(L()).replies
      ensures C() == old(C()).(
                liveContext := old(C()).liveContext + [CallMessage(calls)], evidence := true,
                liveList := old(C()).liveList + [CallMessage(calls)])
      ensures P() == old(P()).(
                attemptReasoning := old(P()).attemptReasoning + ReasoningOf(calls, old(P()).roundReasoning))
    {
      hide Safe, ProgressOf, ContentOf, StandingOf, NonWhitespace, IsTail, ReasoningOf, Allowed;
      RoundCalledRead(input.ScopeOf(env), history, calls);
      history := After(history, RoundCalled(calls));
    }

    lemma CalledSomething(calls: seq<ToolCall>, reasoning: Option<AssistantReasoning>)
      requires Called(calls, reasoning)
      ensures calls != []
    {
    }

    /** Puts the round's assistant tool-call message and its attachment into the live context. */
    method BeginBatch(calls: seq<ToolCall>, reasoning: Option<AssistantReasoning>)
      requires InAttempt() && TextSettled() && Called(calls, reasoning)
      modifies this`history, this`messages, this`attachments, this`toolRound, this`batches
      ensures Sound() && calls != [] && Paired(old(C()).liveContext) && !interruptedTool
      ensures InBatch(old(C()).liveContext, calls, 0, old(L()).replies)
      ensures history == After(old(history), RoundCalled(calls))
      ensures L().looks == old(L()).looks && L().stopped == old(L()).stopped
    {
      hide Safe, ProgressOf, ContentOf, StandingOf, Paired, Windowed, NonWhitespace, IsTail, ReasoningOf, Answers;
      hide Active, TextSettled, Allowed, ReplyMessages;
      CalledSomething(calls, reasoning);
      var message := CallMessage(calls);
      var attached := attachments + Attached(reasoning);
      NoRepliesYet(env, L().replies, calls);
      assert C().liveContext + [message] == C().liveContext + ([message] + []);
      CallRound(calls);
      messages := messages + [message];
      attachments := attached;
      toolRound := (toolRound + 1) % 256;
      batches := batches + 1;
    }

    // ------------------------------------------------------- start and end

    /** Nothing happened yet. */
    ghost predicate AtStart()
      reads this, cancellation
    {
      && history == Beginning && pendingText == "" && usage == None && !durableOutput && nextStep == 0
      && extraMessages == [] && attempts == 0
      && !cancellation.model && !cancellation.tool && !cancellation.noticeTaken && !cancellation.stop
    }

    method BeginRunning() returns (r: Result<Status>)
      requires AtStart()
      modifies this`history
      ensures Sound()
      ensures r.Err? ==> Fails(r.fault)
      ensures r.Ok? ==> history == After(Beginning, StatusWritten(Running, None))
      ensures r.Ok? ==> Active() && EvidenceHeld() && TextSettled() && !C().evidence && attempts == 0
      ensures r.Ok? ==> L().phase == Between
    {
      hide Safe, ProgressOf, ContentOf, StandingOf, NonWhitespace, IsTail, LegalPath;
      StartRead(input.ScopeOf(env));
      EmptyIsBlank();
      WholeIsTail("");
      StatusRead(input.ScopeOf(env), history, Running, usage);
      assert [] + [Running] == [Running];
      r := WriteStatus(Running);
    }

    /** A configuration that cannot drive the run fails it before it runs. */
    method Refuse() returns (r: Result<ExecutionOutcome>)
      requires AtStart()
      modifies this`history
      ensures Sound()
      ensures r.Err? ==> Fails(r.fault)
      ensures r.Ok? ==> r.value == RunFailed(ConfigurationUnavailable) && RefusedAtStart(history)
      ensures r.Ok? ==> TextConserved(history)
    {
      hide Safe, TextConserved, StandingOf;
      StartRead(input.ScopeOf(env));
      RefusalRead(input.ScopeOf(env));
      var _ :- WriteStatus(Failed);
      return Ok(RunFailed(ConfigurationUnavailable));
    }

    // -------------------------------------------------------------- attempts

    /** The state in which an attempt may begin. */
    ghost predicate MayAttempt()
      reads this, cancellation
    {
      && Active() && EvidenceHeld() && TextSettled() && !C().evidence
      && attempts < input.maxAttempts
      && (L().phase == Between || L().phase == Lost(true, false, true))
    }

    /** Records that an attempt began. */
    method RecordAttempt()
      requires MayAttempt()
      modifies this`history, this`attempts
      ensures Active() && EvidenceHeld() && TextSettled() && L().phase.Ready? && attempts == old(attempts) + 1
      ensures history == After(old(history), AttemptBegan) && L().looks == old(L()).looks && L().idle == 0
      ensures Paired(C().liveContext) && C().liveList == input.base + extraMessages
      ensures P().attemptReasoning == [] && P().accounting == Accounting(input.windowTokens, None, 0)
    {
      hide Safe, ProgressOf, ContentOf, StandingOf, NonWhitespace, IsTail, Paired;
      AdditionsArePaired(history);
      AdditionsAreRead(input.ScopeOf(env), history);
      AttemptRead(input.ScopeOf(env), history);
      history := After(history, AttemptBegan);
      attempts := attempts + 1;
    }

    /** Lays out the attempt's message list: the run's base messages, then the additions that
        survived earlier attempts. */
    method LayOutContext()
      requires MayAttempt() && window.Value() == Accounting(input.windowTokens, None, 0)
      modifies this`history, this`messages, this`attachments, this`toolRound, this`batches, this`attempts
      ensures InAttempt() && TextSettled() && L().phase.Ready? && attempts == old(attempts) + 1
      ensures history == After(old(history), AttemptBegan) && L().looks == old(L()).looks && L().idle == 0
      ensures messages == input.base + extraMessages
    {
      hide Safe, ProgressOf, ContentOf, StandingOf, NonWhitespace, IsTail, Paired;
      RecordAttempt();
      messages := input.base + extraMessages;
      attachments := [];
      toolRound, batches := 0, 0;
    }

    /** Starts an attempt with a fresh window accounting. */
    method BeginAttempt()
      requires MayAttempt()
      modifies this
      ensures fresh(window)
      ensures MayContinue() && Sound() && attempts == old(attempts) + 1
      ensures history == After(old(history), AttemptBegan) && L().looks == old(L()).looks && L().idle == 0
      ensures messages == [] ==> input.base == []
    {
      hide Safe, ProgressOf, ContentOf, StandingOf, NonWhitespace, IsTail, Windowed, Paired, LiveHeld, CounterHeld;
      window := new ContextWindowState(input.windowTokens);
      LayOutContext();
      ReviewWindow();
    }

    /** What the attempt loop does with a closed round; `None` says that it goes on. */
    method SettleRound(outcome: RoundOutcome) returns (r: Result<Option<AttemptResult>>)
      requires RoundClosed(outcome)
      modifies this, cancellation
      ensures window == old(window) && attempts == old(attempts)
      ensures Sound()
      ensures r.Err? ==> Fails(r.fault)
      ensures r.Ok? && r.value.None? ==> MayContinue() && L().looks >= old(L()).looks && L().idle == 0
      ensures r.Ok? && r.value.Some? ==> AttemptEnded(r.value.value)
    {
      hide Safe, ProgressOf, ContentOf, StandingOf, NonWhitespace, IsTail, Windowed, Paired, EndedWith, Counting;
      hide LiveHeld;
      hide CounterHeld, Called;
      match outcome {
        case RoundFinished(reason, committed) =>
          RecordStepCommit(committed);
          r := AfterFinished(reason);
        case RoundInterrupted(committed) =>
          RecordStepCommit(committed);
          r := AfterInterrupted();
        case RoundFailed(error, retryable) =>
          var failed :- AfterFailed(error, retryable);
          return Ok(Some(failed));
        case RoundToolCalls(calls, reasoning, committed) =>
          RecordStepCommit(committed);
          r := AfterToolCalls(calls, reasoning);
      }
    }

    /** How an attempt may leave the run. */
    ghost predicate AttemptEnded(result: AttemptResult)
      reads this, cancellation, window
    {
      match result
      case AttemptCompleted => EndedWith(history, Completed) || EndedWith(history, Interrupted)
      case AttemptFailedTerminal(error) => EndedWith(history, Failed) && Blames(error, env, L())
      case AttemptFailed(error, retryable) =>
        && InAttempt() && TextHeld()
        && L().phase == Lost(retryable, false, true) && L().idle <= 1 && !L().stopped
        && Blames(error, env, L())
    }

    lemma FailedAttempt(error: RunError, retryable: bool)
      requires AttemptEnded(AttemptFailed(error, retryable))
      ensures Active() && EvidenceHeld() && TextHeld() && L().phase == Lost(retryable, false, true) && L().idle <= 1
      ensures Blames(error, env, L()) && !L().stopped
    {
      hide Counting, TextHeld, EvidenceHeld, MeasureHeld, CounterHeld, StandingOf, ContentOf;
    }

    /** One provider attempt: rounds and tool batches until one of them ends it. */
    method DriveAttempt() returns (r: Result<AttemptResult>)
      requires MayAttempt()
      modifies this, cancellation
      ensures Sound()
      ensures r.Err? ==> Fails(r.fault)
      ensures r.Ok? ==> attempts == old(attempts) + 1 && AttemptEnded(r.value)
    {
      hide Safe, ProgressOf, ContentOf, StandingOf, NonWhitespace, IsTail, Windowed, Paired, EndedWith, LiveHeld;
      hide CounterHeld, RoundClosed;
      BeginAttempt();
      if messages == [] {
        return Err(InvalidValue);
      }
      while L().looks < env.horizon
        invariant fresh(window) && attempts == old(attempts) + 1
        invariant MayContinue() && L().idle == 0
        decreases env.horizon - L().looks
      {
        var stopped := SeesStop();
        if stopped {
          r := EndStoppedRun();
          return;
        }
        var outcome :- DriveProviderRound();
        var ended :- SettleRound(outcome);
        if ended.Some? {
          return Ok(ended.value);
        }
      }
      return Err(Unfinished);
    }

    /** Waits out the delay before the next attempt; an interruption ends the wait early. */
    method WaitForRetry() returns (r: Result<bool>)
      requires Active() && TextSettled() && L().phase == Lost(true, false, true) && L().idle <= 1
      modifies this`history, this`extraMessages, cancellation
      ensures Sound()
      ensures r.Err? ==> Fails(r.fault)
      ensures r.Ok? ==> Active() && P() == old(P())
      ensures r.Ok? ==> L().phase == if r.value then Between else Lost(true, false, true)
      ensures r.Ok? ==> C().committedText == old(C()).committedText && C().evidence == old(C()).evidence
      ensures r.Ok? && r.value ==> C().interruptNotices == old(C()).interruptNotices + 1 && !cancellation.IsCancelled()
    {
      hide Safe, ProgressOf, ContentOf, StandingOf, AfterLook, AfterClear, AfterNoticeRow, MayClear, MayStop;
      LookLeaves(L(), env.signal(L().looks));
      HostActs();
      if !cancellation.IsCancelled() {
        LookLeaves(L(), env.signal(L().looks));
        HostActs();
        if !cancellation.model {
          return Ok(false);
        }
      }
      r := AnswerDelay();
    }

    /** An interruption of the delay: its notice joins the context of the next attempt. */
    method AnswerDelay() returns (r: Result<bool>)
      requires Active() && TextSettled() && L().raised && L().phase == Lost(true, false, true) && L().idle <= 3
      modifies this`history, this`extraMessages, cancellation
      ensures Sound()
      ensures r.Err? ==> Fails(r.fault)
      ensures r.Ok? ==> r.value && Active() && P() == old(P()) && L().phase == Between
      ensures r.Ok? ==> C().committedText == old(C()).committedText && C().evidence == old(C()).evidence
      ensures r.Ok? ==> C().interruptNotices == old(C()).interruptNotices + 1 && !cancellation.IsCancelled()
    {
      hide Safe, ProgressOf, ContentOf, StandingOf, AfterLook, AfterClear, AfterNoticeRow, MayClear, MayStop;
      hide NonWhitespace, IsTail;
      var owed := TakeBudget();
      ClearLeaves(L());
      if owed {
        var _ :- RecordInterruptNotice();
        extraMessages := extraMessages + [NOTICE_MESSAGE];
        return Ok(true);
      } else {
        assert false;
      }
    }

    /** What the execution does with a failed attempt; `None` says that it tries again. */
    method SettleAttempt(error: RunError, retryable: bool, attempt: nat) returns (r: Result<Option<ExecutionOutcome>>)
      requires Active() && EvidenceHeld() && TextHeld() && L().phase == Lost(retryable, false, true)
      requires !L().stopped && attempts == attempt && L().idle <= 1 && Blames(error, env, L())
      modifies this`history, this`pendingText, this`extraMessages, cancellation
      ensures Sound()
      ensures r.Err? ==> Fails(r.fault)
      ensures r.Ok? ==> var concluded := Concluded(0, old(history), old(pendingText), usage,
                                                   retryable, durableOutput, attempt, input.maxAttempts);
                (r.value.None? <==> concluded.None?) && (concluded.Some? ==> history == concluded.value)
      ensures r.Ok? && r.value.None? ==> MayAttempt()
      ensures r.Ok? && r.value.Some? ==> r.value.value == RunFailed(error) && EndedWith(history, Failed)
      ensures r.Ok? && r.value.Some? ==> Blames(error, env, L())
    {
      hide Safe, ProgressOf, ContentOf, StandingOf, NonWhitespace, IsTail, EndedWith, FailedHistory, IsBlank, Counting;
      BlankIffNoCharacters(pendingText);
      if Retries(retryable, durableOutput, pendingText, attempt, input.maxAttempts) {
        assert NonWhitespace(C().committedText) + "" == NonWhitespace(C().committedText);
        var _ :- WaitForRetry();
        return Ok(None);
      }
      var _ :- EndFailedRun(error);
      return Ok(Some(RunFailed(error)));
    }

    /** One attempt and what becomes of it; `None` says that another one follows. */
    method TryOnce(attempt: nat) returns (r: Result<Option<ExecutionOutcome>>)
      requires MayAttempt() && attempts == attempt - 1 && attempt > 0
      modifies this, cancellation
      ensures Sound()
      ensures r.Err? ==> Fails(r.fault)
      ensures r.Ok? && r.value.None? ==> MayAttempt() && attempts == attempt
      ensures r.Ok? && r.value == Some(RunCompleted) ==>
                EndedWith(history, Completed) || EndedWith(history, Interrupted)
      ensures r.Ok? && r.value.Some? && r.value.value.RunFailed? ==>
                EndedWith(history, Failed) && Blames(r.value.value.error, env, L())
    {
      hide Safe, ProgressOf, ContentOf, StandingOf, NonWhitespace, IsTail, EndedWith, Concluded, Active, InAttempt;
      hide EvidenceHeld, TextHeld, TextSettled, Names;
      var driven :- DriveAttempt();
      match driven {
        case AttemptCompleted =>
          return Ok(Some(RunCompleted));
        case AttemptFailedTerminal(error) =>
          return Ok(Some(RunFailed(error)));
        case AttemptFailed(error, retryable) =>
          FailedAttempt(error, retryable);
          r := SettleAttempt(error, retryable, attempt);
      }
    }
  }

  const NOTICE_MESSAGE := ModelMessage(Notice, INTERRUPT_NOTICE, [], None, false)

  function CallMessage(calls: seq<ToolCall>): ModelMessage {
    ModelMessage(Assistant, "", calls, None, false)
  }

  function ResultMessage(call: ToolCall, content: string): ModelMessage {
    ModelMessage(Tool, content, [], Some(call.callId), false)
  }

  function CallRow(call: ToolCall): Row {
    Row(ToolCallRow, call.argumentsJson, None, Some(call.callId), false)
  }

  function ResultRow(call: ToolCall, content: string): Row {
    Row(ToolResultRow, content, None, Some(call.callId), false)
  }

  function ReplyText(reply: PortReply): string {
    if reply.Replied? then reply.outcome.content else ""
  }

  /** The rows a port committed for one call before it answered. */
  function PortRows(asked: History, call: ToolCall, reply: PortReply): History {
    var called := if RowsOf(reply) >= 1 then After(asked, Appended(CallRow(call))) else asked;
    if RowsOf(reply) >= 2 then After(called, Appended(ResultRow(call, ReplyText(reply)))) else called
  }

  /** The history once the port was asked for one call and gave this reply: a port that replies has
      committed exactly the call's row and its result's row. */
  function Served(h: History, call: ToolCall, reply: PortReply): History {
    After(PortRows(After(h, Dispatched(call)), call, reply), PortAnswered(reply))
  }

  lemma PortMayCommit(s: Standing, call: ToolCall, content: string)
    requires s.phase.Asking? && s.phase.todo != [] && s.phase.todo[0] == call
    ensures s.phase.rows == 0 ==> MayAppend(s, CallRow(call))
    ensures s.phase.rows == 1 ==> MayAppend(s, ResultRow(call, content))
  {
  }

  /** The results of the first calls of a batch, as the port's replies from `first` on give them. */
  function ReplyMessages(env: Environment, first: nat, calls: seq<ToolCall>, n: nat): seq<ModelMessage>
    requires n <= |calls|
  {
    seq(n, k requires 0 <= k < n => ResultMessage(calls[k], ReplyText(env.port(first + k))))
  }

  lemma NoRepliesYet(env: Environment, first: nat, calls: seq<ToolCall>)
    ensures ReplyMessages(env, first, calls, 0) == [] && calls[0..] == calls
  {
  }

  lemma OneMoreReply(before: seq<ModelMessage>, env: Environment, first: nat, calls: seq<ToolCall>, i: nat)
    requires i < |calls|
    ensures (before + ([CallMessage(calls)] + ReplyMessages(env, first, calls, i)))
            + [ResultMessage(calls[i], ReplyText(env.port(first + i)))]
            == before + ([CallMessage(calls)] + ReplyMessages(env, first, calls, i + 1))
  {
    assert ReplyMessages(env, first, calls, i + 1)
        == ReplyMessages(env, first, calls, i) + [ResultMessage(calls[i], ReplyText(env.port(first + i)))];
  }

  lemma RestOfCalls(calls: seq<ToolCall>, i: nat)
    requires i < |calls|
    ensures calls[i..] != [] && calls[i..][0] == calls[i] && calls[i..][1..] == calls[i + 1..]
    ensures |calls[i..]| == |calls| - i
  {
  }

  /** A batch whose every call was answered keeps the live context paired. */
  lemma BatchCompletes(before: seq<ModelMessage>, env: Environment, first: nat, calls: seq<ToolCall>)
    requires Paired(before) && calls != []
    ensures Paired(before + ([CallMessage(calls)] + ReplyMessages(env, first, calls, |calls|)))
  {
    hide Paired;
    BatchIsPaired(CallMessage(calls), ReplyMessages(env, first, calls, |calls|));
    PairedConcat(before, [CallMessage(calls)] + ReplyMessages(env, first, calls, |calls|));
  }

  /** The additions are notices and user turns only, so they are paired on their own. */
  lemma {:induction false} AdditionsArePaired(h: History)
    ensures Paired(RunAdditions(h))
  {
    hide Paired, RunAdditions;
    match h
    case Beginning => NothingIsPaired();
    case After(past, latest) =>
      AdditionsArePaired(past);
      AdditionsStep(past, latest);
  }

  lemma AdditionsAreRead(scope: Scope, h: History)
    ensures ContentOf(scope, h).additions == RunAdditions(h)
  {
  }

  lemma NothingIsPaired()
    ensures Paired([]) && RunAdditions(Beginning) == []
  {
  }

  lemma AdditionsStep(past: History, latest: Happening)
    requires Paired(RunAdditions(past))
    ensures Paired(RunAdditions(After(past, latest)))
  {
    hide Paired, TurnMessages;
    if latest.TurnsJoined? {
      TurnsKeepPaired(RunAdditions(past), latest.turns);
    } else if AddedBy(latest) == [] {
      assert RunAdditions(past) + [] == RunAdditions(past);
    } else {
      PairedPush(RunAdditions(past), AddedBy(latest)[0]);
    }
  }

  /** The attachment a round's bounded echo makes, when one can carry it. */
  function Attachment(calls: seq<ToolCall>, echo: Echo): Option<AssistantReasoning> {
    if echo.seen then Some(AssistantReasoning(CallIds(calls), echo.text)) else None
  }

  /** What a round that streamed tool calls comes to. */
  function ToolRoundOutcome(calls: seq<ToolCall>, echo: Echo, pendingText: string): RoundOutcome {
    if IsUnattachable(calls, echo) then RoundFailed(ReasoningUnrepresentable, false)
    else RoundToolCalls(calls, Attachment(calls, echo), LeavesRow(pendingText, StepReasoning(echo.text)))
  }

  /** An attachment that could be built carries the whole reasoning of its round. */
  lemma AttachmentIsWhole(calls: seq<ToolCall>, echo: Echo, whole: Option<string>)
    requires EchoAgrees(echo, whole) && !IsUnattachable(calls, echo)
    ensures ReasoningOf(calls, whole) == Attached(Attachment(calls, echo))
  {
    hide IsAttachable;
  }

  function Attached(reasoning: Option<AssistantReasoning>): seq<AssistantReasoning> {
    if reasoning.Some? then [reasoning.value] else []
  }

  lemma CommittedOrBlank(text: string, echo: string)
    ensures LeavesRow(text, StepReasoning(echo)) || IsBlank(echo)
  {
  }

  lemma WritesLeave(h: History, status: Status, usage: Option<Usage>)
    ensures var t := StandingOf(After(h, StatusWritten(status, usage)));
            t.heard == StandingOf(h).heard && t.replies == StandingOf(h).replies
  {
    hide StandingOf;
    assert StandingOf(After(h, StatusWritten(status, usage))) == Then(StandingOf(h), StatusWritten(status, usage)) by {
      StandingThen(h, StatusWritten(status, usage));
    }
  }

  lemma StandingThen(h: History, latest: Happening)
    ensures StandingOf(After(h, latest)) == Then(StandingOf(h), latest)
  {
  }

  lemma EchoIsRead(scope: Scope, h: History)
    ensures EchoAgrees(StandingOf(h).echo, ProgressOf(scope, h).roundReasoning)
  {
    EchoIsWhole(h);
  }

  lemma NoTurns(list: seq<ModelMessage>)
    ensures list + TurnMessages([]) == list
  {
  }

  lemma TurnMessagesPush(turns: seq<string>, i: nat)
    requires i < |turns|
    ensures TurnMessages(turns[..i + 1]) == TurnMessages(turns[..i]) + [ModelMessage(User, turns[i], [], None, false)]
  {
  }

  lemma {:induction false} TurnsKeepPaired(context: seq<ModelMessage>, turns: seq<string>)
    requires Paired(context)
    ensures Paired(context + TurnMessages(turns))
  {
    hide Paired;
    if turns == [] {
      NoTurns(context);
    } else {
      var before := turns[..|turns| - 1];
      TurnsKeepPaired(context, before);
      TurnMessagesPush(turns, |before|);
      assert turns[..|before| + 1] == turns;
      var last := ModelMessage(User, turns[|before|], [], None, false);
      PairedPush(context + TurnMessages(before), last);
      assert context + TurnMessages(turns) == (context + TurnMessages(before)) + [last];
    }
  }

  lemma MarkingIsUndone(text: string)
    requires !IsBlank(text)
    ensures EndsCut(text + CUT_SUFFIX) && !IsBlank(text + CUT_SUFFIX)
    ensures Uncut(text + CUT_SUFFIX, true) == text
  {
    var cut := text + CUT_SUFFIX;
    assert cut[|cut| - |CUT_SUFFIX|..] == CUT_SUFFIX;
    assert cut[..|cut| - |CUT_SUFFIX|] == text;
    var i :| 0 <= i < |text| && !IsWhitespace(text[i]);
    assert cut[i] == text[i];
  }

  function CurrentStatus(written: seq<Status>): Status {
    if written == [] then Starting else written[|written| - 1]
  }

  /** One bounded model execution. Returns the outcome and the history it left behind, for any
      environment and also when a durable write failed or the run was observed only in part. */
  method Execute(input: ExecutionInput, env: Environment) returns (r: Result<ExecutionOutcome>, h: History)
    ensures Safe(input.ScopeOf(env), h)
    ensures r.Err? ==> Excused(input, env, StandingOf(h), r.fault)
    ensures r.Ok? ==> RefusedAtStart(h) || EndedWith(h, Completed) || EndedWith(h, Failed) || EndedWith(h, Interrupted)
    ensures r.Ok? ==> TextConserved(h)
    ensures r.Ok? ==> (r.value.RunFailed? <==> RefusedAtStart(h) || EndedWith(h, Failed))
    ensures r.Ok? && EndedWith(h, Failed) ==> Blames(r.value.error, env, StandingOf(h))
    ensures r.Ok? ==> (RefusedAtStart(h) <==> !input.selectionUsable || input.maxAttempts == 0)
    ensures input.status != Starting ==> r == Err(InvalidStart) && h == Beginning
  {
    hide Safe, ProgressOf, ContentOf, StandingOf, NonWhitespace, IsTail, Windowed, Paired, EndedWith, TextConserved;
    hide Concluded, RunExecution.Active, RunExecution.InAttempt, RunExecution.EvidenceHeld, RunExecution.TextHeld;
    var run := new RunExecution(input, env);
    StartRead(input.ScopeOf(env));
    if input.status != Starting {
      return Err(InvalidStart), run.history;
    }
    if !input.selectionUsable {
      r := run.Refuse();
      EndedFacts(run.history);
      return r, run.history;
    }
    var attempt := 1;
    while attempt <= input.maxAttempts
      invariant run.input == input && run.env == env
      invariant fresh(run) && fresh(run.cancellation)
      invariant 1 <= attempt && (input.maxAttempts > 0 ==> attempt <= input.maxAttempts)
      invariant attempt == 1 ==> run.AtStart()
      invariant attempt > 1 ==> input.maxAttempts > 0 && run.MayAttempt() && run.attempts == attempt - 1
      decreases input.maxAttempts - attempt
    {
      if attempt == 1 {
        var started := run.BeginRunning();
        if started.Err? {
          return Err(started.fault), run.history;
        }
      }
      var tried := run.TryOnce(attempt);
      if tried.Err? {
        return Err(tried.fault), run.history;
      }
      if tried.value.Some? {
        EndedFacts(run.history);
        return Ok(tried.value.value), run.history;
      }
      attempt := attempt + 1;
    }
    r := run.Refuse();
    EndedFacts(run.history);
    return r, run.history;
  }

  lemma EndedFacts(h: History)
    ensures EndedWith(h, Failed) ==> !EndedWith(h, Completed) && !EndedWith(h, Interrupted)
    ensures EndedWith(h, Completed) || EndedWith(h, Failed) || EndedWith(h, Interrupted) ==>
              TextConserved(h) && !RefusedAtStart(h)
  {
  }
}
