/** What the run executor keeps true of a run's history, and how each happening is read. */
module RunReadings {
  import opened ContextWindow
  import opened ModelTypes
  import opened RunEvents
  import opened RunHistory
  import opened RunProtocol
  import opened RunStatus
  import opened RunWindow
  import opened Text

  // ------------------------------------------------------- requests of a run

  /** The fixed part of a run its promises refer to. */
  datatype Scope = Scope(base: seq<ModelMessage>, maxAttempts: nat, windowTokens: nat, env: Environment)

  /** One provider request is the live message list behind one more window pass, under the accounting
      its attempt has by then. Its messages are the run's base messages followed by exactly the live
      context the history spells, seen through window passes; its attachments are exactly those the
      attempt owes; its calls and results are paired; and steps are numbered without gaps. */
  ghost predicate FaithfulRequest(scope: Scope, past: History, request: Happening)
    requires request.Requested?
  {
    && request.messages == Windowed(AccountingOf(scope.windowTokens, past),
                                    LiveList(scope.base, scope.windowTokens, past), request.reasoning)
    && WindowImage(request.messages, scope.base + LiveContext(past))
    && request.reasoning == AttemptReasoning(past)
    && Paired(LiveContext(past))
    && request.step == RequestCount(past)
  }

  ghost predicate RequestsFaithful(scope: Scope, h: History) {
    match h
    case Beginning => true
    case After(past, latest) =>
      RequestsFaithful(scope, past) && (latest.Requested? ==> FaithfulRequest(scope, past, latest))
  }

  /** What every history of a run keeps, finished or not, failed writes included: it is an orderly
      account of what this environment said; its requests are faithful; attempts begin clean and
      failures are final; notices answer signals; rows carry something, their own text whole, cut ones
      the marker; and the log never lags behind the stream. */
  ghost predicate Safe(scope: Scope, h: History) {
    && Orderly(scope.env, h)
    && RequestsFaithful(scope, h)
    && AttemptsBeginClean(h, scope.maxAttempts)
    && FailuresAreFinal(h, scope.maxAttempts)
    && InterruptNotices(h) <= StandingOf(h).edges
    && RowsAreMeant(h)
    && RowsKeepTheirText(h)
    && NeverLags(h)
    && LegalPath(Starting, Statuses(h))
  }

  /** What an execution that returned leaves behind: one terminal status, written last, after
      one `Running`; no streamed text lost; the last known usage recorded; a stop answered by
      exactly one notice as the last row. */
  ghost predicate EndedWith(h: History, status: Status) {
    && IsTerminal(status)
    && h.After?
    && h.latest == StatusWritten(status, LastUsage(h.past))
    && Statuses(h) == [Running, status]
    && TextConserved(h)
    && StopNotices(h) == (if status == Interrupted then 1 else 0)
    && (status == Interrupted ==> LastRow(h) == Some(STOP_ROW))
  }

  /** A run whose configuration cannot drive it fails without ever running. */
  ghost predicate RefusedAtStart(h: History) {
    h == After(Beginning, StatusWritten(Failed, None))
  }

  // ------------------------------------------------- the window of every request

  /** Every request of a run fits the window of its attempt or holds nothing that could still be
      compressed, and carries its cache marks. */
  lemma {:induction false} RequestsAreReviewed(scope: Scope, h: History)
    requires RequestsFaithful(scope, h)
    ensures RequestsReviewed(scope.windowTokens, h)
  {
    hide IsReviewed, WindowImage, Paired, Windowed;
    match h
    case Beginning =>
    case After(past, latest) =>
      RequestsAreReviewed(scope, past);
      if latest.Requested? {
        WindowedIsReviewed(AccountingOf(scope.windowTokens, past), LiveList(scope.base, scope.windowTokens, past),
                           latest.reasoning);
      }
  }

  /** The live message list is the base followed by the live context, seen through window passes. */
  lemma {:induction false} LiveListIsAnImage(scope: Scope, h: History)
    requires RequestsFaithful(scope, h)
    ensures WindowImage(LiveList(scope.base, scope.windowTokens, h), scope.base + LiveContext(h))
  {
    hide WindowImage, Windowed, Paired, AddedBy, Calibrated;
    match h
    case Beginning =>
      assert scope.base + [] == scope.base;
      UntouchedImage(scope.base);
    case After(past, latest) =>
      LiveListIsAnImage(scope, past);
      ImageStep(scope, past, latest);
  }

  lemma ImageStep(scope: Scope, past: History, latest: Happening)
    requires WindowImage(LiveList(scope.base, scope.windowTokens, past), scope.base + LiveContext(past))
    requires latest.Requested? ==> FaithfulRequest(scope, past, latest)
    ensures WindowImage(LiveList(scope.base, scope.windowTokens, After(past, latest)),
                        scope.base + LiveContext(After(past, latest)))
  {
    hide WindowImage, Windowed, Paired, AddedBy, Calibrated;
    var list, original := LiveList(scope.base, scope.windowTokens, past), scope.base + LiveContext(past);
    match latest
    case AttemptBegan => UntouchedImage(scope.base + RunAdditions(past));
    case Requested(_, _, _) =>
      assert AddedBy(latest) == [] by {
        RequestsAddNothing(latest);
      }
      assert LiveContext(past) + [] == LiveContext(past);
    case RoundCalled(calls) =>
      var message := ModelMessage(Assistant, "", calls, None, false);
      assert original + [message] == scope.base + (LiveContext(past) + [message]);
      ImageAppend(list, original, [message]);
    case Answered(callId, content) =>
      var message := ModelMessage(Tool, content, [], Some(callId), false);
      assert original + [message] == scope.base + (LiveContext(past) + [message]);
      ImageAppend(list, original, [message]);
      var w := AccountingOf(scope.windowTokens, past);
      WindowKeepsImage(w, list + [message], original + [message], AttemptReasoning(past));
    case _ =>
      assert original + AddedBy(latest) == scope.base + (LiveContext(past) + AddedBy(latest));
      ImageAppend(list, original, AddedBy(latest));
  }

  lemma RequestsAddNothing(latest: Happening)
    requires latest.Requested?
    ensures AddedBy(latest) == []
  {
  }

  // -------------------------------------------------------- what an ending means

  /** Why a run ended as it did, in terms of what its environment said: it completes only behind a
      round that heard its finish and called nothing, with no pending turn left and no stop seen; it
      fails only behind a broken tool port or a failed round; it is interrupted only by a stop. */
  ghost predicate IsJustified(env: Environment, s: Standing, status: Status) {
    match status
    case Completed =>
      && !s.stopped
      && s.heard > 0 && env.poll(s.heard - 1).Item? && env.poll(s.heard - 1).event.Finished? && s.calls == []
      && s.asks > 0 && env.turns(s.asks - 1) == []
    case Failed =>
      || (s.phase.Broken? && s.replies > 0 && env.port(s.replies - 1).Broke?)
      || (s.phase.Lost? && s.heard > 0 && Fails(env.poll(s.heard - 1), s.phase.retryable))
    case Interrupted => StopWasSent(env, s.looks)
    case _ => true
  }

  lemma EndingsAreJustified(scope: Scope, h: History, status: Status)
    requires Safe(scope, h) && EndedWith(h, status)
    ensures IsJustified(scope.env, StandingOf(h.past), status)
  {
    hide RequestsFaithful, AttemptsBeginClean, RowsAreMeant, NeverLags, LegalPath, StopWasSent;
    PhasesAreTrue(scope.env, h.past);
    assert Allowed(scope.env, StandingOf(h.past), h.latest);
    StatusesAreWrites(h.past);
    assert h.past != Beginning ==> Statuses(h) == Statuses(h.past) + [status];
    assert Statuses(h.past) != [];
  }

  lemma {:induction false} StatusesAreWrites(h: History)
    ensures Statuses(h) != [] ==> StandingOf(h).writes > 0
  {
    match h
    case Beginning =>
    case After(past, latest) =>
      StatusesAreWrites(past);
      WritesGrow(StandingOf(past), latest);
  }

  lemma WritesGrow(s: Standing, latest: Happening)
    ensures Then(s, latest).writes >= s.writes + (if latest.StatusWritten? then 1 else 0)
  {
    hide Looked, Echoed, AfterHearing, AfterRow;
    HearingKeepsWrites(s);
    RowsAreWrites(s);
  }

  lemma HearingKeepsWrites(s: Standing)
    ensures forall poll :: AfterHearing(s, poll).writes == s.writes
  {
    hide Echoed;
  }

  lemma RowsAreWrites(s: Standing)
    ensures forall kind :: AfterRow(s, kind).writes >= s.writes
  {
  }

  /** A run fails only when nothing else was left: its tool port broke, or a round failed that may not
      be retried, behind durable output, or in the last attempt. */
  lemma FailedRunsWereSpent(scope: Scope, h: History)
    requires Safe(scope, h) && EndedWith(h, Failed)
    ensures var s := StandingOf(h.past);
            s.phase.Broken? ||
            (s.phase.Lost? && (!s.phase.retryable || HasEvidence(h.past) || AttemptCount(h.past) >= scope.maxAttempts))
  {
    hide RequestsFaithful, AttemptsBeginClean, RowsAreMeant, NeverLags, LegalPath;
    PhasesAreTrue(scope.env, h.past);
    StatusesAreWrites(h.past);
    assert Allowed(scope.env, StandingOf(h.past), h.latest);
    assert h.past != Beginning ==> Statuses(h) == Statuses(h.past) + [Failed];
    assert Statuses(h.past) != [];
  }

  /** A stop is final: behind it at most one provider round starts and at most one tool batch goes
      on, and a run that saw one ends interrupted - or failed, when its tool port broke. */
  lemma StopEndsTheRun(scope: Scope, h: History, status: Status)
    requires Safe(scope, h) && EndedWith(h, status)
    ensures StandingOf(h).lateRequests <= 1 && StandingOf(h).lateBatches <= 1
    ensures StandingOf(h).stopped ==> status == Interrupted || (status == Failed && StandingOf(h.past).phase.Broken?)
  {
    hide RequestsFaithful, AttemptsBeginClean, RowsAreMeant, NeverLags, LegalPath;
    StopIsFinal(scope.env, h.past);
    PhasesAreTrue(scope.env, h.past);
    StatusesAreWrites(h.past);
    assert Allowed(scope.env, StandingOf(h.past), h.latest);
    assert h.past != Beginning ==> Statuses(h) == Statuses(h.past) + [status];
    assert Statuses(h.past) != [];
  }

  // ---------------------------------------------- how one happening is read

  /** The readings that the provider, the attempts and the status writes make. */
  datatype Progress = Progress(
    answerText: string,
    statuses: seq<Status>,
    lastUsage: Option<Usage>,
    attemptReasoning: seq<AssistantReasoning>,
    roundReasoning: Option<string>,
    requestCount: nat,
    attempts: nat,
    accounting: Accounting,
    asked: nat,
    unrowed: string)

  /** The readings that committed rows and the live context make. */
  datatype Content = Content(
    liveContext: seq<ModelMessage>,
    additions: seq<ModelMessage>,
    evidence: bool,
    committedText: string,
    interruptNotices: nat,
    stopNotices: nat,
    lastRow: Option<Row>,
    liveList: seq<ModelMessage>)

  function ProgressOf(scope: Scope, h: History): Progress {
    Progress(AnswerText(h), Statuses(h), LastUsage(h), AttemptReasoning(h), RoundReasoning(h), RequestCount(h),
             AttemptCount(h), AccountingOf(scope.windowTokens, h), AskedCharacters(h), UnrowedText(h))
  }

  function ContentOf(scope: Scope, h: History): Content {
    Content(LiveContext(h), RunAdditions(h), HasEvidence(h), CommittedText(h), InterruptNotices(h), StopNotices(h),
            LastRow(h), LiveList(scope.base, scope.windowTokens, h))
  }

  /** Happenings that commit nothing and add nothing to the live context. */
  predicate IsQuiet(latest: Happening) {
    latest.Signalled? || latest.SignalCleared? || latest.Stopping? || latest.RoundCancelled? || latest.RoundFailedWith?
  }

  lemma EdgesGrow(s: Standing, latest: Happening)
    ensures Then(s, latest).edges >= s.edges
  {
    if latest.Heard? {
      HearingLeaves(s, latest.poll);
    }
    hide Looked, AfterHearing;
  }

  lemma QuietRead(scope: Scope, h: History, latest: Happening)
    requires Safe(scope, h) && IsQuiet(latest) && Allowed(scope.env, StandingOf(h), latest)
    requires BringsUpToDate(latest) ==>
               NonWhitespace(ProgressOf(scope, h).answerText) == NonWhitespace(ContentOf(scope, h).committedText)
    ensures Safe(scope, After(h, latest))
    ensures StandingOf(After(h, latest)) == Then(StandingOf(h), latest)
    ensures ProgressOf(scope, After(h, latest)) == ProgressOf(scope, h)
    ensures ContentOf(scope, After(h, latest)) == ContentOf(scope, h)
  {
    QuietIsSafe(scope, h, latest);
    QuietChangesNothing(scope, h, latest);
    hide Safe, ProgressOf, ContentOf, Then;
  }

  lemma QuietIsSafe(scope: Scope, h: History, latest: Happening)
    requires Safe(scope, h) && IsQuiet(latest) && Allowed(scope.env, StandingOf(h), latest)
    requires BringsUpToDate(latest) ==>
               NonWhitespace(ProgressOf(scope, h).answerText) == NonWhitespace(ContentOf(scope, h).committedText)
    ensures Safe(scope, After(h, latest))
  {
    EdgesGrow(StandingOf(h), latest);
    NothingAdded(scope, h);
    hide LegalPath, FaithfulRequest, NonWhitespace, IsTail, Allowed, Then;
  }

  lemma QuietChangesNothing(scope: Scope, h: History, latest: Happening)
    requires IsQuiet(latest)
    ensures ProgressOf(scope, After(h, latest)) == ProgressOf(scope, h)
    ensures ContentOf(scope, After(h, latest)) == ContentOf(scope, h)
  {
    NothingAdded(scope, h);
    hide StandingOf;
  }

  lemma NothingAdded(scope: Scope, h: History)
    ensures LiveList(scope.base, scope.windowTokens, h) + [] == LiveList(scope.base, scope.windowTokens, h)
    ensures UnrowedText(h) + "" == UnrowedText(h)
    ensures LiveContext(h) + [] == LiveContext(h) && RunAdditions(h) + [] == RunAdditions(h)
    ensures AnswerText(h) + "" == AnswerText(h) && CommittedText(h) + "" == CommittedText(h)
  {
  }

  /** A committed row. A cut row carries the marker, an interruption notice needs a signal that no
      notice answered yet, and an assistant row brings the log up to date. */
  lemma RowRead(scope: Scope, h: History, row: Row)
    requires Safe(scope, h) && MayAppend(StandingOf(h), row)
    requires IsMeant(row)
    requires row.kind == AssistantRow ==> IsTail(RowAnswer(row), ProgressOf(scope, h).unrowed)
    requires IsNotice(row, INTERRUPT_NOTICE) ==> ContentOf(scope, h).interruptNotices < StandingOf(h).edges
    requires row.kind == AssistantRow ==>
               NonWhitespace(ContentOf(scope, h).committedText + RowAnswer(row))
                 == NonWhitespace(ProgressOf(scope, h).answerText)
    ensures Safe(scope, After(h, Appended(row)))
    ensures StandingOf(After(h, Appended(row))) == AfterRow(StandingOf(h), row.kind)
    ensures ProgressOf(scope, After(h, Appended(row))) == ProgressOf(scope, h).(
              unrowed := if row.kind == AssistantRow then "" else ProgressOf(scope, h).unrowed)
    ensures ContentOf(scope, After(h, Appended(row))) == Content(
      ContentOf(scope, h).liveContext + AddedBy(Appended(row)),
      ContentOf(scope, h).additions + AddedBy(Appended(row)),
      ContentOf(scope, h).evidence || row.kind in {AssistantRow, ToolCallRow, ToolResultRow},
      ContentOf(scope, h).committedText + (if row.kind == AssistantRow then RowAnswer(row) else ""),
      ContentOf(scope, h).interruptNotices + (if IsNotice(row, INTERRUPT_NOTICE) then 1 else 0),
      ContentOf(scope, h).stopNotices + (if IsNotice(row, RUN_STOP_NOTICE) then 1 else 0),
      Some(row),
      ContentOf(scope, h).liveList + AddedBy(Appended(row)))
  {
    RowIsSafe(scope, h, row);
    RowAdds(scope, h, row);
    hide Safe, ProgressOf, ContentOf, AfterRow;
  }

  lemma RowIsSafe(scope: Scope, h: History, row: Row)
    requires Safe(scope, h) && MayAppend(StandingOf(h), row)
    requires IsMeant(row)
    requires row.kind == AssistantRow ==> IsTail(RowAnswer(row), ProgressOf(scope, h).unrowed)
    requires IsNotice(row, INTERRUPT_NOTICE) ==> ContentOf(scope, h).interruptNotices < StandingOf(h).edges
    requires row.kind == AssistantRow ==>
               NonWhitespace(ContentOf(scope, h).committedText + RowAnswer(row))
                 == NonWhitespace(ProgressOf(scope, h).answerText)
    ensures Safe(scope, After(h, Appended(row)))
  {
    EdgesGrow(StandingOf(h), Appended(row));
    NothingAdded(scope, h);
    hide LegalPath, FaithfulRequest, NonWhitespace, IsTail, MayAppend, IsMeant, Then;
  }

  lemma RowAdds(scope: Scope, h: History, row: Row)
    ensures ProgressOf(scope, After(h, Appended(row))) == ProgressOf(scope, h).(
              unrowed := if row.kind == AssistantRow then "" else ProgressOf(scope, h).unrowed)
    ensures ContentOf(scope, After(h, Appended(row))) == Content(
      ContentOf(scope, h).liveContext + AddedBy(Appended(row)),
      ContentOf(scope, h).additions + AddedBy(Appended(row)),
      ContentOf(scope, h).evidence || row.kind in {AssistantRow, ToolCallRow, ToolResultRow},
      ContentOf(scope, h).committedText + (if row.kind == AssistantRow then RowAnswer(row) else ""),
      ContentOf(scope, h).interruptNotices + (if IsNotice(row, INTERRUPT_NOTICE) then 1 else 0),
      ContentOf(scope, h).stopNotices + (if IsNotice(row, RUN_STOP_NOTICE) then 1 else 0),
      Some(row),
      ContentOf(scope, h).liveList + AddedBy(Appended(row)))
  {
    NothingAdded(scope, h);
    hide StandingOf;
  }

  /** A joined batch of pending turns. */
  lemma TurnsRead(scope: Scope, h: History, turns: seq<string>)
    requires Safe(scope, h) && Allowed(scope.env, StandingOf(h), TurnsJoined(turns))
    requires NonWhitespace(ProgressOf(scope, h).answerText) == NonWhitespace(ContentOf(scope, h).committedText)
    ensures Safe(scope, After(h, TurnsJoined(turns)))
    ensures StandingOf(After(h, TurnsJoined(turns))) == AfterTurns(StandingOf(h), turns)
    ensures ProgressOf(scope, After(h, TurnsJoined(turns))) == ProgressOf(scope, h)
    ensures ContentOf(scope, After(h, TurnsJoined(turns))) == ContentOf(scope, h).(
              liveContext := ContentOf(scope, h).liveContext + TurnMessages(turns),
              additions := ContentOf(scope, h).additions + TurnMessages(turns),
              lastRow := if turns == [] then ContentOf(scope, h).lastRow else Some(TurnRow(turns[|turns| - 1])),
              liveList := ContentOf(scope, h).liveList + TurnMessages(turns))
  {
    TurnsAreSafe(scope, h, turns);
    TurnsAdd(scope, h, turns);
    hide Safe, ProgressOf, ContentOf, AfterTurns, TurnMessages;
  }

  lemma TurnsAreSafe(scope: Scope, h: History, turns: seq<string>)
    requires Safe(scope, h) && Allowed(scope.env, StandingOf(h), TurnsJoined(turns))
    requires NonWhitespace(ProgressOf(scope, h).answerText) == NonWhitespace(ContentOf(scope, h).committedText)
    ensures Safe(scope, After(h, TurnsJoined(turns)))
  {
    EdgesGrow(StandingOf(h), TurnsJoined(turns));
    NothingAdded(scope, h);
    hide LegalPath, FaithfulRequest, NonWhitespace, IsTail, Allowed, Then;
  }

  lemma TurnsAdd(scope: Scope, h: History, turns: seq<string>)
    ensures ProgressOf(scope, After(h, TurnsJoined(turns))) == ProgressOf(scope, h)
    ensures ContentOf(scope, After(h, TurnsJoined(turns))) == ContentOf(scope, h).(
              liveContext := ContentOf(scope, h).liveContext + TurnMessages(turns),
              additions := ContentOf(scope, h).additions + TurnMessages(turns),
              lastRow := if turns == [] then ContentOf(scope, h).lastRow else Some(TurnRow(turns[|turns| - 1])),
              liveList := ContentOf(scope, h).liveList + TurnMessages(turns))
  {
    NothingAdded(scope, h);
    hide StandingOf, TurnMessages;
  }

  /** The status `Failed` is for a round that no further attempt may follow. */
  ghost predicate MayConclude(scope: Scope, h: History, status: Status) {
    var phase := StandingOf(h).phase;
    status == Failed && phase.Lost? && phase.retryable ==>
      ContentOf(scope, h).evidence || ProgressOf(scope, h).attempts >= scope.maxAttempts
  }

  lemma StatusRead(scope: Scope, h: History, status: Status, usage: Option<Usage>)
    requires Safe(scope, h) && MayWrite(StandingOf(h), status) && MayConclude(scope, h, status)
    requires LegalPath(Starting, ProgressOf(scope, h).statuses + [status])
    ensures Safe(scope, After(h, StatusWritten(status, usage)))
    ensures StandingOf(After(h, StatusWritten(status, usage))) == Then(StandingOf(h), StatusWritten(status, usage))
    ensures ContentOf(scope, After(h, StatusWritten(status, usage))) == ContentOf(scope, h)
    ensures ProgressOf(scope, After(h, StatusWritten(status, usage)))
              == ProgressOf(scope, h).(statuses := ProgressOf(scope, h).statuses + [status])
  {
    EdgesGrow(StandingOf(h), StatusWritten(status, usage));
    hide AfterLook, AfterHearing, AfterRow, AfterClear, AfterTurns, AfterDispatch, AfterReply, AfterAnswer;
    hide AfterRequest;
    hide LegalPath, FaithfulRequest, NonWhitespace, IsTail, MayWrite;
    NothingAdded(scope, h);
  }

  lemma AttemptRead(scope: Scope, h: History)
    requires Safe(scope, h) && Allowed(scope.env, StandingOf(h), AttemptBegan) && !ContentOf(scope, h).evidence
    requires NonWhitespace(ProgressOf(scope, h).answerText) == NonWhitespace(ContentOf(scope, h).committedText)
    requires ProgressOf(scope, h).attempts < scope.maxAttempts
    ensures Safe(scope, After(h, AttemptBegan))
    ensures StandingOf(After(h, AttemptBegan)) == Then(StandingOf(h), AttemptBegan)
    ensures ContentOf(scope, After(h, AttemptBegan)) == ContentOf(scope, h).(
              liveContext := ContentOf(scope, h).additions, liveList := scope.base + ContentOf(scope, h).additions)
    ensures ProgressOf(scope, After(h, AttemptBegan)) == ProgressOf(scope, h).(
              attemptReasoning := [], attempts := ProgressOf(scope, h).attempts + 1,
              accounting := Accounting(scope.windowTokens, None, 0))
  {
    EdgesGrow(StandingOf(h), AttemptBegan);
    hide AfterLook, AfterHearing, AfterRow, AfterClear, AfterTurns, AfterDispatch, AfterReply, AfterAnswer;
    hide AfterRequest;
    hide LegalPath, FaithfulRequest, NonWhitespace, IsTail, Allowed;
    NoEvidenceNoText(h);
    EmptyIsBlank();
    NothingAdded(scope, h);
  }

  lemma RequestRead(scope: Scope, h: History, request: Happening)
    requires Safe(scope, h) && request.Requested? && Allowed(scope.env, StandingOf(h), request)
    requires FaithfulRequest(scope, h, request)
    requires NonWhitespace(ProgressOf(scope, h).answerText) == NonWhitespace(ContentOf(scope, h).committedText)
    ensures Safe(scope, After(h, request))
    ensures StandingOf(After(h, request)) == AfterRequest(StandingOf(h))
    ensures ContentOf(scope, After(h, request)) == ContentOf(scope, h).(liveList := request.messages)
    ensures ProgressOf(scope, After(h, request)) == ProgressOf(scope, h).(
              roundReasoning := None, requestCount := ProgressOf(scope, h).requestCount + 1,
              asked := RequestCharacters(request.messages, request.reasoning))
  {
    EdgesGrow(StandingOf(h), request);
    hide AfterLook, AfterHearing, AfterRow, AfterClear, AfterTurns, AfterDispatch, AfterReply, AfterAnswer;
    hide AfterRequest;
    hide LegalPath, FaithfulRequest, NonWhitespace, IsTail, Allowed;
    NothingAdded(scope, h);
  }

  lemma RequestIsFaithful(scope: Scope, h: History, request: Happening)
    requires Safe(scope, h) && request.Requested?
    requires request.messages ==
               Windowed(ProgressOf(scope, h).accounting, ContentOf(scope, h).liveList, request.reasoning)
    requires request.reasoning == ProgressOf(scope, h).attemptReasoning
    requires Paired(ContentOf(scope, h).liveContext)
    requires request.step == ProgressOf(scope, h).requestCount
    ensures FaithfulRequest(scope, h, request)
  {
    hide WindowImage, Paired, Windowed;
    LiveListIsAnImage(scope, h);
    WindowKeepsImage(ProgressOf(scope, h).accounting, ContentOf(scope, h).liveList, scope.base + LiveContext(h),
                     request.reasoning);
  }

  /** One fact of the provider stream. */
  lemma HearingRead(scope: Scope, h: History, poll: Poll)
    requires Safe(scope, h) && Allowed(scope.env, StandingOf(h), Heard(poll))
    ensures Safe(scope, After(h, Heard(poll)))
    ensures StandingOf(After(h, Heard(poll))) == AfterHearing(StandingOf(h), poll)
    ensures ContentOf(scope, After(h, Heard(poll))) == ContentOf(scope, h)
    ensures var fact := TakenFact(h, Heard(poll));
            ProgressOf(scope, After(h, Heard(poll))) == ProgressOf(scope, h).(
              answerText := ProgressOf(scope, h).answerText + TextOf(fact),
              unrowed := ProgressOf(scope, h).unrowed + TextOf(fact),
              lastUsage := UsageAfter(ProgressOf(scope, h).lastUsage, fact),
              roundReasoning := ReasoningAfter(ProgressOf(scope, h).roundReasoning, fact),
              accounting := Calibrated(ProgressOf(scope, h).accounting, ReportIn(fact), ProgressOf(scope, h).asked))
  {
    EdgesGrow(StandingOf(h), Heard(poll));
    hide LegalPath, FaithfulRequest, NonWhitespace, IsTail, Allowed, AfterHearing, TakenFact, TextOf, UsageAfter;
    hide ReasoningAfter, Calibrated, ReportIn;
    NothingAdded(scope, h);
  }

  lemma RoundCalledRead(scope: Scope, h: History, calls: seq<ToolCall>)
    requires Safe(scope, h) && Allowed(scope.env, StandingOf(h), RoundCalled(calls))
    requires NonWhitespace(ProgressOf(scope, h).answerText) == NonWhitespace(ContentOf(scope, h).committedText)
    ensures Safe(scope, After(h, RoundCalled(calls)))
    ensures StandingOf(After(h, RoundCalled(calls))) == Then(StandingOf(h), RoundCalled(calls))
    ensures ContentOf(scope, After(h, RoundCalled(calls))) == ContentOf(scope, h).(
              liveContext := ContentOf(scope, h).liveContext + [ModelMessage(Assistant, "", calls, None, false)],
              evidence := true,
              liveList := ContentOf(scope, h).liveList + [ModelMessage(Assistant, "", calls, None, false)])
    ensures ProgressOf(scope, After(h, RoundCalled(calls))) == ProgressOf(scope, h).(
              attemptReasoning := ProgressOf(scope, h).attemptReasoning
                + ReasoningOf(calls, ProgressOf(scope, h).roundReasoning))
  {
    EdgesGrow(StandingOf(h), RoundCalled(calls));
    hide AfterLook, AfterHearing, AfterRow, AfterClear, AfterTurns, AfterDispatch, AfterReply, AfterAnswer;
    hide AfterRequest;
    hide LegalPath, FaithfulRequest, NonWhitespace, IsTail, Allowed;
    NothingAdded(scope, h);
  }

  /** The attachment of one round, when it opened the reasoning channel. */
  function ReasoningOf(calls: seq<ToolCall>, echo: Option<string>): seq<AssistantReasoning> {
    match echo
    case None => []
    case Some(text) => [AssistantReasoning(CallIds(calls), text)]
  }

  /** A dispatched call, or the reply the port gave it. */
  lemma DispatchRead(scope: Scope, h: History, work: Happening)
    requires Safe(scope, h) && (work.Dispatched? || work.PortAnswered?) && Allowed(scope.env, StandingOf(h), work)
    ensures Safe(scope, After(h, work))
    ensures StandingOf(After(h, work)) == Then(StandingOf(h), work)
    ensures ContentOf(scope, After(h, work)) == ContentOf(scope, h).(evidence := true)
    ensures ProgressOf(scope, After(h, work)) == ProgressOf(scope, h)
  {
    EdgesGrow(StandingOf(h), work);
    hide AfterLook, AfterHearing, AfterRow, AfterClear, AfterTurns, AfterDispatch, AfterReply, AfterAnswer;
    hide AfterRequest;
    hide LegalPath, FaithfulRequest, NonWhitespace, IsTail, Allowed;
    NothingAdded(scope, h);
  }

  lemma AnswerRead(scope: Scope, h: History, callId: CallId, content: string)
    requires Safe(scope, h) && Allowed(scope.env, StandingOf(h), Answered(callId, content))
    ensures Safe(scope, After(h, Answered(callId, content)))
    ensures StandingOf(After(h, Answered(callId, content))) == AfterAnswer(StandingOf(h))
    ensures ContentOf(scope, After(h, Answered(callId, content))) == ContentOf(scope, h).(
              liveContext := ContentOf(scope, h).liveContext + [ModelMessage(Tool, content, [], Some(callId), false)],
              evidence := true,
              liveList := Windowed(ProgressOf(scope, h).accounting,
                                   ContentOf(scope, h).liveList
                                     + [ModelMessage(Tool, content, [], Some(callId), false)],
                                   ProgressOf(scope, h).attemptReasoning))
    ensures ProgressOf(scope, After(h, Answered(callId, content))) == ProgressOf(scope, h)
  {
    EdgesGrow(StandingOf(h), Answered(callId, content));
    hide AfterLook, AfterHearing, AfterRow, AfterClear, AfterTurns, AfterDispatch, AfterReply, AfterAnswer;
    hide AfterRequest;
    hide LegalPath, FaithfulRequest, NonWhitespace, IsTail, Allowed;
    NothingAdded(scope, h);
  }

  /** The last write of an execution. */
  lemma FinishRead(scope: Scope, h: History, status: Status)
    requires Safe(scope, h) && MayWrite(StandingOf(h), status) && MayConclude(scope, h, status)
    requires ProgressOf(scope, h).statuses == [Running] && IsTerminal(status)
    requires NonWhitespace(ProgressOf(scope, h).answerText) == NonWhitespace(ContentOf(scope, h).committedText)
    requires ContentOf(scope, h).stopNotices == (if status == Interrupted then 1 else 0)
    requires status == Interrupted ==> ContentOf(scope, h).lastRow == Some(STOP_ROW)
    ensures Safe(scope, After(h, StatusWritten(status, ProgressOf(scope, h).lastUsage)))
    ensures EndedWith(After(h, StatusWritten(status, ProgressOf(scope, h).lastUsage)), status)
  {
    hide *;
    RunPathIsLegal(status);
    StatusRead(scope, h, status, ProgressOf(scope, h).lastUsage);
    EndingRead(scope, h, status);
  }

  lemma EndingRead(scope: Scope, h: History, status: Status)
    requires ProgressOf(scope, h).statuses == [Running] && IsTerminal(status)
    requires NonWhitespace(ProgressOf(scope, h).answerText) == NonWhitespace(ContentOf(scope, h).committedText)
    requires ContentOf(scope, h).stopNotices == (if status == Interrupted then 1 else 0)
    requires status == Interrupted ==> ContentOf(scope, h).lastRow == Some(STOP_ROW)
    ensures EndedWith(After(h, StatusWritten(status, ProgressOf(scope, h).lastUsage)), status)
  {
    hide NonWhitespace;
    NothingAdded(scope, h);
  }

  lemma RunPathIsLegal(status: Status)
    requires IsTerminal(status)
    ensures [Running] + [status] == [Running, status] && LegalPath(Starting, [Running, status])
  {
    assert [status][1..] == [] && LegalPath(status, []);
    assert LegalPath(Running, [status]);
    assert [Running, status][1..] == [status];
  }

  lemma StartRead(scope: Scope)
    ensures Safe(scope, Beginning)
    ensures StandingOf(Beginning) == AT_START
    ensures ProgressOf(scope, Beginning) ==
              Progress("", [], None, [], None, 0, 0, Accounting(scope.windowTokens, None, 0), 0, "")
    ensures ContentOf(scope, Beginning) == Content([], [], false, "", 0, 0, None, scope.base)
    ensures LegalPath(Starting, [] + [Running])
  {
    assert [] + [Running] == [Running];
    assert [Running][1..] == [];
  }

  lemma RefusalRead(scope: Scope)
    ensures Safe(scope, After(Beginning, StatusWritten(Failed, None)))
    ensures TextConserved(After(Beginning, StatusWritten(Failed, None)))
  {
    assert [] + [Failed] == [Failed];
    assert [Failed][1..] == [];
  }
}
