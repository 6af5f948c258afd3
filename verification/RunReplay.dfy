/** What a later run makes of the rows that a run committed: the rebuilt context pairs every replayed
    call with its own result, the way a provider demands it. */
module RunReplay {
  import opened ContextRebuild
  import opened ModelTypes
  import opened RunEvents
  import opened RunHistory
  import opened RunProtocol
  import opened Text

  // ------------------------------------------------------------ the log of a run

  /** A committed row as the rebuild reads it; a tool row carries the name of the call being asked. */
  function LoggedRow(s: Standing, row: Row): TranscriptRow {
    var named := row.kind in {ToolCallRow, ToolResultRow} && s.phase.Asking? && s.phase.todo != [];
    TranscriptRow(row.kind, row.text, row.callId, if named then Some(s.phase.todo[0].name) else None)
  }

  function LoggedTurns(turns: seq<string>): seq<TranscriptRow> {
    seq(|turns|, i requires 0 <= i < |turns| => TranscriptRow(UserRow, turns[i], None, None))
  }

  function LoggedBy(past: History, latest: Happening): seq<TranscriptRow> {
    match latest
    case Appended(row) => [LoggedRow(StandingOf(past), row)]
    case TurnsJoined(turns) => LoggedTurns(turns)
    case _ => []
  }

  /** The rows of a run, in the order of their commits. */
  function LogOf(h: History): seq<TranscriptRow> {
    match h
    case Beginning => []
    case After(past, latest) => LogOf(past) + LoggedBy(past, latest)
  }

  /** Every result row stands right behind the row of its call. */
  predicate ResultsFollowTheirCalls(rows: seq<TranscriptRow>) {
    forall j :: 0 <= j < |rows| && rows[j].kind == ToolResultRow ==>
                  j > 0 && rows[j].callId.Some? && IsCall(rows[j - 1], rows[j].callId.value)
  }

  /** Every call row but the last row is followed by its own result. */
  predicate CallsAreAnswered(rows: seq<TranscriptRow>) {
    forall i :: 0 <= i < |rows| - 1 && rows[i].kind == ToolCallRow ==>
                  rows[i].callId.Some? && IsResult(rows[i + 1], rows[i].callId.value)
  }

  predicate EndsWithCall(rows: seq<TranscriptRow>) {
    rows != [] && rows[|rows| - 1].kind == ToolCallRow
  }

  /** The call whose row is the last one: its result is still missing. */
  function OpenCall(rows: seq<TranscriptRow>): Option<CallId> {
    if EndsWithCall(rows) then rows[|rows| - 1].callId else None
  }

  /** A result is missing only while the port is between the two rows of a call, or when it broke there. */
  predicate MayMiss(open: Option<CallId>, phase: Phase) {
    match phase
    case Asking(todo, _, rows) => open == (if rows == 1 && todo != [] then Some(todo[0].callId) else None)
    case Broken => true
    case Ended => true
    case NoticeDue(next) => open == None && (next == Ready(false) || next == Between || next.Drained?)
    case _ => open == None
  }

  /** What the port commits for a call is that call's row and, right behind it, its result's. */
  predicate IsRunLog(rows: seq<TranscriptRow>, phase: Phase) {
    && ResultsFollowTheirCalls(rows)
    && CallsAreAnswered(rows)
    && (EndsWithCall(rows) ==> rows[|rows| - 1].callId.Some?)
    && MayMiss(OpenCall(rows), phase)
  }

  lemma {:induction false} EveryRunKeepsItsLog(env: Environment, h: History)
    requires Orderly(env, h)
    ensures IsRunLog(LogOf(h), StandingOf(h).phase)
  {
    match h
    case Beginning =>
    case After(past, latest) =>
      EveryRunKeepsItsLog(env, past);
      hide ResultsFollowTheirCalls, CallsAreAnswered, MayMiss, FailureOf, IsUnattachable, AfterHearing, AfterLook;
      hide AfterRow;
      hide AfterTurns, AfterClear, AfterDispatch, AfterReply, AfterAnswer, AfterRequest, MayAppend, MayJoin, MayWrite;
      var rows := LogOf(past);
      assert rows + [] == rows;
      match latest {
        case Appended(row) => RowKeepsTheLog(rows, StandingOf(past), row);
        case TurnsJoined(turns) => TurnsKeepTheLog(rows, StandingOf(past), turns);
        case _ => OtherStepMayMiss(env, OpenCall(rows), StandingOf(past), latest);
      }
  }

  lemma RowKeepsTheLog(rows: seq<TranscriptRow>, s: Standing, row: Row)
    requires IsRunLog(rows, s.phase) && MayAppend(s, row)
    ensures IsRunLog(rows + [LoggedRow(s, row)], AfterRow(s, row.kind).phase)
  {
    var logged := LoggedRow(s, row);
    RowMayMiss(OpenCall(rows), s, row);
    RowFits(rows, logged);
    hide MayAppend, AfterRow, MayMiss, ResultsFollowTheirCalls, CallsAreAnswered;
    assert (rows + [logged])[|rows|] == logged;
  }

  /** Which row may come, and what is missing behind it. */
  lemma RowMayMiss(open: Option<CallId>, s: Standing, row: Row)
    requires MayMiss(open, s.phase) && MayAppend(s, row)
    ensures row.kind == ToolResultRow ==> open.Some? && row.callId == open
    ensures row.kind == ToolCallRow ==> row.callId.Some?
    ensures row.kind != ToolResultRow ==> open == None
    ensures MayMiss(if row.kind == ToolCallRow then row.callId else None, AfterRow(s, row.kind).phase)
  {
    hide FailureOf;
  }

  lemma RowFits(rows: seq<TranscriptRow>, row: TranscriptRow)
    requires ResultsFollowTheirCalls(rows) && CallsAreAnswered(rows)
    requires EndsWithCall(rows) ==> rows[|rows| - 1].callId.Some?
    requires if row.kind == ToolResultRow then OpenCall(rows).Some? && row.callId == OpenCall(rows) else OpenCall(rows) == None
    ensures ResultsFollowTheirCalls(rows + [row]) && CallsAreAnswered(rows + [row])
  {
    var longer := rows + [row];
    assert longer[|rows|] == row;
    assert forall i :: 0 <= i < |rows| ==> longer[i] == rows[i];
  }

  lemma TurnsKeepTheLog(rows: seq<TranscriptRow>, s: Standing, turns: seq<string>)
    requires IsRunLog(rows, s.phase) && MayJoin(s)
    ensures IsRunLog(rows + LoggedTurns(turns), AfterTurns(s, turns).phase)
  {
    var longer := rows + LoggedTurns(turns);
    assert forall i :: 0 <= i < |rows| ==> longer[i] == rows[i];
    assert forall i :: |rows| <= i < |longer| ==> longer[i].kind == UserRow;
  }

  lemma OtherStepMayMiss(env: Environment, open: Option<CallId>, s: Standing, latest: Happening)
    requires MayMiss(open, s.phase) && Allowed(env, s, latest) && !latest.Appended? && !latest.TurnsJoined?
    ensures MayMiss(open, Then(s, latest).phase)
  {
    match latest
    case Heard(poll) => HearingMayMiss(open, s, poll);
    case Signalled(signal) => LookLeaves(s, signal); hide AfterLook;
    case _ => OwnStepMayMiss(env, open, s, latest);
  }

  lemma HearingMayMiss(open: Option<CallId>, s: Standing, poll: Poll)
    requires MayMiss(open, s.phase) && s.phase.Streaming?
    ensures MayMiss(open, AfterHearing(s, poll).phase)
  {
    hide Echoed;
  }

  lemma OwnStepMayMiss(env: Environment, open: Option<CallId>, s: Standing, latest: Happening)
    requires MayMiss(open, s.phase) && Allowed(env, s, latest)
    requires !latest.Appended? && !latest.TurnsJoined? && !latest.Heard? && !latest.Signalled?
    ensures MayMiss(open, Then(s, latest).phase)
  {
    hide FailureOf, IsUnattachable, AfterHearing, AfterLook, AfterRow, AfterTurns, MayAppend, MayJoin;
  }

  // ------------------------------------------------------------- its replay

  /** Every replayed call is immediately followed by its own result, and no other result appears. */
  predicate ReplaysInPairs(replay: seq<ModelMessage>) {
    && (forall p :: 0 <= p < |replay| && replay[p].toolCalls != [] ==>
          p + 1 < |replay| && Answers(replay[p + 1], replay[p].toolCalls[0]))
    && (forall q :: 0 <= q < |replay| && replay[q].role == Tool ==>
          q > 0 && replay[q - 1].toolCalls != [] && Answers(replay[q], replay[q - 1].toolCalls[0]))
  }

  ghost predicate SomeCallsCollide(rows: seq<TranscriptRow>) {
    exists i: nat, j: nat, id :: CallsCollide(rows, i, j, id)
  }

  lemma ReplayStep(rows: seq<TranscriptRow>, i: nat)
    requires i < |rows| && Replays(rows, i)
    ensures |ReplayOf(rows, i + 1)| == |ReplayOf(rows, i)| + 1
  {
    hide Replays, MessageOf;
  }

  lemma CallIsAnsweredNext(rows: seq<TranscriptRow>, p: nat)
    requires ResultsFollowTheirCalls(rows) && !SomeCallsCollide(rows)
    requires p < |ReplayOf(rows, |rows|)| && ReplayOf(rows, |rows|)[p].toolCalls != []
    ensures p + 1 < |ReplayOf(rows, |rows|)|
    ensures Answers(ReplayOf(rows, |rows|)[p + 1], ReplayOf(rows, |rows|)[p].toolCalls[0])
  {
    hide ReplayOf, FirstResultAmong, IsBlank;
    var i := Source(rows, p, |rows|);
    var id := rows[i].callId.value;
    var f := FirstResult(rows, id).value;
    FirstResultAnswers(rows, id);
    var before: nat := f - 1;
    assert !CallsCollide(rows, i, before, id);
    assert IsCall(rows[i], id) && CalledBefore(rows, id, i + 1);
    ReplayStep(rows, i);
    Placed(rows, i + 1, |rows|);
  }

  lemma ResultIsCalledBefore(rows: seq<TranscriptRow>, q: nat, isJsonObject: string -> bool)
    requires ResultsFollowTheirCalls(rows) && forall i: nat :: i < |rows| ==> !Rejected(rows, i, isJsonObject)
    requires q < |ReplayOf(rows, |rows|)| && ReplayOf(rows, |rows|)[q].role == Tool
    ensures q > 0 && ReplayOf(rows, |rows|)[q - 1].toolCalls != []
    ensures Answers(ReplayOf(rows, |rows|)[q], ReplayOf(rows, |rows|)[q - 1].toolCalls[0])
  {
    hide ReplayOf, FirstResultAmong, IsBlank, CalledBefore;
    var j := Source(rows, q, |rows|);
    var i: nat := j - 1;
    assert Replays(rows, i) && !Rejected(rows, i, isJsonObject);
    ReplayStep(rows, i);
    Placed(rows, i, |rows|);
  }

  lemma CollisionsBreakPairs(rows: seq<TranscriptRow>, isJsonObject: string -> bool)
    requires forall i: nat :: i < |rows| ==> !Rejected(rows, i, isJsonObject)
    requires SomeCallsCollide(rows)
    ensures !ReplaysInPairs(ReplayOf(rows, |rows|))
  {
    hide ReplayOf, Rejected, ReplaysInPairs, FirstResultAmong, CallsRepeat;
    var i: nat, j: nat, id :| CallsCollide(rows, i, j, id);
    CollidingCallsRepeat(rows, i, j, id, isJsonObject);
    RepeatedCallsBreakPairs(rows, |ReplayOf(rows, i)|, |ReplayOf(rows, j)|);
  }

  lemma RepeatedCallsBreakPairs(rows: seq<TranscriptRow>, p: nat, q: nat)
    requires CallsRepeat(ReplayOf(rows, |rows|), p, q)
    ensures !ReplaysInPairs(ReplayOf(rows, |rows|))
  {
    hide ReplayOf;
    var replay := ReplayOf(rows, |rows|);
    if q + 1 < |replay| && Answers(replay[p + 1], replay[p].toolCalls[0]) && Answers(replay[q + 1], replay[q].toolCalls[0]) {
      OneResultPerCall(rows, p + 1, q + 1);
    }
  }

  /** For any log whose results stand behind their calls - that of any number of runs - the rebuilt
      context is paired if and only if no two call rows collide. */
  lemma PairedIffNoCallsCollide(rows: seq<TranscriptRow>, isJsonObject: string -> bool)
    requires ResultsFollowTheirCalls(rows)
    requires forall i: nat :: i < |rows| ==> !Rejected(rows, i, isJsonObject)
    ensures ReplaysInPairs(ReplayOf(rows, |rows|)) <==> !SomeCallsCollide(rows)
  {
    hide ReplayOf, Rejected, SomeCallsCollide, ResultsFollowTheirCalls, Answers;
    var replay := ReplayOf(rows, |rows|);
    if SomeCallsCollide(rows) {
      CollisionsBreakPairs(rows, isJsonObject);
    } else {
      forall p: nat | p < |replay| && replay[p].toolCalls != []
        ensures p + 1 < |replay| && Answers(replay[p + 1], replay[p].toolCalls[0])
      {
        CallIsAnsweredNext(rows, p);
      }
      forall q: nat | q < |replay| && replay[q].role == Tool
        ensures q > 0 && replay[q - 1].toolCalls != [] && Answers(replay[q], replay[q - 1].toolCalls[0])
      {
        ResultIsCalledBefore(rows, q, isJsonObject);
      }
    }
  }

  /** Logs one behind another are such a log again. */
  lemma LogsStayInOrder(a: seq<TranscriptRow>, b: seq<TranscriptRow>)
    requires ResultsFollowTheirCalls(a) && ResultsFollowTheirCalls(b)
    ensures ResultsFollowTheirCalls(a + b)
  {
    forall j | 0 <= j < |a + b| && (a + b)[j].kind == ToolResultRow
      ensures j > 0 && (a + b)[j].callId.Some? && IsCall((a + b)[j - 1], (a + b)[j].callId.value)
    {
      if j >= |a| {
        assert (a + b)[j] == b[j - |a|];
        assert (a + b)[j - 1] == b[j - |a| - 1];
      }
    }
  }

  /** Whatever a run went through, broken tool ports included: when the rows it committed can be
      replayed at all, every replayed call is immediately followed by its own result. */
  lemma RunsReplayInPairs(env: Environment, h: History, isJsonObject: string -> bool)
    requires Orderly(env, h)
    requires forall i: nat :: i < |LogOf(h)| ==> !Rejected(LogOf(h), i, isJsonObject)
    ensures ReplaysInPairs(ReplayOf(LogOf(h), |LogOf(h)|))
  {
    EveryRunKeepsItsLog(env, h);
    RunCallsNeverCollide(LogOf(h), StandingOf(h).phase);
    hide Orderly, LogOf, Rejected, ReplaysInPairs, SomeCallsCollide, IsRunLog;
    assert ResultsFollowTheirCalls(LogOf(h));
    PairedIffNoCallsCollide(LogOf(h), isJsonObject);
  }

  lemma RunCallsNeverCollide(rows: seq<TranscriptRow>, phase: Phase)
    requires IsRunLog(rows, phase)
    ensures ResultsFollowTheirCalls(rows) && !SomeCallsCollide(rows)
  {
    hide MayMiss;
    forall i: nat, j: nat, id ensures !CallsCollide(rows, i, j, id) {
      if i < j < |rows| && IsCall(rows[i], id) {
        assert IsResult(rows[i + 1], id);
      }
    }
  }

  // --------------------------------------------------- and what is replayed

  /** The calls that were handed to the tool port, in order. */
  function DispatchedCalls(h: History): seq<ToolCall> {
    match h
    case Beginning => []
    case After(past, Dispatched(call)) => DispatchedCalls(past) + [call]
    case After(past, _) => DispatchedCalls(past)
  }

  /** The row says what this call asked for. */
  predicate IsRowOf(row: TranscriptRow, call: ToolCall) {
    row == TranscriptRow(ToolCallRow, call.argumentsJson, Some(call.callId), Some(call.name))
  }

  predicate CallRowsAreDispatched(rows: seq<TranscriptRow>, calls: seq<ToolCall>) {
    forall i :: 0 <= i < |rows| && rows[i].kind == ToolCallRow ==> exists call :: call in calls && IsRowOf(rows[i], call)
  }

  lemma {:induction false} LogHoldsDispatchedCalls(env: Environment, h: History)
    requires Orderly(env, h)
    ensures CallRowsAreDispatched(LogOf(h), DispatchedCalls(h))
    ensures var phase := StandingOf(h).phase; phase.Asking? ==> phase.todo != [] && phase.todo[0] in DispatchedCalls(h)
  {
    match h
    case Beginning =>
    case After(past, latest) =>
      LogHoldsDispatchedCalls(env, past);
      NoticesAreNotAsked(env, past);
      AskingStays(env, StandingOf(past), latest);
      var rows, calls := LogOf(past), DispatchedCalls(past);
      assert rows + [] == rows && StandingOf(h) == Then(StandingOf(past), latest);
      hide Orderly, StandingOf, Allowed, Then, IsRowOf, LoggedTurns;
      match latest {
        case Appended(row) =>
          if row.kind == ToolCallRow {
            CallRowIsLogged(StandingOf(past), row);
          }
        case TurnsJoined(turns) => TurnsLogNoCalls(turns);
        case Dispatched(call) => assert call in calls + [call] && forall c :: c in calls ==> c in calls + [call];
        case _ =>
      }
  }

  lemma NoticesAreNotAsked(env: Environment, h: History)
    requires Orderly(env, h)
    ensures var phase := StandingOf(h).phase; phase.NoticeDue? ==> !phase.next.Asking?
  {
    EveryRunKeepsItsLog(env, h);
    hide Orderly, LogOf, StandingOf, ResultsFollowTheirCalls, CallsAreAnswered, OpenCall, EndsWithCall;
  }

  lemma TurnsLogNoCalls(turns: seq<string>)
    ensures forall row :: row in LoggedTurns(turns) ==> row.kind == UserRow
  {
  }

  lemma CallRowIsLogged(s: Standing, row: Row)
    requires MayAppend(s, row) && row.kind == ToolCallRow
    ensures s.phase.Asking? && s.phase.todo != [] && IsRowOf(LoggedRow(s, row), s.phase.todo[0])
  {
  }

  /** The call being asked for is the one dispatched last. */
  lemma AskingStays(env: Environment, s: Standing, latest: Happening)
    requires Allowed(env, s, latest) && (s.phase.NoticeDue? ==> !s.phase.next.Asking?)
    ensures latest.Appended? ==> MayAppend(s, latest.row)
    ensures var phase := Then(s, latest).phase;
            phase.Asking? ==>
              if latest.Dispatched? then phase.todo != [] && phase.todo[0] == latest.call
              else s.phase.Asking? && phase.todo == s.phase.todo
  {
    match latest
    case Heard(poll) => hide Echoed;
    case Signalled(signal) => LookLeaves(s, signal); hide AfterLook;
    case _ => hide FailureOf, IsUnattachable, AfterHearing, AfterLook, MayJoin, MayClear, MayStop;
  }

  /** What a run commits can be read back: its turns and notices carry text, its tool rows identities. */
  predicate IsReadable(row: TranscriptRow) {
    && (row.kind in {UserRow, NoticeRow} ==> !IsBlank(row.text))
    && (row.kind in {ToolCallRow, ToolResultRow} ==> row.callId.Some?)
  }

  lemma {:induction false} LogIsReadable(env: Environment, h: History)
    requires Orderly(env, h)
    ensures forall i :: 0 <= i < |LogOf(h)| ==> IsReadable(LogOf(h)[i])
  {
    match h
    case Beginning =>
    case After(past, latest) =>
      LogIsReadable(env, past);
      NewRowsAreReadable(env, past, latest);
      hide Orderly, StandingOf, LoggedBy, IsReadable;
  }

  lemma NoticesAreReadable()
    ensures !IsBlank(INTERRUPT_NOTICE) && !IsBlank(RUN_STOP_NOTICE)
  {
    assert INTERRUPT_NOTICE[1] == 'T';
    assert RUN_STOP_NOTICE[1] == 'T';
    assert !IsWhitespace('T');
  }

  lemma NewRowsAreReadable(env: Environment, past: History, latest: Happening)
    requires Allowed(env, StandingOf(past), latest)
    ensures forall i :: 0 <= i < |LoggedBy(past, latest)| ==> IsReadable(LoggedBy(past, latest)[i])
  {
    NoticesAreReadable();
    hide StandingOf, FailureOf, IsUnattachable;
  }

  /** A log of a run is refused only for a tool row that would be replayed: a call without a name or
      without an object as arguments, or a blank result. */
  lemma OnlyToolRowsAreRefused(env: Environment, h: History, i: nat, isJsonObject: string -> bool)
    requires Orderly(env, h) && i < |LogOf(h)|
    ensures var rows := LogOf(h);
            Rejected(rows, i, isJsonObject) <==>
              && Replays(rows, i)
              && match rows[i].kind
                 case ToolCallRow =>
                   rows[i].toolName.None? || IsBlank(rows[i].toolName.value) || !isJsonObject(rows[i].text)
                 case ToolResultRow => IsBlank(rows[i].text)
                 case _ => false
  {
    LogIsReadable(env, h);
    hide Orderly, LogOf, FirstResultAmong;
    assert IsReadable(LogOf(h)[i]);
  }

  /** A replayed call is a call that was dispatched: its name, its arguments and its identity. */
  lemma ReplayedCallsWereDispatched(env: Environment, h: History, p: nat)
    requires Orderly(env, h)
    requires p < |ReplayOf(LogOf(h), |LogOf(h)|)| && ReplayOf(LogOf(h), |LogOf(h)|)[p].toolCalls != []
    ensures var calls := ReplayOf(LogOf(h), |LogOf(h)|)[p].toolCalls; |calls| == 1 && calls[0] in DispatchedCalls(h)
  {
    var rows := LogOf(h);
    LogHoldsDispatchedCalls(env, h);
    hide LogOf, ReplayOf, Orderly, StandingOf, FirstResultAmong;
    var i := Source(rows, p, |rows|);
  }

  /** The text of a user turn, a notice or an answer comes back under its own role. */
  lemma TextIsReplayed(rows: seq<TranscriptRow>, i: nat)
    requires i < |rows| && rows[i].kind in {UserRow, NoticeRow, AssistantRow}
    requires rows[i].kind == AssistantRow ==> !IsBlank(rows[i].text)
    ensures var role := match rows[i].kind case UserRow => User case NoticeRow => Notice case _ => Assistant;
            && |ReplayOf(rows, i)| < |ReplayOf(rows, |rows|)|
            && ReplayOf(rows, |rows|)[|ReplayOf(rows, i)|] == ModelMessage(role, rows[i].text, [], None, false)
  {
    Placed(rows, i, |rows|);
    hide ReplayOf;
  }
}
