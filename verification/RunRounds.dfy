/** The rounds of a run: how many rows each of them left, and what those rows carry. */
module RunRounds {
  import opened ModelTypes
  import opened RunEvents
  import opened RunHistory
  import opened RunProtocol
  import opened RunReadings
  import opened Text

  // ------------------------------------------------------- one row for one round

  function RowsAfter(rows: nat, latest: Happening): nat {
    match latest
    case Requested(_, _, _) => 0
    case Appended(row) => rows + (if row.kind == AssistantRow then 1 else 0)
    case _ => rows
  }

  /** The assistant rows committed since the last request. */
  function RowsThisRound(h: History): nat {
    match h
    case Beginning => 0
    case After(past, latest) => RowsAfter(RowsThisRound(past), latest)
  }

  /** A round whose row may still come. */
  predicate OwesRow(phase: Phase) {
    match phase
    case Streaming(_) => true
    case Over(_, committed, _) => !committed
    case Lost(_, committed, _) => !committed
    case _ => false
  }

  /** A round's phase says how many rows it left. */
  predicate CountsRows(rows: nat, requests: nat, phase: Phase) {
    match phase
    case Streaming(_) => rows == 0 && requests > 0
    case Over(_, committed, _) => rows == (if committed then 1 else 0) && requests > 0
    case Lost(_, committed, _) => rows == (if committed then 1 else 0) && requests > 0
    case NoticeDue(next) => rows <= 1 && (next == Ready(false) || next == Between || next.Drained?)
    case _ => rows <= 1
  }

  /** No round commits more than one assistant row, and a round that still owes one committed none. */
  lemma {:induction false} OneRowPerRound(env: Environment, h: History)
    requires Orderly(env, h)
    ensures RowsThisRound(h) + (if OwesRow(StandingOf(h).phase) then 1 else 0) <= 1
    ensures CountsRows(RowsThisRound(h), RequestCount(h), StandingOf(h).phase)
  {
    match h
    case Beginning =>
    case After(past, latest) =>
      OneRowPerRound(env, past);
      RowsAreCounted(env, StandingOf(past), latest, RowsThisRound(past), RequestCount(past));
      hide Then, Allowed;
  }

  lemma RowsAreCounted(env: Environment, s: Standing, latest: Happening, rows: nat, requests: nat)
    requires Allowed(env, s, latest) && CountsRows(rows, requests, s.phase)
    ensures CountsRows(RowsAfter(rows, latest), requests + (if latest.Requested? then 1 else 0), Then(s, latest).phase)
  {
    match latest
    case Heard(poll) => HearingCountsRows(s, poll, rows, requests);
    case Signalled(signal) => LookCountsRows(s, signal, rows, requests);
    case Appended(row) => RowIsCounted(s, row, rows, requests);
    case SignalCleared => ClearCountsRows(s, rows, requests);
    case TurnsJoined(turns) => TurnsCountRows(s, turns, rows, requests);
    case _ => OtherStepCountsRows(env, s, latest, rows, requests);
  }

  lemma HearingCountsRows(s: Standing, poll: Poll, rows: nat, requests: nat)
    requires s.phase.Streaming? && CountsRows(rows, requests, s.phase)
    ensures CountsRows(rows, requests, AfterHearing(s, poll).phase)
  {
    hide Echoed;
  }

  lemma LookCountsRows(s: Standing, signal: Signal, rows: nat, requests: nat)
    requires CountsRows(rows, requests, s.phase)
    ensures CountsRows(rows, requests, AfterLook(s, signal).phase)
  {
    hide MayStop, MayClear;
    LookLeaves(s, signal);
    hide AfterLook;
  }

  lemma RowIsCounted(s: Standing, row: Row, rows: nat, requests: nat)
    requires MayAppend(s, row) && CountsRows(rows, requests, s.phase)
    ensures CountsRows(RowsAfter(rows, Appended(row)), requests, AfterRow(s, row.kind).phase)
  {
    hide FailureOf;
    match row.kind
    case AssistantRow => AnswerRowLeaves(s);
    case _ =>
  }

  lemma ClearCountsRows(s: Standing, rows: nat, requests: nat)
    requires MayClear(s) && CountsRows(rows, requests, s.phase)
    ensures CountsRows(rows, requests, AfterClear(s).phase)
  {
  }

  lemma TurnsCountRows(s: Standing, turns: seq<string>, rows: nat, requests: nat)
    requires CountsRows(rows, requests, s.phase)
    ensures CountsRows(rows, requests, AfterTurns(s, turns).phase)
  {
  }

  lemma OtherStepCountsRows(env: Environment, s: Standing, latest: Happening, rows: nat, requests: nat)
    requires Allowed(env, s, latest) && CountsRows(rows, requests, s.phase)
    requires !latest.Heard? && !latest.Signalled? && !latest.Appended? && !latest.SignalCleared? && !latest.TurnsJoined?
    ensures CountsRows(RowsAfter(rows, latest), requests + (if latest.Requested? then 1 else 0), Then(s, latest).phase)
  {
    hide FailureOf, AfterHearing, AfterLook, AfterRow, AfterClear, AfterTurns, MayAppend, MayClear, MayJoin, MayWrite;
    hide MayStop;
  }

  // ------------------------------------------------------------- its reasoning

  /** A row carries the reasoning of its own round: everything the round streamed, or the fragments
      before the first one that would have crossed the bound. The row of a failed round carries none. */
  lemma RowsCarryTheirReasoning(env: Environment, past: History, row: Row) returns (k: nat)
    requires Orderly(env, After(past, Appended(row))) && row.kind == AssistantRow
    ensures IsCutAt(StandingOf(past).echo, RoundFragments(past), k)
    ensures StandingOf(past).phase.Over? || StandingOf(past).phase.Lost?
    ensures StandingOf(past).phase.Lost? ==> row.reasoning == None
    ensures StandingOf(past).phase.Over? ==> row.reasoning == StepReasoning(Joined(RoundFragments(past)[..k]))
  {
    k := EchoIsCutAtTheBound(past);
    hide FailureOf, IsUnattachable, Bytes, Joined, RoundFragments;
  }

  // ------------------------------------------------------------- and its text

  /** The answer text the current round streamed. */
  function RoundText(h: History): string {
    match h
    case Beginning => ""
    case After(past, Requested(_, _, _)) => ""
    case After(past, latest) => RoundText(past) + TextOf(TakenFact(past, latest))
  }

  /** The text that was committed before the current round. */
  function CommittedBefore(h: History): string {
    match h
    case Beginning => ""
    case After(past, Requested(_, _, _)) => CommittedText(past)
    case After(past, _) => CommittedBefore(past)
  }

  /** The round has something a row is for: text, or reasoning within the bound. */
  predicate Spoke(h: History) {
    !IsBlank(RoundText(h)) || !IsBlank(StandingOf(h).echo.text)
  }

  /** What a round streamed and what it committed, against what was there before. */
  predicate RoundBalances(h: History) {
    && NonWhitespace(AnswerText(h)) == NonWhitespace(CommittedBefore(h)) + NonWhitespace(RoundText(h))
    && (RowsThisRound(h) == 0 ==> CommittedText(h) == CommittedBefore(h))
    && (RowsThisRound(h) > 0 ==> Spoke(h))
  }

  /** The part of a run's promises that the rounds depend on. */
  predicate IsKeptUp(env: Environment, h: History) {
    Orderly(env, h) && NeverLags(h) && RowsAreMeant(h)
  }

  lemma {:induction false} EveryRoundBalances(env: Environment, h: History)
    requires IsKeptUp(env, h)
    ensures RoundBalances(h)
  {
    match h
    case Beginning =>
    case After(past, latest) =>
      EveryRoundBalances(env, past);
      OneRowPerRound(env, past);
      match latest {
        case Requested(_, _, _) => RequestBalances(past, latest);
        case Heard(poll) => HearingBalances(past, poll);
        case Appended(row) => RowBalances(past, row);
        case _ => NothingElseSpeaks(past, latest);
      }
  }

  lemma RequestBalances(past: History, request: Happening)
    requires request.Requested? && TextConserved(After(past, request))
    ensures RoundBalances(After(past, request))
  {
    hide NonWhitespace;
    EmptyIsBlank();
    assert AnswerText(past) + "" == AnswerText(past);
    assert NonWhitespace(AnswerText(past)) + "" == NonWhitespace(AnswerText(past));
  }

  lemma HearingBalances(past: History, poll: Poll)
    requires RoundBalances(past) && RowsThisRound(past) == 0
    ensures RoundBalances(After(past, Heard(poll)))
  {
    hide NonWhitespace, StandingOf, TakenFact, TextOf, Spoke;
    var text := TextOf(TakenFact(past, Heard(poll)));
    NonWhitespaceConcat(AnswerText(past), text);
    NonWhitespaceConcat(RoundText(past), text);
    Regrouped(NonWhitespace(CommittedBefore(past)), NonWhitespace(RoundText(past)), NonWhitespace(text));
  }

  lemma Regrouped(a: string, b: string, c: string)
    ensures (a + b) + c == a + (b + c)
  {
  }

  lemma RowBalances(past: History, row: Row)
    requires RoundBalances(past) && MayAppend(StandingOf(past), row) && IsMeant(row)
    requires CountsRows(RowsThisRound(past), RequestCount(past), StandingOf(past).phase)
    requires row.kind == AssistantRow ==> TextConserved(After(past, Appended(row)))
    ensures RoundBalances(After(past, Appended(row)))
  {
    hide NonWhitespace, IsBlank, StandingOf, FailureOf, Uncut;
    NothingSpoken(past, Appended(row));
    if row.kind == AssistantRow {
      NonWhitespaceConcat(CommittedText(past), RowAnswer(row));
      SameStart(NonWhitespace(CommittedText(past)), NonWhitespace(RowAnswer(row)), NonWhitespace(RoundText(past)));
      BlankIffNoCharacters(RowAnswer(row));
      BlankIffNoCharacters(RoundText(past));
    } else {
      assert CommittedText(past) + "" == CommittedText(past);
    }
  }

  lemma SameStart(a: string, b: string, c: string)
    requires a + b == a + c
    ensures b == c
  {
    assert b == (a + b)[|a|..] && c == (a + c)[|a|..];
  }

  /** A row spells the text of its own round, up to whitespace. */
  lemma RowSpellsItsRound(env: Environment, past: History, row: Row)
    requires IsKeptUp(env, After(past, Appended(row))) && row.kind == AssistantRow
    ensures NonWhitespace(RowAnswer(row)) == NonWhitespace(RoundText(past))
  {
    EveryRoundBalances(env, past);
    OneRowPerRound(env, past);
    OneRowPerRound(env, After(past, Appended(row)));
    hide NonWhitespace, StandingOf, Orderly, Uncut;
    NothingSpoken(past, Appended(row));
    NonWhitespaceConcat(CommittedText(past), RowAnswer(row));
    SameStart(NonWhitespace(CommittedText(past)), NonWhitespace(RowAnswer(row)), NonWhitespace(RoundText(past)));
  }

  /** A happening that brings no fact in leaves the round's text and its echo. */
  lemma NothingSpoken(past: History, latest: Happening)
    requires !latest.Heard? && !latest.Requested?
    ensures AnswerText(After(past, latest)) == AnswerText(past) && RoundText(After(past, latest)) == RoundText(past)
    ensures StandingOf(After(past, latest)).echo == StandingOf(past).echo
  {
    EchoFollowsTheFact(StandingOf(past), latest);
    hide Then;
    assert AnswerText(past) + "" == AnswerText(past) && RoundText(past) + "" == RoundText(past);
  }

  lemma NothingElseSpeaks(past: History, latest: Happening)
    requires RoundBalances(past) && !latest.Heard? && !latest.Requested? && !latest.Appended?
    ensures RoundBalances(After(past, latest))
  {
    hide NonWhitespace, IsBlank, StandingOf;
    NothingSpoken(past, latest);
  }

  // ------------------------------------------------- a round leaves exactly what it said

  /** The round did not fail, and the run goes on from it. */
  predicate LeavesRound(past: History, latest: Happening) {
    && StandingOf(past).phase.Over?
    && (latest.RoundCalled? || latest.TurnsJoined? || latest.SignalCleared? || latest.Stopping?)
  }

  /** Every unfailed round left one row when it spoke, and none when it did not. */
  predicate RoundsLeaveTheirRows(h: History) {
    match h
    case Beginning => true
    case After(past, latest) =>
      RoundsLeaveTheirRows(past) && (LeavesRound(past, latest) ==> RowsThisRound(past) == (if Spoke(past) then 1 else 0))
  }

  /** Over every history of a run: an unfailed round leaves exactly one row if it streamed any text or
      reasoning, and none otherwise. */
  lemma EveryRoundLeavesItsRow(scope: Scope, h: History)
    requires Safe(scope, h)
    ensures RoundsLeaveTheirRows(h)
  {
    hide Orderly, NeverLags, RowsAreMeant, RequestsFaithful, AttemptsBeginClean, FailuresAreFinal;
    RoundsLeave(scope.env, h);
  }

  lemma {:induction false} RoundsLeave(env: Environment, h: History)
    requires IsKeptUp(env, h)
    ensures RoundsLeaveTheirRows(h)
  {
    match h
    case Beginning =>
    case After(past, latest) =>
      RoundsLeave(env, past);
      if LeavesRound(past, latest) {
        EveryRoundBalances(env, past);
        OneRowPerRound(env, past);
        LeftRoundIsKept(env, past, latest);
      }
  }

  lemma LeftRoundIsKept(env: Environment, past: History, latest: Happening)
    requires LeavesRound(past, latest) && Allowed(env, StandingOf(past), latest) && RoundBalances(past)
    requires CountsRows(RowsThisRound(past), RequestCount(past), StandingOf(past).phase)
    requires TextConserved(After(past, latest))
    ensures RowsThisRound(past) == (if Spoke(past) then 1 else 0)
  {
    hide NonWhitespace, IsBlank, StandingOf, FailureOf;
    NothingSpoken(past, latest);
    BlankIffNoCharacters(RoundText(past));
    if RowsThisRound(past) == 0 {
      assert NonWhitespace(CommittedText(past)) + "" == NonWhitespace(CommittedText(past));
      SameStart(NonWhitespace(CommittedText(past)), "", NonWhitespace(RoundText(past)));
    }
  }
}
