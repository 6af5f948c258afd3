/** What happened during one run, and the readings of it the run's promises are about.

    A history is the run's durable log - the committed rows and status writes - interleaved
    with what the run asked of its environment and what the environment did to it. Every
    reading below is a fold from the first happening to the latest. */
module RunHistory {
  import opened ModelTypes
  import opened RunEvents
  import opened RunProtocol
  import opened RunStatus
  import opened Text

  // ------------------------------------------------------------ answer text

  /** The fact a happening brought in, when the round took it: heard from the provider while the
      round's stream was open, and accepted by the order rules. */
  function TakenFact(past: History, latest: Happening): Option<ModelEvent> {
    if latest.Heard? && Takes(StandingOf(past), latest.poll) then Some(latest.poll.event) else None
  }

  /** The answer text a fact carries. */
  function TextOf(fact: Option<ModelEvent>): string {
    if fact.Some? && fact.value.TextDelta? then fact.value.content else ""
  }

  /** The answer text of every accepted delta that was heard, in order. */
  function AnswerText(h: History): string {
    match h
    case Beginning => ""
    case After(past, latest) => AnswerText(past) + TextOf(TakenFact(past, latest))
  }

  /** The answer deltas a fact carries. */
  function DeltaOf(fact: Option<ModelEvent>): seq<string> {
    if fact.Some? && fact.value.TextDelta? then [fact.value.content] else []
  }

  /** Every accepted answer delta that was heard, in order. */
  function AnswerDeltas(h: History): seq<string> {
    match h
    case Beginning => []
    case After(past, latest) => AnswerDeltas(past) + DeltaOf(TakenFact(past, latest))
  }

  /** The answer text is exactly the accepted deltas, whitespace included. */
  lemma {:induction false} AnswerTextIsEveryDelta(h: History)
    ensures AnswerText(h) == Joined(AnswerDeltas(h))
  {
    hide TakenFact, Joined;
    match h
    case Beginning => JoinedPush([], "");
    case After(past, latest) =>
      AnswerTextIsEveryDelta(past);
      var fact := TakenFact(past, latest);
      JoinedPush(AnswerDeltas(past), if fact.Some? && fact.value.TextDelta? then fact.value.content else "");
      assert AnswerText(past) + "" == AnswerText(past);
  }

  /** The answer text accepted since the newest assistant row. */
  function UnrowedText(h: History): string {
    match h
    case Beginning => ""
    case After(past, Appended(row)) => if row.kind == AssistantRow then "" else UnrowedText(past)
    case After(past, latest) => UnrowedText(past) + TextOf(TakenFact(past, latest))
  }

  /** `text` is `whole` without some leading whitespace. */
  predicate IsTail(text: string, whole: string) {
    && |text| <= |whole|
    && whole[|whole| - |text|..] == text
    && IsBlank(whole[..|whole| - |text|])
  }

  /** Every assistant row carries all the text since the row before it, character by character; only
      leading whitespace of a step that left no row may be missing. */
  predicate RowsKeepTheirText(h: History) {
    match h
    case Beginning => true
    case After(past, latest) =>
      && RowsKeepTheirText(past)
      && (latest.Appended? && latest.row.kind == AssistantRow ==> IsTail(RowAnswer(latest.row), UnrowedText(past)))
  }

  lemma WholeIsTail(text: string)
    ensures IsTail(text, text)
  {
  }

  lemma TailGrows(text: string, whole: string, added: string)
    requires IsTail(text, whole)
    ensures IsTail(text + added, whole + added)
  {
    var cut := |whole| - |text|;
    assert (whole + added)[..cut] == whole[..cut];
    assert (whole + added)[cut..] == text + added;
  }

  /** A blank tail may be dropped. */
  lemma BlankTailEnds(text: string, whole: string)
    requires IsTail(text, whole) && IsBlank(text)
    ensures IsTail("", whole)
  {
    var cut := |whole| - |text|;
    forall i | 0 <= i < |whole| ensures IsWhitespace(whole[i]) {
      if i < cut {
        assert whole[i] == whole[..cut][i];
      } else {
        assert whole[i] == whole[cut..][i - cut];
      }
    }
    assert whole[..|whole|] == whole;
  }

  predicate EndsCut(text: string) {
    |text| >= |CUT_SUFFIX| && text[|text| - |CUT_SUFFIX|..] == CUT_SUFFIX
  }

  /** A text without the marker the interrupted-step path wrote behind it. */
  function Uncut(text: string, cut: bool): string {
    if cut && |text| >= |CUT_SUFFIX| then text[..|text| - |CUT_SUFFIX|] else text
  }

  /** A committed answer without the marker of a cut row. */
  function RowAnswer(row: Row): string {
    Uncut(row.text, row.cut)
  }

  /** The answer text of the committed assistant rows, in order. */
  function CommittedText(h: History): string {
    match h
    case Beginning => ""
    case After(past, Appended(row)) => CommittedText(past) + (if row.kind == AssistantRow then RowAnswer(row) else "")
    case After(past, _) => CommittedText(past)
  }

  /** An assistant row carries text or reasoning, and a cut one really ends with the marker. */
  predicate IsMeant(row: Row) {
    && (row.cut ==> row.kind == AssistantRow && EndsCut(row.text))
    && (row.kind == AssistantRow ==> !IsBlank(RowAnswer(row)) || (row.reasoning.Some? && !IsBlank(row.reasoning.value)))
  }

  predicate RowsAreMeant(h: History) {
    match h
    case Beginning => true
    case After(past, Appended(row)) => RowsAreMeant(past) && IsMeant(row)
    case After(past, _) => RowsAreMeant(past)
  }

  // ---------------------------------------------------------- status and usage

  function Statuses(h: History): seq<Status> {
    match h
    case Beginning => []
    case After(past, StatusWritten(status, _)) => Statuses(past) + [status]
    case After(past, _) => Statuses(past)
  }

  function UsageAfter(before: Option<Usage>, fact: Option<ModelEvent>): Option<Usage> {
    if fact.Some? && fact.value.UsageReport? && fact.value.usage.Reported? then Some(fact.value.usage) else before
  }

  /** The last usage the provider reported as known. */
  function LastUsage(h: History): Option<Usage> {
    match h
    case Beginning => None
    case After(past, latest) => UsageAfter(LastUsage(past), TakenFact(past, latest))
  }

  /** The known usages the provider reported, in order. */
  function KnownUsages(h: History): seq<Usage> {
    match h
    case Beginning => []
    case After(past, latest) => KnownUsages(past) + KnownUsageOf(TakenFact(past, latest))
  }

  function KnownUsageOf(fact: Option<ModelEvent>): seq<Usage> {
    if fact.Some? && fact.value.UsageReport? && fact.value.usage.Reported? then [fact.value.usage] else []
  }

  /** The usage a run records is the last one reported as known. */
  lemma {:induction false} LastUsageIsTheLastKnown(h: History)
    ensures LastUsage(h) == if KnownUsages(h) == [] then None else Some(KnownUsages(h)[|KnownUsages(h)| - 1])
  {
    hide TakenFact;
    match h
    case Beginning =>
    case After(past, latest) =>
      LastUsageIsTheLastKnown(past);
      assert KnownUsages(past) + [] == KnownUsages(past);
  }

  // ------------------------------------------------------ signals and notices

  predicate IsNotice(row: Row, text: string) {
    row.kind == NoticeRow && row.text == text
  }

  function InterruptNotices(h: History): nat {
    match h
    case Beginning => 0
    case After(past, Appended(row)) => InterruptNotices(past) + (if IsNotice(row, INTERRUPT_NOTICE) then 1 else 0)
    case After(past, _) => InterruptNotices(past)
  }

  function StopNotices(h: History): nat {
    match h
    case Beginning => 0
    case After(past, Appended(row)) => StopNotices(past) + (if IsNotice(row, RUN_STOP_NOTICE) then 1 else 0)
    case After(past, _) => StopNotices(past)
  }

  /** The newest committed row. */
  function LastRow(h: History): Option<Row> {
    match h
    case Beginning => None
    case After(past, Appended(row)) => Some(row)
    case After(past, TurnsJoined(turns)) => if turns == [] then LastRow(past) else Some(TurnRow(turns[|turns| - 1]))
    case After(past, _) => LastRow(past)
  }

  function TurnRow(turn: string): Row {
    Row(UserRow, turn, None, None, false)
  }

  // ------------------------------------------------------------ retry safety

  /** Whether the run holds output that a retry would repeat: an assistant, tool-call or
      tool-result row, or any tool work. */
  predicate HasEvidence(h: History) {
    match h
    case Beginning => false
    case After(past, Appended(row)) => HasEvidence(past) || row.kind in {AssistantRow, ToolCallRow, ToolResultRow}
    case After(past, latest) =>
      HasEvidence(past) || latest.RoundCalled? || latest.Dispatched? || latest.Answered? || latest.PortAnswered?
  }

  function AttemptCount(h: History): nat {
    match h
    case Beginning => 0
    case After(past, AttemptBegan) => AttemptCount(past) + 1
    case After(past, _) => AttemptCount(past)
  }

  /** When an attempt may begin: within the budget, without any output a retry would repeat, and
      without any streamed answer text a retry would lose. */
  predicate MayBegin(past: History, maxAttempts: nat) {
    && AttemptCount(past) < maxAttempts
    && !HasEvidence(past)
    && NonWhitespace(AnswerText(past)) == ""
  }

  predicate AttemptsBeginClean(h: History, maxAttempts: nat) {
    match h
    case Beginning => true
    case After(past, latest) => AttemptsBeginClean(past, maxAttempts) && (latest.AttemptBegan? ==> MayBegin(past, maxAttempts))
  }

  /** A failed round that no further attempt may follow: it is not retryable, output is durable, or
      the budget is spent. */
  predicate IsSpent(past: History, maxAttempts: nat) {
    var phase := StandingOf(past).phase;
    phase.Lost? && phase.retryable ==> HasEvidence(past) || AttemptCount(past) >= maxAttempts
  }

  /** No run gives up on a failed round that it could have retried. */
  predicate FailuresAreFinal(h: History, maxAttempts: nat) {
    match h
    case Beginning => true
    case After(past, latest) =>
      FailuresAreFinal(past, maxAttempts) && (latest.StatusWritten? && latest.status == Failed ==> IsSpent(past, maxAttempts))
  }

  lemma {:induction false} NoEvidenceNoText(h: History)
    requires !HasEvidence(h)
    ensures CommittedText(h) == ""
  {
    if h.Beginning? {
    } else {
      NoEvidenceNoText(h.past);
    }
  }

  // ------------------------------------------------------------ live context

  /** The messages a joined batch of pending user turns adds to the live context. */
  function TurnMessages(turns: seq<string>): seq<ModelMessage> {
    seq(|turns|, i requires 0 <= i < |turns| => ModelMessage(User, turns[i], [], None, false))
  }

  /** What a happening adds to the context that survives an attempt: interruption notices and user
      turns. Assistant rows add none: the loop never sends back the answer text. */
  function AddedBy(latest: Happening): seq<ModelMessage> {
    match latest
    case Appended(row) =>
      if IsNotice(row, INTERRUPT_NOTICE) then [ModelMessage(Notice, row.text, [], None, false)] else []
    case TurnsJoined(turns) => TurnMessages(turns)
    case _ => []
  }

  /** The additions that survive an attempt boundary. */
  function RunAdditions(h: History): seq<ModelMessage> {
    match h
    case Beginning => []
    case After(past, latest) => RunAdditions(past) + AddedBy(latest)
  }

  /** The context the current attempt added to the run's base messages. */
  function LiveContext(h: History): seq<ModelMessage> {
    match h
    case Beginning => []
    case After(past, AttemptBegan) => RunAdditions(past)
    case After(past, RoundCalled(calls)) => LiveContext(past) + [ModelMessage(Assistant, "", calls, None, false)]
    case After(past, Answered(callId, content)) => LiveContext(past) + [ModelMessage(Tool, content, [], Some(callId), false)]
    case After(past, latest) => LiveContext(past) + AddedBy(latest)
  }

  function ReasoningAfter(before: Option<string>, fact: Option<ModelEvent>): Option<string> {
    if fact.None? || !fact.value.ReasoningDelta? then before
    else if before.None? then Some(fact.value.content)
    else Some(before.value + fact.value.content)
  }

  /** The whole reasoning the current round streamed, when it opened the reasoning channel. */
  function RoundReasoning(h: History): Option<string> {
    match h
    case Beginning => None
    case After(past, Requested(_, _, _)) => None
    case After(past, latest) => ReasoningAfter(RoundReasoning(past), TakenFact(past, latest))
  }

  /** The fragments of reasoning the current round streamed. */
  function RoundFragments(h: History): seq<string> {
    match h
    case Beginning => []
    case After(past, Requested(_, _, _)) => []
    case After(past, latest) => RoundFragments(past) + FragmentOf(TakenFact(past, latest))
  }

  function FragmentOf(fact: Option<ModelEvent>): seq<string> {
    if fact.Some? && fact.value.ReasoningDelta? then [fact.value.content] else []
  }

  function Joined(fragments: seq<string>): string {
    if fragments == [] then "" else Joined(fragments[..|fragments| - 1]) + fragments[|fragments| - 1]
  }

  /** The echo is the first `k` fragments: all of them, or those before the first one that would have
      crossed the bound. */
  predicate IsCutAt(echo: Echo, fragments: seq<string>, k: nat) {
    && k <= |fragments|
    && echo.text == Joined(fragments[..k])
    && (echo.seen <==> fragments != [])
    && (echo.exceeds <==> k < |fragments|)
    && (k < |fragments| ==> Bytes(echo.text) + Bytes(fragments[k]) > MAX_ROUND_REASONING_ECHO_BYTES)
  }

  /** What the bounded echo holds, exactly. */
  lemma {:induction false} EchoIsCutAtTheBound(h: History) returns (k: nat)
    ensures IsCutAt(StandingOf(h).echo, RoundFragments(h), k)
  {
    match h
    case Beginning => k := 0;
    case After(past, latest) =>
      k := EchoIsCutAtTheBound(past);
      if latest.Requested? {
        k := 0;
      } else {
        EchoFollowsTheFact(StandingOf(past), latest);
        var fact := TakenFact(past, latest);
        assert RoundFragments(past) + [] == RoundFragments(past);
        if fact.Some? && fact.value.ReasoningDelta? {
          k := EchoGrows(StandingOf(past).echo, RoundFragments(past), k, fact.value.content);
        }
      }
  }

  lemma EchoFollowsTheFact(s: Standing, latest: Happening)
    requires !latest.Requested?
    ensures Then(s, latest).echo ==
              if latest.Heard? && Takes(s, latest.poll) && latest.poll.event.ReasoningDelta?
              then Echoed(s.echo, latest.poll.event.content) else s.echo
  {
    hide Looked, Echoed;
  }

  lemma JoinedPush(fragments: seq<string>, fragment: string)
    ensures Joined(fragments + [fragment]) == Joined(fragments) + fragment
    ensures fragments + [] == fragments && Joined([]) == "" && "" + fragment == fragment
  {
    assert (fragments + [fragment])[..|fragments|] == fragments;
  }

  lemma EchoGrows(echo: Echo, fragments: seq<string>, k: nat, content: string) returns (k': nat)
    requires IsCutAt(echo, fragments, k)
    ensures IsCutAt(Echoed(echo, content), fragments + [content], k')
  {
    hide Bytes, Joined;
    var grown := fragments + [content];
    k' := if Echoed(echo, content).exceeds then k else k + 1;
    assert grown[..k] == fragments[..k] && grown[k] == if k < |fragments| then fragments[k] else content;
    if k == |fragments| {
      JoinedPush(fragments, content);
      assert fragments[..k] == fragments && grown[..k + 1] == grown;
    }
  }

  lemma {:induction false} FragmentsMakeTheReasoning(h: History)
    ensures RoundReasoning(h) == if RoundFragments(h) == [] then None else Some(Joined(RoundFragments(h)))
  {
    hide TakenFact, Joined;
    match h
    case Beginning =>
    case After(past, latest) =>
      FragmentsMakeTheReasoning(past);
      var fact := TakenFact(past, latest);
      JoinedPush(RoundFragments(past), if fact.Some? && fact.value.ReasoningDelta? then fact.value.content else "");
  }

  predicate EchoAgrees(echo: Echo, whole: Option<string>) {
    && (echo.seen <==> whole.Some?)
    && (echo.seen && !echo.exceeds ==> whole == Some(echo.text))
  }

  /** The bounded echo is the whole reasoning of the round, unless it crossed the bound. */
  lemma EchoIsWhole(h: History)
    ensures EchoAgrees(StandingOf(h).echo, RoundReasoning(h))
  {
    var k := EchoIsCutAtTheBound(h);
    FragmentsMakeTheReasoning(h);
    hide StandingOf, RoundReasoning, RoundFragments, Joined, Bytes;
    assert RoundFragments(h)[..|RoundFragments(h)|] == RoundFragments(h);
  }

  /** The reasoning attachments the current attempt owes: one for each round that called tools
      and opened the reasoning channel, with that round's call ids and whole reasoning. */
  function AttemptReasoning(h: History): seq<AssistantReasoning> {
    match h
    case Beginning => []
    case After(past, AttemptBegan) => []
    case After(past, RoundCalled(calls)) =>
      AttemptReasoning(past) +
      (match RoundReasoning(past)
       case None => []
       case Some(echo) => [AssistantReasoning(CallIds(calls), echo)])
    case After(past, _) => AttemptReasoning(past)
  }

  /** A round that called tools owes an attachment exactly when it streamed any fragment of reasoning,
      even an empty one; the attachment carries the calls' identities and all fragments. */
  lemma AttachmentsCarryTheirRound(past: History, calls: seq<ToolCall>)
    ensures var fragments := RoundFragments(past);
            AttemptReasoning(After(past, RoundCalled(calls))) ==
              AttemptReasoning(past) +
              (if fragments == [] then [] else [AssistantReasoning(CallIds(calls), Joined(fragments))])
  {
    FragmentsMakeTheReasoning(past);
    hide RoundFragments, Joined, RoundReasoning;
  }

  function RequestCount(h: History): nat {
    match h
    case Beginning => 0
    case After(past, Requested(_, _, _)) => RequestCount(past) + 1
    case After(past, _) => RequestCount(past)
  }

  /** A message list that a provider accepts: every assistant tool-call message is immediately
      followed by exactly one tool result for each of its calls, in call order, and no other
      tool result appears. */
  predicate Paired(messages: seq<ModelMessage>)
    decreases |messages|
  {
    messages == [] || (OpensWithBlock(messages) && Paired(messages[BlockLength(messages)..]))
  }

  function BlockLength(messages: seq<ModelMessage>): (n: nat)
    requires messages != []
    ensures n > 0
  {
    1 + |messages[0].toolCalls|
  }

  predicate OpensWithBlock(messages: seq<ModelMessage>)
    requires messages != []
  {
    var calls := messages[0].toolCalls;
    && (calls == [] ==> messages[0].role in {User, Notice})
    && |messages| >= 1 + |calls|
    && (forall i :: 0 <= i < |calls| ==> Answers(messages[1 + i], calls[i]))
  }

  predicate Answers(message: ModelMessage, call: ToolCall) {
    message.role == Tool && message.toolCalls == [] && message.toolCallId == Some(call.callId)
  }

  lemma BlockStaysInFront(a: seq<ModelMessage>, b: seq<ModelMessage>)
    requires a != [] && OpensWithBlock(a)
    ensures OpensWithBlock(a + b) && BlockLength(a + b) == BlockLength(a)
    ensures (a + b)[BlockLength(a)..] == a[BlockLength(a)..] + b
  {
    assert (a + b)[0] == a[0];
  }

  lemma {:induction false} PairedConcat(a: seq<ModelMessage>, b: seq<ModelMessage>)
    requires Paired(a) && Paired(b)
    ensures Paired(a + b)
    decreases |a|
  {
    hide OpensWithBlock;
    if a == [] {
      assert a + b == b;
    } else {
      BlockStaysInFront(a, b);
      PairedConcat(a[BlockLength(a)..], b);
    }
  }

  /** A finished tool batch is a paired block of its own. */
  lemma BatchIsPaired(message: ModelMessage, answers: seq<ModelMessage>)
    requires message.toolCalls != [] && |answers| == |message.toolCalls|
    requires forall i :: 0 <= i < |answers| ==> Answers(answers[i], message.toolCalls[i])
    ensures Paired([message] + answers)
  {
    var block := [message] + answers;
    forall i | 0 <= i < |answers| ensures block[1 + i] == answers[i] {}
    assert block[BlockLength(block)..] == [];
  }

  // ------------------------------------------------ what the run promises of a history

  /** Nothing an accepted answer delta carried is lost or duplicated, and nothing is invented:
      up to whitespace the committed rows spell exactly what was streamed. */
  predicate TextConserved(h: History) {
    NonWhitespace(CommittedText(h)) == NonWhitespace(AnswerText(h))
  }

  /** The log never lags: every assistant row brings it up to date, and no request, tool batch, joined
      turn, interruption notice or stop comes while streamed text is uncommitted. */
  predicate NeverLags(h: History) {
    match h
    case Beginning => true
    case After(past, latest) => NeverLags(past) && (BringsUpToDate(latest) ==> TextConserved(h))
  }

  predicate BringsUpToDate(latest: Happening) {
    || latest.Requested? || latest.RoundCalled? || latest.TurnsJoined? || latest.SignalCleared? || latest.Stopping?
    || (latest.Appended? && latest.row.kind == AssistantRow)
  }

  /** Retrying costs no context: without evidence the lost live context was only the additions
      that the next attempt starts with. */
  lemma {:induction false} RetryLosesNoContext(h: History)
    requires !HasEvidence(h)
    ensures LiveContext(h) == RunAdditions(h)
    ensures AttemptReasoning(h) == []
  {
    if h.Beginning? {
    } else {
      RetryLosesNoContext(h.past);
    }
  }
}
