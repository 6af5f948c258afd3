/** The window accounting of an attempt and the message list it keeps, read from a run's history. */
module RunWindow {
  import opened ContextWindow
  import opened ModelTypes
  import opened RunEvents
  import opened RunHistory

  /** The characters the latest request asked with: all it sent, attachments included. */
  function AskedCharacters(h: History): nat {
    match h
    case Beginning => 0
    case After(past, Requested(_, messages, reasoning)) => RequestCharacters(messages, reasoning)
    case After(past, _) => AskedCharacters(past)
  }

  /** What a fact says about usage, known or not. */
  function ReportIn(fact: Option<ModelEvent>): Option<Usage> {
    if fact.Some? && fact.value.UsageReport? then Some(fact.value.usage) else None
  }

  function Calibrated(w: Accounting, report: Option<Usage>, characters: nat): Accounting {
    if report.Some? then w.Observed(report.value, characters) else w
  }

  /** The accounting of the current attempt: fresh when the attempt began, then calibrated by every
      report the attempt heard, each with the characters of the request it reports on. */
  function AccountingOf(windowTokens: nat, h: History): Accounting {
    match h
    case Beginning => Accounting(windowTokens, None, 0)
    case After(past, AttemptBegan) => Accounting(windowTokens, None, 0)
    case After(past, latest) =>
      Calibrated(AccountingOf(windowTokens, past), ReportIn(TakenFact(past, latest)), AskedCharacters(past))
  }

  /** The live message list of the current attempt. It starts as the base and the additions that
      survive; a tool result joins through a window pass; a request is what the list has become;
      everything else is put behind it. */
  function LiveList(base: seq<ModelMessage>, windowTokens: nat, h: History): seq<ModelMessage> {
    match h
    case Beginning => base
    case After(past, AttemptBegan) => base + RunAdditions(past)
    case After(past, Requested(_, messages, _)) => messages
    case After(past, RoundCalled(calls)) =>
      LiveList(base, windowTokens, past) + [ModelMessage(Assistant, "", calls, None, false)]
    case After(past, Answered(callId, content)) =>
      Windowed(AccountingOf(windowTokens, past),
               LiveList(base, windowTokens, past) + [ModelMessage(Tool, content, [], Some(callId), false)],
               AttemptReasoning(past))
    case After(past, latest) => LiveList(base, windowTokens, past) + AddedBy(latest)
  }

  // ----------------------------------------------------------- images of lists

  lemma UntouchedImage(list: seq<ModelMessage>)
    ensures WindowImage(list, list)
  {
    hide CompressedToolResult;
  }

  lemma ImageAppend(seen: seq<ModelMessage>, original: seq<ModelMessage>, added: seq<ModelMessage>)
    requires WindowImage(seen, original)
    ensures WindowImage(seen + added, original + added)
  {
    hide CompressedToolResult, SeenThroughWindow;
    UntouchedImage(added);
  }

  // ------------------------------------------------- what a windowed request is

  /** The leading block of system messages ends here. */
  predicate ClosesSystemBlock(messages: seq<ModelMessage>, i: nat)
    requires i < |messages|
  {
    && (forall j :: 0 <= j <= i ==> messages[j].role == System)
    && (i + 1 < |messages| ==> messages[i + 1].role != System)
  }

  /** A list that a window pass has seen last: it fits, or no message of it can be compressed any
      more; and the cache marks stand exactly on its last message and at the end of its leading
      system block. */
  ghost predicate IsReviewed(w: Accounting, messages: seq<ModelMessage>, reasoning: seq<AssistantReasoning>) {
    && (w.Fits(messages, reasoning) || forall m :: m in messages ==> !Compressible(m))
    && (forall i: nat :: i < |messages| ==>
          (messages[i].cacheControl <==> i == |messages| - 1 || ClosesSystemBlock(messages, i)))
  }

  /** Every request of the run went out reviewed under the accounting its attempt had by then. */
  ghost predicate RequestsReviewed(windowTokens: nat, h: History) {
    match h
    case Beginning => true
    case After(past, latest) =>
      && RequestsReviewed(windowTokens, past)
      && (latest.Requested? ==> IsReviewed(AccountingOf(windowTokens, past), latest.messages, latest.reasoning))
  }

  lemma WindowedIsReviewed(w: Accounting, messages: seq<ModelMessage>, reasoning: seq<AssistantReasoning>)
    ensures IsReviewed(w, Windowed(w, messages, reasoning), reasoning)
  {
    hide Compressible, Accounting.Fits;
    var trimmed := Trimmed(w, messages, reasoning);
    var out := Windowed(w, messages, reasoning);
    TrimIsGreedy(w, messages, reasoning);
    MarkingKeepsTheMeasure(w, trimmed, reasoning);
    SameRolesSameSystemBlock(out, trimmed);
    forall i: nat | i < |out| ensures out[i].cacheControl <==> i == |out| - 1 || ClosesSystemBlock(out, i) {
      SystemBlockEnds(out, i);
    }
  }

  lemma SystemBlockEnds(messages: seq<ModelMessage>, i: nat)
    requires i < |messages|
    ensures ClosesSystemBlock(messages, i) <==> i + 1 == LeadingSystemCount(messages)
  {
    var n := LeadingSystemCount(messages);
    if i + 1 < n {
      assert messages[i + 1].role == System;
    }
  }
}
