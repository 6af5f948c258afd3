/** The normalized event stream of the generic chat adapter: native chunks in, ordered facts out. */
module ProviderStream {
  import opened ModelTypes
  import opened Text
  import opened ToolReassembly

  // ------------------------------------------------------------- native items

  datatype WireDelta = WireDelta(content: Option<string>, reasoning: Option<string>, toolCalls: Option<seq<ToolChunk>>)

  datatype WireChoice = WireChoice(index: nat, delta: WireDelta, finishReason: Option<string>)

  datatype WireUsage = WireUsage(promptTokens: nat, completionTokens: nat, totalTokens: nat)

  datatype WireChunk = WireChunk(choices: seq<WireChoice>, usage: Option<WireUsage>)

  datatype NativeItem = Chunk(chunk: WireChunk) | NativeError(retryable: bool)

  datatype Failure =
    | StreamIncomplete
    | DuplicateFinish
    | PostFinishContent
    | InvalidUsage
    | InvalidToolCall
    | NativeFailed(retryable: bool)

  datatype StreamItem = Fact(event: ModelEvent) | Failed(failure: Failure)

  function FinishReasonOf(reason: string): FinishReason {
    if reason == "stop" then Stop
    else if reason == "length" then Length
    else if reason == "tool_calls" then ToolCalls
    else if reason == "content_filter" then ContentFilter
    else if reason == "error" then Error
    else Unknown
  }

  // -------------------------------------------------- what the provider sent

  /** Everything the provider sent, gathered in arrival order, whether or not the translator is
      still listening. `facts` are the text, reasoning and first usage, `presence` says that an
      empty reasoning value came before the finish reason, `overrun` that a chunk behind it carried
      more than usage. */
  datatype Seen = Seen(
    facts: seq<ModelEvent>,
    presence: bool,
    arrivals: seq<Arrival>,
    reasons: seq<FinishReason>,
    usages: seq<WireUsage>,
    overrun: bool,
    errors: seq<bool>)

  const NOTHING_SEEN := Seen([], false, [], [], [], false, [])

  predicate Extends(before: Seen, after: Seen) {
    && before.facts <= after.facts
    && before.arrivals <= after.arrivals
    && before.reasons <= after.reasons
    && before.usages <= after.usages
    && (before.overrun ==> after.overrun)
    && before.errors <= after.errors
  }

  function OrEmpty(text: Option<string>): string {
    if text.Some? then text.value else ""
  }

  function SeeCalls(seen: Seen, choice: nat, calls: seq<ToolChunk>): (after: Seen)
    ensures Extends(seen, after)
    ensures after == seen.(arrivals := after.arrivals)
  {
    if calls == [] then seen
    else
      var before := SeeCalls(seen, choice, calls[..|calls| - 1]);
      var last := calls[|calls| - 1];
      before.(arrivals := before.arrivals + [Arrival((choice, last.index), last)])
  }

  /** An empty value only marks that the channel was there, once for the response. */
  function SeeReasoning(seen: Seen, reasoning: Option<string>): (after: Seen)
    ensures Extends(seen, after)
  {
    if reasoning.None? || (reasoning.value == "" && seen.presence) then seen
    else seen.(facts := seen.facts + [ReasoningDelta(reasoning.value)], presence := seen.presence || reasoning.value == "")
  }

  function SeeContent(seen: Seen, content: Option<string>): (after: Seen)
    ensures Extends(seen, after)
  {
    if OrEmpty(content) == "" then seen else seen.(facts := seen.facts + [TextDelta(content.value)])
  }

  /** The provider streams the thinking before the answer it informs. */
  function SeeDelta(seen: Seen, choice: nat, delta: WireDelta): (after: Seen)
    ensures Extends(seen, after)
  {
    var spoken := SeeContent(SeeReasoning(seen, delta.reasoning), delta.content);
    if delta.toolCalls.None? then spoken else SeeCalls(spoken, choice, delta.toolCalls.value)
  }

  function SeeChoice(seen: Seen, choice: WireChoice): (after: Seen)
    ensures Extends(seen, after)
  {
    var spoken := SeeDelta(seen, choice.index, choice.delta);
    if choice.finishReason.None? then spoken
    else spoken.(reasons := spoken.reasons + [FinishReasonOf(choice.finishReason.value)])
  }

  function SeeChoices(seen: Seen, choices: seq<WireChoice>): (after: Seen)
    ensures Extends(seen, after)
  {
    if choices == [] then seen
    else SeeChoice(SeeChoices(seen, choices[..|choices| - 1]), choices[|choices| - 1])
  }

  function ReportOf(usage: WireUsage): Usage {
    Reported(usage.promptTokens, usage.completionTokens, usage.totalTokens)
  }

  function SeeUsage(seen: Seen, usage: Option<WireUsage>): (after: Seen)
    ensures Extends(seen, after)
  {
    if usage.None? then seen
    else
      seen.(usages := seen.usages + [usage.value],
            facts := if seen.usages == [] then seen.facts + [UsageReport(ReportOf(usage.value))] else seen.facts)
  }

  /** A chunk behind the finish reason may carry at most the usage summary. */
  predicate CarriesMoreThanUsage(choice: WireChoice) {
    || choice.finishReason.Some?
    || OrEmpty(choice.delta.content) != ""
    || OrEmpty(choice.delta.reasoning) != ""
    || choice.delta.toolCalls.Some?
  }

  predicate Overruns(seen: Seen, chunk: WireChunk) {
    seen.reasons != [] && exists c :: c in chunk.choices && CarriesMoreThanUsage(c)
  }

  function SeeItem(seen: Seen, item: NativeItem): (after: Seen)
    ensures Extends(seen, after)
  {
    match item
    case NativeError(retryable) => seen.(errors := seen.errors + [retryable])
    case Chunk(chunk) =>
      var reported := SeeUsage(seen, chunk.usage);
      var rest := SeeChoices(reported, chunk.choices);
      if seen.reasons == [] then rest
      else rest.(overrun := rest.overrun || Overruns(seen, chunk), presence := reported.presence, facts := reported.facts)
  }

  function SeenOf(native: seq<NativeItem>): Seen {
    if native == [] then NOTHING_SEEN else SeeItem(SeenOf(native[..|native| - 1]), native[|native| - 1])
  }

  /** What was seen of a beginning of the stream stays seen. */
  lemma {:induction false} SeenGrows(native: seq<NativeItem>, k: nat)
    requires k <= |native|
    ensures Extends(SeenOf(native[..k]), SeenOf(native))
  {
    if k == |native| {
      assert native[..k] == native;
    } else {
      SeenGrows(native[..|native| - 1], k);
      assert native[..|native| - 1][..k] == native[..k];
    }
  }

  lemma {:induction false} UsageOnlyChunksSayNothing(seen: Seen, choices: seq<WireChoice>)
    requires forall c :: c in choices ==> !CarriesMoreThanUsage(c)
    ensures SeeChoices(seen, choices) ==
              seen.(presence := SeeChoices(seen, choices).presence, facts := SeeChoices(seen, choices).facts)
  {
    if choices == [] {
    } else {
      UsageOnlyChunksSayNothing(seen, choices[..|choices| - 1]);
      assert choices[|choices| - 1] in choices;
    }
  }

  predicate IsConsistent(usage: WireUsage) {
    usage.promptTokens + usage.completionTokens == usage.totalTokens
  }

  /** A complete call: identified, named, with an object document as arguments. */
  predicate IsComplete(f: Fragments, isJsonObject: string -> bool) {
    f.id.Some? && f.name.Some? && !IsBlank(f.name.value) && isJsonObject(f.arguments)
  }

  predicate AllComplete(arrivals: seq<Arrival>, isJsonObject: string -> bool) {
    && MergeAll(arrivals).Some?
    && forall key :: key in MergeAll(arrivals).value ==> IsComplete(MergeAll(arrivals).value[key], isJsonObject)
  }

  /** The response a provider completed: no error, one finish reason and nothing but usage behind
      it, a first usage summary that adds up, and only whole, unconflicted calls. */
  predicate Completes(seen: Seen, isJsonObject: string -> bool) {
    && seen.errors == []
    && |seen.reasons| == 1
    && !seen.overrun
    && (seen.usages != [] ==> IsConsistent(seen.usages[0]))
    && AllComplete(seen.arrivals, isJsonObject)
  }

  /** What a failure says is wrong with the part of the stream that was read. */
  predicate Explains(failure: Failure, seen: Seen) {
    match failure
    case NativeFailed(retryable) => seen.errors != [] && seen.errors[0] == retryable
    case DuplicateFinish => |seen.reasons| >= 2
    case PostFinishContent => seen.overrun
    case InvalidUsage => seen.usages != [] && !IsConsistent(seen.usages[0])
    case InvalidToolCall => MergeAll(seen.arrivals).None?
    case StreamIncomplete => false
  }

  /** What the end of the stream adds: it can be missing its finish reason, or a call's rest. */
  predicate ExplainsAtEnd(failure: Failure, seen: Seen, isJsonObject: string -> bool) {
    || Explains(failure, seen)
    || (failure == StreamIncomplete && seen.reasons == [])
    || (failure == InvalidToolCall && !AllComplete(seen.arrivals, isJsonObject))
  }

  lemma {:induction false} ConflictsStay(a: seq<Arrival>, b: seq<Arrival>)
    requires a <= b && MergeAll(a).None?
    ensures MergeAll(b).None?
  {
    if a == b {
    } else {
      ConflictsStay(a, b[..|b| - 1]);
    }
  }

  lemma FailuresStay(failure: Failure, before: Seen, after: Seen)
    requires Explains(failure, before) && Extends(before, after)
    ensures Explains(failure, after)
  {
    hide MergeAll;
    if MergeAll(before.arrivals).None? {
      ConflictsStay(before.arrivals, after.arrivals);
    }
  }

  // ------------------------------------------------------- what a consumer sees

  predicate IsTerminal(item: StreamItem) {
    item.Failed? || item.event.Finished?
  }

  /** What a consumer makes of the items so far. `lifecycle` is `None` as soon as the validator
      would have rejected an event. */
  datatype Reading = Reading(
    lifecycle: Option<Lifecycle>,
    terminals: nat,
    afterTerminal: bool,
    presences: nat,
    emptyText: bool,
    calls: seq<ToolCall>)

  function Read(before: Reading, item: StreamItem): Reading {
    var ordered := before.(
      lifecycle :=
        if before.lifecycle.None? || item.Failed? then before.lifecycle
        else if before.lifecycle.value.Accepts(item.event) then Some(before.lifecycle.value.After(item.event))
        else None,
      terminals := before.terminals + (if IsTerminal(item) then 1 else 0),
      afterTerminal := before.afterTerminal || before.terminals > 0);
    if item.Failed? then ordered else
      match item.event
      case TextDelta(content) => ordered.(emptyText := before.emptyText || content == "")
      case ReasoningDelta(content) => ordered.(presences := before.presences + (if content == "" then 1 else 0))
      case ToolCallReady(call) => ordered.(calls := before.calls + [call])
      case _ => ordered
  }

  const NOTHING_READ := Reading(Some(FRESH_LIFECYCLE), 0, false, 0, false, [])

  function ReadingOf(items: seq<StreamItem>): Reading {
    if items == [] then NOTHING_READ else Read(ReadingOf(items[..|items| - 1]), items[|items| - 1])
  }

  lemma ReadingPush(items: seq<StreamItem>, item: StreamItem)
    ensures ReadingOf(items + [item]) == Read(ReadingOf(items), item)
  {
    assert (items + [item])[..|items|] == items;
  }

  /** A stream in order: it begins with `Started`, the validator accepts every event, usage and
      textless reasoning come at most once, no text is empty, and a terminal item is the last. */
  predicate Ordered(items: seq<StreamItem>, terminal: bool, usage: bool, presence: bool) {
    var reading := ReadingOf(items);
    && items != [] && items[0] == Fact(Started)
    && reading.lifecycle.Some?
    && reading.lifecycle.value.started
    && (!terminal ==> !reading.lifecycle.value.terminal)
    && (reading.lifecycle.value.usageSeen ==> usage)
    && reading.terminals == (if terminal then 1 else 0)
    && !reading.afterTerminal
    && (terminal ==> IsTerminal(items[|items| - 1]))
    && reading.presences <= (if presence then 1 else 0)
    && !reading.emptyText
  }

  lemma FactKeepsOrder(items: seq<StreamItem>, event: ModelEvent, usage: bool, presence: bool)
    requires Ordered(items, false, usage, presence)
    requires !event.Started? && !event.Finished?
    requires event != TextDelta("")
    requires event.UsageReport? ==> !usage
    requires event == ReasoningDelta("") ==> !presence
    ensures Ordered(items + [Fact(event)], false, usage || event.UsageReport?, presence || event == ReasoningDelta(""))
    ensures ReadingOf(items + [Fact(event)]) == Read(ReadingOf(items), Fact(event))
  {
    hide ReadingOf;
    ReadingPush(items, Fact(event));
  }

  lemma TerminalKeepsOrder(items: seq<StreamItem>, item: StreamItem, usage: bool, presence: bool)
    requires Ordered(items, false, usage, presence) && IsTerminal(item)
    ensures Ordered(items + [item], true, usage, presence)
    ensures ReadingOf(items + [item]) == Read(ReadingOf(items), item)
  {
    hide ReadingOf;
    ReadingPush(items, item);
  }

  lemma FlagsMayBeRaised(items: seq<StreamItem>, terminal: bool, usage: bool, presence: bool)
    requires Ordered(items, terminal, usage, presence)
    ensures Ordered(items, terminal, true, presence) && Ordered(items, terminal, usage, true)
  {
  }

  // ------------------------------------------------------------------- queue

  /** The one queue every normalized fact passes through. `queued` is everything it ever held,
      `delivered` what the consumer took from it. */
  class EventQueue {
    var pending: seq<StreamItem>
    var terminal: bool
    ghost var queued: seq<StreamItem>
    ghost var delivered: seq<StreamItem>

    constructor ()
      ensures Whole() && pending == queued == [Fact(Started)] && delivered == [] && !terminal
    {
      pending := [Fact(Started)];
      queued := [Fact(Started)];
      delivered := [];
      terminal := false;
    }

    ghost predicate Whole()
      reads this
    {
      queued == delivered + pending
    }

    /** Once terminal, every later write is dropped. */
    method Push(event: ModelEvent)
      requires Whole()
      modifies this`pending, this`queued
      ensures Whole()
      ensures queued == (if terminal then old(queued) else old(queued) + [Fact(event)])
    {
      if terminal {
        return;
      }
      pending := pending + [Fact(event)];
      queued := queued + [Fact(event)];
    }

    method Finish(reason: FinishReason)
      requires Whole()
      modifies this`pending, this`queued, this`terminal
      ensures Whole() && terminal
      ensures queued == (if old(terminal) then old(queued) else old(queued) + [Fact(Finished(reason))])
    {
      Push(Finished(reason));
      terminal := true;
    }

    method Fail(failure: Failure)
      requires Whole()
      modifies this`pending, this`queued, this`terminal
      ensures Whole() && terminal
      ensures queued == (if old(terminal) then old(queued) else old(queued) + [Failed(failure)])
    {
      if terminal {
        return;
      }
      pending := pending + [Failed(failure)];
      queued := queued + [Failed(failure)];
      terminal := true;
    }

    method Pop() returns (item: StreamItem)
      requires Whole() && pending != []
      modifies this`pending, this`delivered
      ensures Whole() && pending == old(pending)[1..] && delivered == old(delivered) + [item]
    {
      item := pending[0];
      pending := pending[1..];
      delivered := delivered + [item];
    }
  }

  // -------------------------------------------------------------- translation

  function AsItems(events: seq<ModelEvent>): seq<StreamItem> {
    seq(|events|, i requires 0 <= i < |events| => Fact(events[i]))
  }

  /** The items of a response so far: the start, then facts in order. */
  function Opened(facts: seq<ModelEvent>): seq<StreamItem> {
    [Fact(Started)] + AsItems(facts)
  }

  lemma OneFactMore(facts: seq<ModelEvent>, fact: ModelEvent)
    ensures Opened(facts + [fact]) == Opened(facts) + [Fact(fact)]
  {
  }

  function CallEvents(calls: seq<ToolCall>): seq<ModelEvent> {
    seq(|calls|, i requires 0 <= i < |calls| => ToolCallReady(calls[i]))
  }

  /** The calls of a finished response: one for each key in ascending order, with a fresh identity,
      its constant name and its whole arguments. */
  predicate AreTheCalls(calls: seq<ToolCall>, keys: seq<Key>, tools: map<Key, Fragments>, freshId: nat -> CallId) {
    && |calls| == |keys|
    && forall i :: 0 <= i < |keys| ==> IsTheCall(calls[i], keys[i], tools, freshId(i))
  }

  predicate IsTheCall(call: ToolCall, key: Key, tools: map<Key, Fragments>, callId: CallId) {
    && key in tools
    && tools[key].name.Some?
    && call == ToolCall(callId, tools[key].name.value, tools[key].arguments)
  }

  /** While the stream is open, every fact seen has been passed on in order, and no call. */
  predicate PassedOn(items: seq<StreamItem>, seen: Seen) {
    && items == Opened(seen.facts)
    && ReadingOf(items).calls == []
    && seen.errors == []
    && !seen.overrun
    && (seen.usages != [] ==> IsConsistent(seen.usages[0]))
  }

  /** What came before a failure is a beginning of the facts there were. */
  predicate BeginsLike(items: seq<StreamItem>, facts: seq<ModelEvent>) {
    items != [] && items[..|items| - 1] <= Opened(facts)
  }

  /** A failed stream passed on facts in order, emitted no call, and ends in a failure that what
      was seen explains. */
  predicate FailedFor(items: seq<StreamItem>, seen: Seen) {
    && BeginsLike(items, seen.facts)
    && ReadingOf(items).calls == []
    && items[|items| - 1].Failed?
    && Explains(items[|items| - 1].failure, seen)
  }

  lemma BeginningStays(items: seq<StreamItem>, before: seq<ModelEvent>, after: seq<ModelEvent>)
    requires before <= after
    ensures BeginsLike(items, before) ==> BeginsLike(items, after)
    ensures items == Opened(before) ==> forall last :: BeginsLike(items + [last], after)
  {
    assert Opened(before) <= Opened(after) by {
      assert Opened(after)[..|Opened(before)|] == Opened(before);
    }
    forall last ensures items == Opened(before) ==> BeginsLike(items + [last], after) {
      assert (items + [last])[..|items|] == items;
    }
  }

  lemma FailedStays(items: seq<StreamItem>, before: Seen, after: Seen)
    requires FailedFor(items, before) && Extends(before, after)
    ensures FailedFor(items, after)
  {
    hide ReadingOf, MergeAll;
    BeginningStays(items, before.facts, after.facts);
    FailuresStay(items[|items| - 1].failure, before, after);
  }

  lemma ReasonsAreCounted(seen: Seen, choices: seq<WireChoice>)
    requires exists c :: c in choices && c.finishReason.Some?
    ensures |SeeChoices(seen, choices).reasons| > |seen.reasons|
  {
    if choices == [] || choices[|choices| - 1].finishReason.Some? {
    } else {
      var c :| c in choices && c.finishReason.Some?;
      assert c in choices[..|choices| - 1];
      ReasonsAreCounted(seen, choices[..|choices| - 1]);
    }
  }

  lemma {:induction false} SeeChoicesGrows(seen: Seen, choices: seq<WireChoice>, k: nat)
    requires k <= |choices|
    ensures Extends(SeeChoices(seen, choices[..k]), SeeChoices(seen, choices))
  {
    hide SeeChoice;
    if k == |choices| {
      assert choices[..k] == choices;
    } else {
      SeeChoicesGrows(seen, choices[..|choices| - 1], k);
      assert choices[..|choices| - 1][..k] == choices[..k];
    }
  }

  lemma {:induction false} SeeCallsGrows(seen: Seen, choice: nat, calls: seq<ToolChunk>, k: nat)
    requires k <= |calls|
    ensures Extends(SeeCalls(seen, choice, calls[..k]), SeeCalls(seen, choice, calls))
  {
    if k == |calls| {
      assert calls[..k] == calls;
    } else {
      SeeCallsGrows(seen, choice, calls[..|calls| - 1], k);
      assert calls[..|calls| - 1][..k] == calls[..k];
    }
  }

  function CompleteCall(f: Fragments, callId: CallId, isJsonObject: string -> bool): (call: Option<ToolCall>)
    ensures call.Some? <==> IsComplete(f, isJsonObject)
    ensures call.Some? ==> call.value == ToolCall(callId, f.name.value, f.arguments)
  {
    if f.id.None? || f.name.None? then None
    else if IsBlank(f.name.value) then None
    else if !isJsonObject(f.arguments) then None
    else Some(ToolCall(callId, f.name.value, f.arguments))
  }

  /** How the stream of a whole response ends, given what the provider sent. */
  predicate Settled(items: seq<StreamItem>, seen: Seen, isJsonObject: string -> bool, freshId: nat -> CallId) {
    && items != []
    && match items[|items| - 1]
       case Failed(failure) =>
         && BeginsLike(items, seen.facts)
         && ReadingOf(items).calls == []
         && ExplainsAtEnd(failure, seen, isJsonObject)
       case Fact(_) =>
         && Completes(seen, isJsonObject)
         && items == Opened(seen.facts + CallEvents(ReadingOf(items).calls) + [Finished(seen.reasons[0])])
         && AreTheCalls(ReadingOf(items).calls, InOrder(MergeAll(seen.arrivals).value.Keys), MergeAll(seen.arrivals).value, freshId)
  }

  lemma FailureSettles(items: seq<StreamItem>, failure: Failure, seen: Seen, isJsonObject: string -> bool, freshId: nat -> CallId)
    requires PassedOn(items, seen) && ExplainsAtEnd(failure, seen, isJsonObject)
    ensures Settled(items + [Failed(failure)], seen, isJsonObject, freshId)
  {
    hide MergeAll, Explains, AllComplete, Opened;
    ReadingPush(items, Failed(failure));
    BeginningStays(items, seen.facts, seen.facts);
    hide ReadingOf;
  }

  lemma FinishSettles(items: seq<StreamItem>, seen: Seen, calls: seq<ToolCall>, isJsonObject: string -> bool, freshId: nat -> CallId)
    requires Completes(seen, isJsonObject)
    requires items == Opened(seen.facts + CallEvents(calls)) && ReadingOf(items).calls == calls
    requires var tools := MergeAll(seen.arrivals).value; AreTheCalls(calls, InOrder(tools.Keys), tools, freshId)
    ensures Settled(items + [Fact(Finished(seen.reasons[0]))], seen, isJsonObject, freshId)
  {
    hide MergeAll, Opened, AreTheCalls, InOrder;
    ReadingPush(items, Fact(Finished(seen.reasons[0])));
    hide ReadingOf;
    OneFactMore(seen.facts + CallEvents(calls), Finished(seen.reasons[0]));
  }

  lemma StartedIsOrdered()
    ensures Ordered([Fact(Started)], false, false, false)
    ensures PassedOn([Fact(Started)], NOTHING_SEEN)
  {
    ReadingPush([], Fact(Started));
    assert [] + [Fact(Started)] == [Fact(Started)];
  }

  class GenericTranslator {
    const isJsonObject: string -> bool
    const freshId: nat -> CallId
    var tools: map<Key, Fragments>
    var terminalReason: Option<FinishReason>
    var usageReported: bool
    var presenceReported: bool
    ghost var seen: Seen

    constructor (isJsonObject: string -> bool, freshId: nat -> CallId)
      ensures this.isJsonObject == isJsonObject && this.freshId == freshId
      ensures tools == map[] && terminalReason.None? && !usageReported && !presenceReported
      ensures seen == NOTHING_SEEN
    {
      this.isJsonObject := isJsonObject;
      this.freshId := freshId;
      tools, terminalReason, usageReported, presenceReported := map[], None, false, false;
      seen := NOTHING_SEEN;
    }

    /** An open stream passed on all there was but the calls; a closed one failed for a reason. */
    ghost predicate Linked(events: EventQueue)
      reads this, events
    {
      && events.Whole()
      && Ordered(events.queued, events.terminal, usageReported, presenceReported)
      && (!events.terminal ==>
            && PassedOn(events.queued, seen)
            && (usageReported <==> seen.usages != [])
            && (presenceReported <==> seen.presence))
      && (events.terminal ==> FailedFor(events.queued, seen))
    }

    /** The state an open stream keeps between chunks. */
    ghost predicate Reassembling(events: EventQueue)
      reads this, events
    {
      !events.terminal ==>
        && MergeAll(seen.arrivals) == Some(tools)
        && |seen.reasons| <= 1
        && terminalReason == (if seen.reasons == [] then None else Some(seen.reasons[0]))
    }

    method FailWith(failure: Failure, ghost after: Seen, events: EventQueue)
      requires Linked(events)
      requires Extends(seen, after) && (!events.terminal ==> Explains(failure, after))
      modifies this`seen, events`pending, events`queued, events`terminal
      ensures Linked(events) && events.terminal && seen == after
    {
      hide ReadingOf, MergeAll, Opened, BeginsLike;
      if events.terminal {
        FailedStays(events.queued, seen, after);
      } else {
        BeginningStays(events.queued, seen.facts, after.facts);
        TerminalKeepsOrder(events.queued, Failed(failure), usageReported, presenceReported);
      }
      events.Fail(failure);
      seen := after;
    }

    method AcceptReasoning(reasoning: string, events: EventQueue)
      requires Linked(events) && Reassembling(events)
      modifies this`seen, this`presenceReported, events`pending, events`queued
      ensures Linked(events) && Reassembling(events)
      ensures seen == SeeReasoning(old(seen), Some(reasoning))
    {
      hide ReadingOf, MergeAll, Ordered;
      ghost var after := SeeReasoning(seen, Some(reasoning));
      OneFactMore(seen.facts, ReasoningDelta(reasoning));
      if events.terminal {
        FlagsMayBeRaised(events.queued, true, usageReported, presenceReported);
        FailedStays(events.queued, seen, after);
      } else if reasoning != "" || !presenceReported {
        FactKeepsOrder(events.queued, ReasoningDelta(reasoning), usageReported, presenceReported);
      }
      seen := after;
      if reasoning == "" {
        if !presenceReported {
          presenceReported := true;
          events.Push(ReasoningDelta(""));
        }
        return;
      }
      events.Push(ReasoningDelta(reasoning));
    }

    method AcceptContent(content: string, events: EventQueue)
      requires Linked(events) && Reassembling(events)
      modifies this`seen, events`pending, events`queued
      ensures Linked(events) && Reassembling(events)
      ensures seen == SeeContent(old(seen), Some(content))
    {
      hide ReadingOf, MergeAll, Ordered;
      ghost var after := SeeContent(seen, Some(content));
      OneFactMore(seen.facts, TextDelta(content));
      if events.terminal {
        FailedStays(events.queued, seen, after);
      } else if content != "" {
        FactKeepsOrder(events.queued, TextDelta(content), usageReported, presenceReported);
      }
      seen := after;
      if content != "" {
        events.Push(TextDelta(content));
      }
    }

    /** `seen` counts all calls of the delta even when a conflict cuts the loop short. */
    method AcceptCalls(choice: nat, calls: seq<ToolChunk>, events: EventQueue) returns (conflict: bool)
      requires Linked(events) && Reassembling(events)
      modifies this`seen, this`tools
      ensures Linked(events) && seen == SeeCalls(old(seen), choice, calls)
      ensures conflict && !events.terminal ==> Explains(InvalidToolCall, seen)
      ensures !conflict ==> Reassembling(events)
    {
      hide ReadingOf, MergeAll, Ordered, Merge, FailedFor;
      ghost var before := seen;
      var i := 0;
      while i < |calls|
        invariant 0 <= i <= |calls|
        invariant seen == SeeCalls(before, choice, calls[..i])
        invariant Linked(events) && Reassembling(events)
      {
        var key := (choice, calls[i].index);
        var merged := Merge(FragmentsAt(tools, key), calls[i]);
        assert calls[..i + 1][..i] == calls[..i];
        ghost var next := SeeCalls(before, choice, calls[..i + 1]);
        if events.terminal {
          FailedStays(events.queued, seen, next);
        } else {
          MergeAllStep(seen.arrivals, Arrival(key, calls[i]));
        }
        if merged.None? {
          ghost var all := SeeCalls(before, choice, calls);
          SeeCallsGrows(before, choice, calls, i + 1);
          if events.terminal {
            FailedStays(events.queued, next, all);
          } else {
            ConflictsStay(next.arrivals, all.arrivals);
          }
          seen := all;
          return true;
        }
        tools := tools[key := merged.value];
        seen := next;
        i := i + 1;
      }
      assert calls[..i] == calls;
      return false;
    }

    /** Thinking before the answer it informs, then the call fragments. */
    method AcceptDelta(choice: nat, delta: WireDelta, events: EventQueue) returns (conflict: bool)
      requires Linked(events) && Reassembling(events)
      modifies this`seen, this`tools, this`presenceReported, events`pending, events`queued
      ensures Linked(events) && seen == SeeDelta(old(seen), choice, delta)
      ensures conflict && !events.terminal ==> Explains(InvalidToolCall, seen)
      ensures !conflict ==> Reassembling(events)
    {
      hide ReadingOf, MergeAll, Ordered, SeeCalls, PassedOn, FailedFor;
      if delta.reasoning.Some? {
        AcceptReasoning(delta.reasoning.value, events);
      }
      if delta.content.Some? {
        AcceptContent(delta.content.value, events);
      }
      if delta.toolCalls.Some? {
        conflict := AcceptCalls(choice, delta.toolCalls.value, events);
      } else {
        conflict := false;
      }
    }

    /** The first summary is the authoritative one; one that does not add up ends the stream. */
    method AcceptUsage(usage: Option<WireUsage>, events: EventQueue)
      requires Linked(events) && Reassembling(events)
      modifies this`seen, this`usageReported, events`pending, events`queued, events`terminal
      ensures Linked(events) && Reassembling(events)
      ensures seen == SeeUsage(old(seen), usage)
    {
      hide ReadingOf, MergeAll, Ordered;
      ghost var after := SeeUsage(seen, usage);
      if events.terminal {
        FlagsMayBeRaised(events.queued, true, usageReported, presenceReported);
        FailedStays(events.queued, seen, after);
      }
      if usage.None? || usageReported {
        seen := after;
        return;
      }
      if !IsConsistent(usage.value) {
        FailWith(InvalidUsage, after, events);
        return;
      }
      var report := UsageReport(Reported(usage.value.promptTokens, usage.value.completionTokens, usage.value.totalTokens));
      OneFactMore(seen.facts, report);
      if !events.terminal {
        FactKeepsOrder(events.queued, report, usageReported, presenceReported);
      }
      seen := after;
      usageReported := true;
      events.Push(report);
    }

    /** Whether the rest of the chunk is dropped; `all` is then what the whole chunk said. */
    method AcceptChoice(choice: WireChoice, ghost all: Seen, events: EventQueue) returns (failed: bool)
      requires Linked(events) && Reassembling(events)
      requires Extends(SeeChoice(seen, choice), all)
      modifies this`seen, this`tools, this`presenceReported, this`terminalReason
      modifies events`pending, events`queued, events`terminal
      ensures Linked(events) && Reassembling(events)
      ensures seen == if failed then all else SeeChoice(old(seen), choice)
    {
      hide ReadingOf, MergeAll, Ordered, SeeDelta, PassedOn, FailedFor;
      ghost var next := SeeChoice(seen, choice);
      var conflict := AcceptDelta(choice.index, choice.delta, events);
      if conflict {
        if !events.terminal {
          FailuresStay(InvalidToolCall, seen, all);
        }
        FailWith(InvalidToolCall, all, events);
        return true;
      }
      if choice.finishReason.Some? {
        var replaced := terminalReason;
        terminalReason := Some(FinishReasonOf(choice.finishReason.value));
        if replaced.Some? {
          FailWith(DuplicateFinish, all, events);
          return true;
        }
        StaysLinked(next, events);
        seen := next;
      }
      return false;
    }

    /** `seen` counts all choices of the chunk even when a failure cuts the loop short. */
    method AcceptChoices(choices: seq<WireChoice>, events: EventQueue)
      requires Linked(events) && Reassembling(events)
      modifies this`seen, this`tools, this`presenceReported, this`terminalReason
      modifies events`pending, events`queued, events`terminal
      ensures Linked(events) && Reassembling(events)
      ensures seen == SeeChoices(old(seen), choices)
    {
      hide ReadingOf, MergeAll, Ordered, SeeChoice, PassedOn, FailedFor;
      ghost var before := seen;
      var i := 0;
      while i < |choices|
        invariant 0 <= i <= |choices|
        invariant seen == SeeChoices(before, choices[..i])
        invariant Linked(events) && Reassembling(events)
      {
        assert choices[..i + 1][..i] == choices[..i];
        SeeChoicesGrows(before, choices, i + 1);
        var failed := AcceptChoice(choices[i], SeeChoices(before, choices), events);
        if failed {
          return;
        }
        i := i + 1;
      }
      assert choices[..i] == choices;
    }

    /** A finish reason changes nothing that was passed on. */
    lemma StaysLinked(next: Seen, events: EventQueue)
      requires Linked(events) && Extends(seen, next)
      requires next == seen.(reasons := next.reasons)
      ensures events.terminal ==> FailedFor(events.queued, next)
      ensures !events.terminal ==> PassedOn(events.queued, next)
    {
      hide ReadingOf, MergeAll, Ordered;
      if events.terminal {
        FailedStays(events.queued, seen, next);
      }
    }

    method AcceptChunk(chunk: WireChunk, events: EventQueue)
      requires Linked(events) && Reassembling(events) && !events.terminal
      modifies this`seen, this`tools, this`presenceReported, this`terminalReason, this`usageReported
      modifies events`pending, events`queued, events`terminal
      ensures Linked(events) && Reassembling(events)
      ensures seen == SeeItem(old(seen), Chunk(chunk))
    {
      hide ReadingOf, MergeAll, Ordered, PassedOn, FailedFor, SeeChoices;
      ghost var after := SeeItem(seen, Chunk(chunk));
      var postFinish := terminalReason.Some?;
      if postFinish && exists c :: c in chunk.choices && CarriesMoreThanUsage(c) {
        if exists c :: c in chunk.choices && c.finishReason.Some? {
          ReasonsAreCounted(SeeUsage(seen, chunk.usage), chunk.choices);
          FailWith(DuplicateFinish, after, events);
        } else {
          FailWith(PostFinishContent, after, events);
        }
        return;
      }
      AcceptUsage(chunk.usage, events);
      if postFinish {
        UsageOnlyChunksSayNothing(seen, chunk.choices);
        return;
      }
      AcceptChoices(chunk.choices, events);
    }

    method TranslateItem(item: NativeItem, events: EventQueue)
      requires Linked(events) && Reassembling(events) && !events.terminal
      modifies this`seen, this`tools, this`presenceReported, this`terminalReason, this`usageReported
      modifies events`pending, events`queued, events`terminal
      ensures Linked(events) && Reassembling(events)
      ensures seen == SeeItem(old(seen), item)
    {
      hide ReadingOf, MergeAll, Ordered, PassedOn, FailedFor, SeeChoices;
      match item
      case Chunk(chunk) => AcceptChunk(chunk, events);
      case NativeError(retryable) =>
        NoErrorsYet(events);
        FailWith(NativeFailed(retryable), SeeItem(seen, item), events);
    }

    lemma NoErrorsYet(events: EventQueue)
      requires Linked(events) && !events.terminal
      ensures seen.errors == []
    {
      hide ReadingOf, MergeAll, Ordered;
    }

    /** All calls or none: the first incomplete one fails the response. */
    method CollectCalls(keys: seq<Key>) returns (calls: Option<seq<ToolCall>>)
      requires forall k :: k in keys ==> k in tools
      ensures calls.Some? <==> forall k :: k in keys ==> IsComplete(tools[k], isJsonObject)
      ensures calls.Some? ==> AreTheCalls(calls.value, keys, tools, freshId)
    {
      var list := [];
      for i := 0 to |keys|
        invariant forall k :: k in keys[..i] ==> IsComplete(tools[k], isJsonObject)
        invariant AreTheCalls(list, keys[..i], tools, freshId)
      {
        assert keys[i] in keys;
        var call := CompleteCall(tools[keys[i]], freshId(i), isJsonObject);
        if call.None? {
          return None;
        }
        list := list + [call.value];
      }
      assert keys[..|keys|] == keys;
      return Some(list);
    }

    method PushCalls(calls: seq<ToolCall>, events: EventQueue)
      requires events.Whole() && !events.terminal
      requires Ordered(events.queued, false, usageReported, presenceReported)
      requires PassedOn(events.queued, seen)
      modifies events`pending, events`queued
      ensures events.Whole() && Ordered(events.queued, false, usageReported, presenceReported)
      ensures events.queued == Opened(seen.facts + CallEvents(calls)) && ReadingOf(events.queued).calls == calls
    {
      hide ReadingOf, Ordered, Read, Opened, CallEvents;
      NoCallsYet(seen.facts);
      for i := 0 to |calls|
        invariant events.Whole() && Ordered(events.queued, false, usageReported, presenceReported)
        invariant events.queued == Opened(seen.facts + CallEvents(calls[..i]))
        invariant ReadingOf(events.queued).calls == calls[..i]
      {
        CallKeepsOrder(events.queued, calls[i], usageReported, presenceReported);
        OneCallMore(seen.facts, calls, i);
        events.Push(ToolCallReady(calls[i]));
      }
      assert calls[..|calls|] == calls;
    }

    method Finish(reason: FinishReason, events: EventQueue)
      requires Linked(events) && !events.terminal && MergeAll(seen.arrivals) == Some(tools)
      requires seen.reasons == [reason]
      modifies this`tools, events`pending, events`queued, events`terminal
      ensures events.Whole() && events.terminal
      ensures Ordered(events.queued, true, usageReported, presenceReported)
      ensures Settled(events.queued, seen, isJsonObject, freshId)
    {
      hide ReadingOf, Ordered, MergeAll, AreTheCalls, IsComplete, Settled, Opened, CallEvents;
      ghost var kept := tools;
      var calls := CollectCalls(InOrder(tools.Keys));
      tools := map[];
      if calls.None? {
        TerminalKeepsOrder(events.queued, Failed(InvalidToolCall), usageReported, presenceReported);
        FailureSettles(events.queued, InvalidToolCall, seen, isJsonObject, freshId);
        events.Fail(InvalidToolCall);
        return;
      }
      assert AllComplete(seen.arrivals, isJsonObject);
      PushCalls(calls.value, events);
      TerminalKeepsOrder(events.queued, Fact(Finished(reason)), usageReported, presenceReported);
      FinishSettles(events.queued, seen, calls.value, isJsonObject, freshId);
      events.Finish(reason);
    }

    /** A recorded finish reason is terminal only once the native stream ends. */
    method NativeEnded(events: EventQueue)
      requires Linked(events) && Reassembling(events) && !events.terminal
      modifies this`tools, this`terminalReason, events`pending, events`queued, events`terminal
      ensures events.Whole() && events.terminal
      ensures Ordered(events.queued, true, usageReported, presenceReported)
      ensures Settled(events.queued, seen, isJsonObject, freshId)
    {
      hide ReadingOf, Ordered, MergeAll, AllComplete, Settled, Opened;
      var recorded := terminalReason;
      terminalReason := None;
      if recorded.Some? {
        Finish(recorded.value, events);
      } else {
        TerminalKeepsOrder(events.queued, Failed(StreamIncomplete), usageReported, presenceReported);
        FailureSettles(events.queued, StreamIncomplete, seen, isJsonObject, freshId);
        events.Fail(StreamIncomplete);
      }
    }
  }

  lemma NoCallsYet(facts: seq<ModelEvent>)
    ensures facts + CallEvents([]) == facts
  {
  }

  lemma OneCallMore(facts: seq<ModelEvent>, calls: seq<ToolCall>, i: nat)
    requires i < |calls|
    ensures Opened(facts + CallEvents(calls[..i + 1])) ==
              Opened(facts + CallEvents(calls[..i])) + [Fact(ToolCallReady(calls[i]))]
    ensures calls[..i + 1] == calls[..i] + [calls[i]]
  {
    var before := facts + CallEvents(calls[..i]);
    OneFactMore(before, ToolCallReady(calls[i]));
    assert facts + CallEvents(calls[..i + 1]) == before + [ToolCallReady(calls[i])];
  }

  lemma CallKeepsOrder(items: seq<StreamItem>, call: ToolCall, usage: bool, presence: bool)
    requires Ordered(items, false, usage, presence)
    ensures var after := items + [Fact(ToolCallReady(call))];
            Ordered(after, false, usage, presence) && ReadingOf(after).calls == ReadingOf(items).calls + [call]
  {
    hide ReadingOf, Ordered;
    FactKeepsOrder(items, ToolCallReady(call), usage, presence);
  }

  lemma EarlyFailureSettles(items: seq<StreamItem>, native: seq<NativeItem>, k: nat,
                            isJsonObject: string -> bool, freshId: nat -> CallId)
    requires k <= |native| && FailedFor(items, SeenOf(native[..k]))
    ensures Settled(items, SeenOf(native), isJsonObject, freshId)
  {
    hide ReadingOf, MergeAll, AllComplete, SeenOf;
    SeenGrows(native, k);
    BeginningStays(items, SeenOf(native[..k]).facts, SeenOf(native).facts);
    FailuresStay(items[|items| - 1].failure, SeenOf(native[..k]), SeenOf(native));
  }

  // ------------------------------------------------------------------ stream

  class NormalizedStream {
    const native: seq<NativeItem>
    const translator: GenericTranslator
    const events: EventQueue
    var position: nat

    constructor (native: seq<NativeItem>, isJsonObject: string -> bool, freshId: nat -> CallId)
      ensures this.native == native && fresh(translator) && fresh(events)
      ensures translator.isJsonObject == isJsonObject && translator.freshId == freshId
      ensures Valid() && events.delivered == []
    {
      this.native := native;
      position := 0;
      translator := new GenericTranslator(isJsonObject, freshId);
      events := new EventQueue();
      new;
      StartedIsOrdered();
      assert native[..0] == [];
    }

    /** What was read so far determines what was queued so far. */
    ghost predicate Valid()
      reads this, translator, events
    {
      && events.Whole()
      && position <= |native|
      && (!events.terminal ==>
            && translator.Linked(events)
            && translator.Reassembling(events)
            && translator.seen == SeenOf(native[..position]))
      && (events.terminal ==>
            && Ordered(events.queued, true, translator.usageReported, translator.presenceReported)
            && Settled(events.queued, SeenOf(native), translator.isJsonObject, translator.freshId))
    }

    method Poll()
      requires Valid() && !events.terminal
      modifies this`position, translator, events`pending, events`queued, events`terminal
      ensures Valid()
      ensures (position == old(position) && events.terminal) || position == old(position) + 1
    {
      hide ReadingOf, MergeAll, Ordered, Settled, PassedOn, FailedFor, SeeItem;
      if position < |native| {
        assert native[..position + 1][..position] == native[..position];
        position := position + 1;
        translator.TranslateItem(native[position - 1], events);
        if events.terminal {
          EarlyFailureSettles(events.queued, native, position, translator.isJsonObject, translator.freshId);
        }
      } else {
        assert native[..position] == native;
        translator.NativeEnded(events);
      }
    }

    /** One poll of the consumer: the next item, or `None` behind the terminal one. */
    method Next() returns (item: Option<StreamItem>)
      requires Valid()
      modifies this`position, translator, events
      ensures Valid() && position >= old(position)
      ensures item.None? ==> events.terminal && events.pending == [] && events.delivered == old(events.delivered)
      ensures item.Some? ==> events.delivered == old(events.delivered) + [item.value]
      ensures item.Some? ==>
                || position > old(position)
                || (events.terminal && !old(events.terminal))
                || (events.terminal == old(events.terminal) && |events.pending| < |old(events.pending)|)
    {
      hide Ordered, Settled, MergeAll, SeenOf, PassedOn, FailedFor;
      while true
        invariant Valid() && position >= old(position) && events.delivered == old(events.delivered)
        invariant || position > old(position)
                  || (events.terminal && !old(events.terminal))
                  || (events.terminal == old(events.terminal) && events.pending == old(events.pending))
        decreases |native| - position, if events.terminal then 0 else 1
      {
        if events.pending != [] {
          var popped := events.Pop();
          return Some(popped);
        }
        if events.terminal {
          return None;
        }
        Poll();
      }
    }
  }

  lemma NoFailureOfACompleteResponse(failure: Failure, seen: Seen, isJsonObject: string -> bool)
    requires ExplainsAtEnd(failure, seen, isJsonObject)
    ensures !Completes(seen, isJsonObject)
  {
  }

  /** Interleaving does not reach the consumer: responses with the same fragments for every call
      that both complete emit the same calls. */
  lemma SameFragmentsSameCalls(a: seq<StreamItem>, b: seq<StreamItem>, x: Seen, y: Seen,
                               isJsonObject: string -> bool, freshId: nat -> CallId)
    requires Settled(a, x, isJsonObject, freshId) && Settled(b, y, isJsonObject, freshId)
    requires a[|a| - 1].Fact? && b[|b| - 1].Fact?
    requires SameFragments(x.arrivals, y.arrivals)
    ensures ReadingOf(a).calls == ReadingOf(b).calls
  {
    hide *;
    CallsOfAFinished(a, x, isJsonObject, freshId);
    CallsOfAFinished(b, y, isJsonObject, freshId);
    InterleavingIndependent(x.arrivals, y.arrivals);
    var tools := MergeAll(x.arrivals).value;
    TheCallsAreDetermined(ReadingOf(a).calls, ReadingOf(b).calls, InOrder(tools.Keys), tools, freshId);
  }

  lemma CallsOfAFinished(items: seq<StreamItem>, seen: Seen, isJsonObject: string -> bool, freshId: nat -> CallId)
    requires Settled(items, seen, isJsonObject, freshId) && items[|items| - 1].Fact?
    ensures MergeAll(seen.arrivals).Some?
    ensures var tools := MergeAll(seen.arrivals).value; AreTheCalls(ReadingOf(items).calls, InOrder(tools.Keys), tools, freshId)
  {
    hide ReadingOf, Opened, AreTheCalls, InOrder, MergeAll;
  }

  lemma TheCallsAreDetermined(a: seq<ToolCall>, b: seq<ToolCall>, keys: seq<Key>, tools: map<Key, Fragments>, freshId: nat -> CallId)
    requires AreTheCalls(a, keys, tools, freshId) && AreTheCalls(b, keys, tools, freshId)
    ensures a == b
  {
    forall i | 0 <= i < |keys| ensures a[i] == b[i] {
      assert IsTheCall(a[i], keys[i], tools, freshId(i)) && IsTheCall(b[i], keys[i], tools, freshId(i));
    }
  }
}
