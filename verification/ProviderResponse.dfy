/** What a consumer receives of a provider's response, in terms of the native chunks themselves. */
module ProviderResponse {
  import opened ModelTypes
  import opened ProviderStream
  import opened Text
  import opened ToolReassembly

  /** What the elements of a list give, one behind the other. */
  function Flat<S, T>(list: seq<S>, give: S -> seq<T>): seq<T> {
    if list == [] then [] else Flat(list[..|list| - 1], give) + give(list[|list| - 1])
  }

  lemma FlatPush<S, T>(list: seq<S>, last: S, give: S -> seq<T>)
    ensures Flat(list + [last], give) == Flat(list, give) + give(last)
  {
    assert (list + [last])[..|list|] == list;
  }

  lemma {:induction false} FlatConcat<S, T>(a: seq<S>, b: seq<S>, give: S -> seq<T>)
    ensures Flat(a + b, give) == Flat(a, give) + Flat(b, give)
  {
    if b == [] {
      assert a + b == a && Flat(a, give) + [] == Flat(a, give);
    } else {
      hide Flat;
      var rest, last := b[..|b| - 1], b[|b| - 1];
      FlatConcat(a, rest, give);
      FlatPush(rest, last, give);
      FlatPush(a + rest, last, give);
      LastComesLast(a, b);
      Associated(Flat(a, give), Flat(rest, give), give(last));
    }
  }

  lemma LastComesLast<T>(a: seq<T>, b: seq<T>)
    requires b != []
    ensures b == b[..|b| - 1] + [b[|b| - 1]] && a + b == (a + b[..|b| - 1]) + [b[|b| - 1]]
  {
  }

  lemma Associated<T>(a: seq<T>, b: seq<T>, c: seq<T>)
    ensures (a + b) + c == a + (b + c)
  {
  }

  // --------------------------------------------------------- the native response

  function ChoicesOf(item: NativeItem): seq<WireChoice> {
    if item.Chunk? then item.chunk.choices else []
  }

  function UsageOf(item: NativeItem): seq<WireUsage> {
    if item.Chunk? && item.chunk.usage.Some? then [item.chunk.usage.value] else []
  }

  function ContentOf(choice: WireChoice): string {
    OrEmpty(choice.delta.content)
  }

  function ReasoningOf(choice: WireChoice): string {
    OrEmpty(choice.delta.reasoning)
  }

  function ReasonOf(choice: WireChoice): seq<FinishReason> {
    if choice.finishReason.Some? then [FinishReasonOf(choice.finishReason.value)] else []
  }

  /** The call fragments of a choice, each under the choice's and its own index. */
  function FragmentsOf(choice: WireChoice): seq<Arrival> {
    if choice.delta.toolCalls.None? then []
    else
      var calls := choice.delta.toolCalls.value;
      seq(|calls|, i requires 0 <= i < |calls| => Arrival((choice.index, calls[i].index), calls[i]))
  }

  /** The text a choice speaks: its thinking before the answer it informs, nothing for empty text. */
  function SpokenBy(choice: WireChoice): seq<ModelEvent> {
    (if ReasoningOf(choice) != "" then [ReasoningDelta(ReasoningOf(choice))] else []) +
    (if ContentOf(choice) != "" then [TextDelta(ContentOf(choice))] else [])
  }

  /** All choices of all chunks, in arrival order. */
  function AllChoices(native: seq<NativeItem>): seq<WireChoice> {
    Flat(native, ChoicesOf)
  }

  /** Every finish reason of every choice. */
  function Reasons(native: seq<NativeItem>): seq<FinishReason> {
    Flat(AllChoices(native), ReasonOf)
  }

  /** The choices up to and including the chunk that carried the first finish reason. */
  function HeardChoices(native: seq<NativeItem>): seq<WireChoice> {
    if native == [] then []
    else
      var before := native[..|native| - 1];
      HeardChoices(before) + (if Reasons(before) == [] then ChoicesOf(native[|native| - 1]) else [])
  }

  /** A chunk behind the finish reason that carries more than usage. */
  predicate OverrunsAt(native: seq<NativeItem>, k: nat)
    requires k < |native|
  {
    Reasons(native[..k]) != [] && exists c :: c in ChoicesOf(native[k]) && CarriesMoreThanUsage(c)
  }

  /** A response the provider completed: no error, one finish reason and nothing but usage behind it,
      a first usage summary that adds up, and only whole, unconflicted calls. */
  predicate IsCompleteResponse(native: seq<NativeItem>, isJsonObject: string -> bool) {
    && (forall item :: item in native ==> item.Chunk?)
    && |Reasons(native)| == 1
    && (forall k: nat :: k < |native| ==> !OverrunsAt(native, k))
    && (Flat(native, UsageOf) != [] ==> IsConsistent(Flat(native, UsageOf)[0]))
    && AllComplete(Flat(AllChoices(native), FragmentsOf), isJsonObject)
  }

  // ------------------------------------------------------------ what was delivered

  function AnswerOf(item: StreamItem): string {
    if item.Fact? && item.event.TextDelta? then item.event.content else ""
  }

  function ThinkingOf(item: StreamItem): string {
    if item.Fact? && item.event.ReasoningDelta? then item.event.content else ""
  }

  function SpeechOf(item: StreamItem): seq<ModelEvent> {
    if AnswerOf(item) != "" || ThinkingOf(item) != "" then [item.event] else []
  }

  function ReportIn(item: StreamItem): seq<Usage> {
    if item.Fact? && item.event.UsageReport? then [item.event.usage] else []
  }

  const PRESENCE := Fact(ReasoningDelta(""))

  /** What a response says: its text in the order and the pieces it comes in, the answer and the
      thinking it spells, its usage reports, and whether it opened the reasoning channel without text. */
  datatype Telling = Telling(
    speech: seq<ModelEvent>,
    answer: string,
    thinking: string,
    reports: seq<Usage>,
    presence: bool)

  function TellingOf(items: seq<StreamItem>): Telling {
    Telling(Flat(items, SpeechOf), Flat(items, AnswerOf), Flat(items, ThinkingOf), Flat(items, ReportIn),
            PRESENCE in items)
  }

  predicate OpensTheChannel(choices: seq<WireChoice>) {
    exists c :: c in choices && c.delta.reasoning == Some("")
  }

  function ChoicesTelling(choices: seq<WireChoice>, reports: seq<Usage>): Telling {
    Telling(Flat(choices, SpokenBy), Flat(choices, ContentOf), Flat(choices, ReasoningOf), reports,
            OpensTheChannel(choices))
  }

  /** The first usage summary, when there was one. */
  function FirstReport(native: seq<NativeItem>): seq<Usage> {
    var usages := Flat(native, UsageOf);
    if usages == [] then [] else [ReportOf(usages[0])]
  }

  /** What the native chunks say: all up to and including the chunk with the finish reason. */
  function NativeTelling(native: seq<NativeItem>): Telling {
    ChoicesTelling(HeardChoices(native), FirstReport(native))
  }

  predicate IsBeginning(part: Telling, whole: Telling) {
    && part.speech <= whole.speech && part.reports <= whole.reports
    && part.answer <= whole.answer && part.thinking <= whole.thinking
    && (part.presence ==> whole.presence)
  }

  /** A finished response delivers all the provider said up to and including the chunk with its finish
      reason: the same speech in the same order, the same answer and thinking to the character, the
      first usage, and the one finish reason; and of what the provider said at all nothing is missing.
      Of a failed response a beginning is delivered. */
  predicate Says(items: seq<StreamItem>, native: seq<NativeItem>)
    requires items != []
  {
    if items[|items| - 1].Failed? then IsBeginning(TellingOf(items), NativeTelling(native))
    else
      && TellingOf(items) == NativeTelling(native)
      && Flat(items, AnswerOf) == Flat(AllChoices(native), ContentOf)
      && Flat(items, ThinkingOf) == Flat(AllChoices(native), ReasoningOf)
      && Reasons(native) != []
      && items[|items| - 1] == Fact(Finished(Reasons(native)[0]))
  }

  // ------------------------------------------------------- what one choice adds

  function Telled(before: Telling, item: StreamItem): Telling {
    Telling(before.speech + SpeechOf(item), before.answer + AnswerOf(item), before.thinking + ThinkingOf(item),
            before.reports + ReportIn(item), before.presence || item == PRESENCE)
  }

  lemma TellingPush(items: seq<StreamItem>, item: StreamItem)
    ensures TellingOf(items + [item]) == Telled(TellingOf(items), item)
  {
    FlatPush(items, item, SpeechOf);
    FlatPush(items, item, AnswerOf);
    FlatPush(items, item, ThinkingOf);
    FlatPush(items, item, ReportIn);
    hide Flat;
  }

  /** What the facts gathered so far tell. */
  function Told(seen: Seen): Telling {
    TellingOf(Opened(seen.facts))
  }

  lemma FactIsTold(seen: Seen, fact: ModelEvent)
    ensures TellingOf(Opened(seen.facts + [fact])) == Telled(Told(seen), Fact(fact))
  {
    hide TellingOf, Opened, Telled;
    OneFactMore(seen.facts, fact);
    TellingPush(Opened(seen.facts), Fact(fact));
  }

  lemma SilenceTellsNothing(t: Telling)
    ensures t.speech + [] == t.speech && t.answer + "" == t.answer && t.thinking + "" == t.thinking
    ensures t.reports + [] == t.reports
  {
  }

  /** What one choice adds to what was told. */
  function WithChoice(t: Telling, choice: WireChoice): Telling {
    Telling(t.speech + SpokenBy(choice), t.answer + ContentOf(choice), t.thinking + ReasoningOf(choice), t.reports,
            t.presence || choice.delta.reasoning == Some(""))
  }

  lemma ChoiceIsTold(seen: Seen, choice: WireChoice)
    requires Told(seen).presence == seen.presence
    ensures Told(SeeChoice(seen, choice)) == WithChoice(Told(seen), choice)
    ensures Told(SeeChoice(seen, choice)).presence == SeeChoice(seen, choice).presence
  {
    hide TellingOf, Opened;
    var thought := SeeReasoning(seen, choice.delta.reasoning);
    ReasoningIsTold(seen, choice.delta.reasoning);
    ContentIsTold(thought, choice.delta.content);
    if choice.delta.toolCalls.Some? {
      CallsAreNotTold(SeeContent(thought, choice.delta.content), choice.index, choice.delta.toolCalls.value);
    }
  }

  lemma CallsAreNotTold(seen: Seen, choice: nat, calls: seq<ToolChunk>)
    ensures SeeCalls(seen, choice, calls).facts == seen.facts
  {
  }

  lemma ReasoningIsTold(seen: Seen, reasoning: Option<string>)
    requires Told(seen).presence == seen.presence
    ensures var told, after := Told(seen), Told(SeeReasoning(seen, reasoning));
            && after == told.(
                 speech := told.speech + (if OrEmpty(reasoning) != "" then [ReasoningDelta(reasoning.value)] else []),
                 thinking := told.thinking + OrEmpty(reasoning),
                 presence := told.presence || reasoning == Some(""))
            && after.presence == SeeReasoning(seen, reasoning).presence
  {
    hide TellingOf, Opened;
    SilenceTellsNothing(Told(seen));
    if reasoning.Some? {
      FactIsTold(seen, ReasoningDelta(reasoning.value));
    }
  }

  lemma ContentIsTold(seen: Seen, content: Option<string>)
    ensures var told := Told(seen);
            Told(SeeContent(seen, content)) == told.(
              speech := told.speech + (if OrEmpty(content) != "" then [TextDelta(content.value)] else []),
              answer := told.answer + OrEmpty(content))
  {
    hide TellingOf, Opened;
    SilenceTellsNothing(Told(seen));
    if content.Some? {
      FactIsTold(seen, TextDelta(content.value));
    }
  }

  lemma UsageIsTold(seen: Seen, usage: Option<WireUsage>)
    ensures var told := Told(seen);
            Told(SeeUsage(seen, usage)) == told.(
              reports := told.reports + (if usage.Some? && seen.usages == [] then [ReportOf(usage.value)] else []))
  {
    hide TellingOf, Opened;
    SilenceTellsNothing(Told(seen));
    if usage.Some? {
      FactIsTold(seen, UsageReport(ReportOf(usage.value)));
    }
  }

  function Joint(a: Telling, b: Telling): Telling {
    Telling(a.speech + b.speech, a.answer + b.answer, a.thinking + b.thinking,
            a.reports + b.reports, a.presence || b.presence)
  }

  /** What the choices of a chunk add. */
  lemma {:induction false} ChoicesAreTold(seen: Seen, choices: seq<WireChoice>)
    requires Told(seen).presence == seen.presence
    ensures Told(SeeChoices(seen, choices)) == Joint(Told(seen), ChoicesTelling(choices, []))
    ensures Told(SeeChoices(seen, choices)).presence == SeeChoices(seen, choices).presence
  {
    hide Told, SpokenBy, ContentOf, ReasoningOf, SeeChoice, Flat;
    SilenceTellsNothing(Told(seen));
    if choices == [] {
      NothingIsGiven();
    } else {
      var before, last := choices[..|choices| - 1], choices[|choices| - 1];
      ChoicesAreTold(seen, before);
      ChoiceIsTold(SeeChoices(seen, before), last);
      ChoicePush(before, last);
      assert choices == before + [last];
      WithAssociates(Told(seen), ChoicesTelling(before, []), last);
    }
  }

  lemma NothingIsGiven()
    ensures ChoicesTelling([], []) == Telling([], "", "", [], false)
  {
  }

  lemma ChoicePush(choices: seq<WireChoice>, last: WireChoice)
    ensures ChoicesTelling(choices + [last], []) == WithChoice(ChoicesTelling(choices, []), last)
  {
    FlatPush(choices, last, SpokenBy);
    FlatPush(choices, last, ContentOf);
    FlatPush(choices, last, ReasoningOf);
    hide Flat;
  }

  lemma WithAssociates(a: Telling, b: Telling, choice: WireChoice)
    ensures WithChoice(Joint(a, b), choice) == Joint(a, WithChoice(b, choice))
  {
    hide SpokenBy, ContentOf, ReasoningOf;
    Associated(a.speech, b.speech, SpokenBy(choice));
    Associated(a.answer, b.answer, ContentOf(choice));
    Associated(a.thinking, b.thinking, ReasoningOf(choice));
  }

  // ------------------------------------------- what was gathered, directly

  /** Everything the provider sent, gathered item by item, is what its native items say. */
  predicate IsGathered(seen: Seen, native: seq<NativeItem>) {
    && seen.reasons == Reasons(native)
    && seen.arrivals == Flat(AllChoices(native), FragmentsOf)
    && seen.usages == Flat(native, UsageOf)
    && (seen.errors == [] <==> forall item :: item in native ==> item.Chunk?)
    && (seen.overrun <==> exists k: nat :: k < |native| && OverrunsAt(native, k))
  }

  lemma {:induction false} CallsAreGathered(seen: Seen, choice: WireChoice, n: nat)
    requires choice.delta.toolCalls.Some? && n <= |choice.delta.toolCalls.value|
    ensures SeeCalls(seen, choice.index, choice.delta.toolCalls.value[..n]).arrivals
              == seen.arrivals + FragmentsOf(choice)[..n]
  {
    var calls := choice.delta.toolCalls.value;
    if n == 0 {
      assert seen.arrivals + [] == seen.arrivals;
    } else {
      CallsAreGathered(seen, choice, n - 1);
      assert calls[..n][..n - 1] == calls[..n - 1];
      assert FragmentsOf(choice)[..n] == FragmentsOf(choice)[..n - 1]
        + [Arrival((choice.index, calls[n - 1].index), calls[n - 1])];
    }
  }

  /** What a choice adds to everything but the facts. */
  predicate Adds(seen: Seen, after: Seen, reasons: seq<FinishReason>, arrivals: seq<Arrival>) {
    && after.reasons == seen.reasons + reasons
    && after.arrivals == seen.arrivals + arrivals
    && after.usages == seen.usages && after.errors == seen.errors && after.overrun == seen.overrun
  }

  lemma DeltaIsGathered(seen: Seen, choice: WireChoice)
    ensures Adds(seen, SeeDelta(seen, choice.index, choice.delta), [], FragmentsOf(choice))
  {
    var spoken := SeeContent(SeeReasoning(seen, choice.delta.reasoning), choice.delta.content);
    assert seen.reasons + [] == seen.reasons;
    if choice.delta.toolCalls.Some? {
      var calls := choice.delta.toolCalls.value;
      CallsAreGathered(spoken, choice, |calls|);
      assert calls[..|calls|] == calls && FragmentsOf(choice)[..|calls|] == FragmentsOf(choice);
    } else {
      assert seen.arrivals + [] == seen.arrivals;
    }
  }

  lemma {:induction false} ChoicesAreGathered(seen: Seen, choices: seq<WireChoice>)
    ensures Adds(seen, SeeChoices(seen, choices), Flat(choices, ReasonOf), Flat(choices, FragmentsOf))
  {
    hide SeeDelta, FragmentsOf, Flat;
    if choices == [] {
      NoReasonsYet();
      assert seen.arrivals + [] == seen.arrivals && seen.reasons + [] == seen.reasons;
    } else {
      var before, last := choices[..|choices| - 1], choices[|choices| - 1];
      ChoicesAreGathered(seen, before);
      DeltaIsGathered(SeeChoices(seen, before), last);
      assert choices == before + [last];
      FlatPush(before, last, ReasonOf);
      FlatPush(before, last, FragmentsOf);
      Associated(seen.reasons, Flat(before, ReasonOf), ReasonOf(last));
      Associated(seen.arrivals, Flat(before, FragmentsOf), FragmentsOf(last));
    }
  }

  lemma NoReasonsYet()
    ensures Flat([], ReasonOf) == [] && Flat([], FragmentsOf) == []
  {
  }

  /** Errors and overruns, one item further. */
  lemma OneItemMore(before: seq<NativeItem>, last: NativeItem)
    ensures var native := before + [last];
            && ((forall item :: item in native ==> item.Chunk?) <==>
                (forall item :: item in before ==> item.Chunk?) && last.Chunk?)
            && ((exists k: nat :: k < |native| && OverrunsAt(native, k)) <==>
                (exists k: nat :: k < |before| && OverrunsAt(before, k)) || OverrunsAt(native, |before|))
  {
    hide Reasons, CarriesMoreThanUsage;
    var native := before + [last];
    forall k: nat | k < |before| ensures OverrunsAt(native, k) == OverrunsAt(before, k) {
      assert native[..k] == before[..k];
    }
  }

  /** What one item adds to the readings of the native response. */
  lemma NativePush(before: seq<NativeItem>, last: NativeItem)
    ensures Reasons(before + [last]) == Reasons(before) + Flat(ChoicesOf(last), ReasonOf)
    ensures Flat(AllChoices(before + [last]), FragmentsOf) ==
              Flat(AllChoices(before), FragmentsOf) + Flat(ChoicesOf(last), FragmentsOf)
    ensures Flat(before + [last], UsageOf) == Flat(before, UsageOf) + UsageOf(last)
  {
    hide Flat;
    FlatPush(before, last, ChoicesOf);
    FlatPush(before, last, UsageOf);
    FlatConcat(AllChoices(before), ChoicesOf(last), ReasonOf);
    FlatConcat(AllChoices(before), ChoicesOf(last), FragmentsOf);
  }

  lemma {:induction false} SeenDirectly(native: seq<NativeItem>)
    ensures IsGathered(SeenOf(native), native)
  {
    hide SeeItem, OverrunsAt;
    if native == [] {
    } else {
      var before, last := native[..|native| - 1], native[|native| - 1];
      SeenDirectly(before);
      assert native == before + [last];
      hide SeenOf;
      ItemIsGathered(SeenOf(before), before, last);
    }
  }

  lemma ItemIsGathered(seen: Seen, before: seq<NativeItem>, last: NativeItem)
    requires IsGathered(seen, before)
    ensures IsGathered(SeeItem(seen, last), before + [last])
  {
    hide SeeChoices, CarriesMoreThanUsage, Flat, Reasons, AllChoices;
    OneItemMore(before, last);
    NativePush(before, last);
    assert (before + [last])[..|before|] == before;
    match last
    case NativeError(_) =>
      NoReasonsYet();
    case Chunk(chunk) =>
      ChoicesAreGathered(SeeUsage(seen, chunk.usage), chunk.choices);
  }

  lemma CompletesDirectly(native: seq<NativeItem>, isJsonObject: string -> bool)
    ensures Completes(SeenOf(native), isJsonObject) <==> IsCompleteResponse(native, isJsonObject)
  {
    hide SeenOf, AllComplete, Reasons, OverrunsAt, Flat, AllChoices;
    SeenDirectly(native);
  }

  // ------------------------------------------------------------ what the facts tell

  lemma {:induction false} FactsAreTold(native: seq<NativeItem>)
    ensures Told(SeenOf(native)) == NativeTelling(native)
    ensures Told(SeenOf(native)).presence == SeenOf(native).presence
  {
    hide SeeItem, Told, NativeTelling, Opened;
    if native == [] {
      NothingIsTold();
    } else {
      var before, last := native[..|native| - 1], native[|native| - 1];
      FactsAreTold(before);
      SeenDirectly(before);
      assert native == before + [last];
      hide SeenOf;
      ItemIsTold(SeenOf(before), before, last);
    }
  }

  lemma NothingIsTold()
    ensures Told(SeenOf([])) == NativeTelling([]) && !Told(SeenOf([])).presence
  {
    TellingPush([], Fact(Started));
    assert Opened([]) == [] + [Fact(Started)];
  }

  lemma ItemIsTold(seen: Seen, before: seq<NativeItem>, last: NativeItem)
    requires Told(seen) == NativeTelling(before) && Told(seen).presence == seen.presence
    requires IsGathered(seen, before)
    ensures Told(SeeItem(seen, last)) == NativeTelling(before + [last])
    ensures Told(SeeItem(seen, last)).presence == SeeItem(seen, last).presence
  {
    hide SeeChoices, TellingOf, Opened, Flat, Reasons, ChoicesTelling, FirstReport, AllChoices, OverrunsAt;
    HeardPush(before, last);
    OtherReports(HeardChoices(before), FirstReport(before), FirstReport(before + [last]));
    SilenceTellsNothing(Told(seen));
    if last.Chunk? {
      UsageIsTold(seen, last.chunk.usage);
      if Reasons(before) == [] {
        ChoicesAreTold(SeeUsage(seen, last.chunk.usage), last.chunk.choices);
        ChoicesConcat(HeardChoices(before), last.chunk.choices, FirstReport(before + [last]));
      }
    }
  }

  lemma OtherReports(choices: seq<WireChoice>, a: seq<Usage>, b: seq<Usage>)
    ensures ChoicesTelling(choices, b) == ChoicesTelling(choices, a).(reports := b)
              && ChoicesTelling(choices, a).reports == a
  {
  }

  lemma HeardPush(before: seq<NativeItem>, last: NativeItem)
    ensures HeardChoices(before + [last]) == HeardChoices(before)
              + (if Reasons(before) == [] then ChoicesOf(last) else [])
    ensures HeardChoices(before) + [] == HeardChoices(before) && FirstReport(before) + [] == FirstReport(before)
    ensures FirstReport(before + [last]) == FirstReport(before) +
              (if Flat(before, UsageOf) == [] && last.Chunk? && last.chunk.usage.Some?
               then [ReportOf(last.chunk.usage.value)] else [])
  {
    assert (before + [last])[..|before|] == before;
    FlatPush(before, last, UsageOf);
    hide Flat, Reasons;
  }

  lemma ChoicesConcat(a: seq<WireChoice>, b: seq<WireChoice>, reports: seq<Usage>)
    ensures ChoicesTelling(a + b, reports) == Joint(ChoicesTelling(a, reports), ChoicesTelling(b, []))
  {
    FlatConcat(a, b, SpokenBy);
    FlatConcat(a, b, ContentOf);
    FlatConcat(a, b, ReasoningOf);
    hide Flat;
    assert reports + [] == reports;
  }

  // ----------------------------------------------------------- what a consumer gets

  /** A beginning of the items tells a beginning. */
  lemma {:induction false} BeginningsTellLess(items: seq<StreamItem>, n: nat)
    requires n <= |items|
    ensures IsBeginning(TellingOf(items[..n]), TellingOf(items))
  {
    hide TellingOf, SpeechOf, AnswerOf, ThinkingOf, ReportIn;
    if n == |items| {
      assert items[..n] == items;
    } else {
      var before := items[..|items| - 1];
      BeginningsTellLess(before, n);
      assert before[..n] == items[..n] && before + [items[|items| - 1]] == items;
      TellingPush(before, items[|items| - 1]);
    }
  }

  /** The calls tell nothing further. */
  lemma {:induction false} CallsTellNothing(facts: seq<ModelEvent>, calls: seq<ToolCall>)
    ensures TellingOf(Opened(facts + CallEvents(calls))) == TellingOf(Opened(facts))
  {
    hide TellingOf, Opened;
    if calls == [] {
      NoCallsYet(facts);
    } else {
      var n := |calls| - 1;
      CallsTellNothing(facts, calls[..n]);
      OneCallMore(facts, calls, n);
      assert calls[..n + 1] == calls;
      TellingPush(Opened(facts + CallEvents(calls[..n])), Fact(ToolCallReady(calls[n])));
      SilenceTellsNothing(TellingOf(Opened(facts)));
    }
  }

  /** In a response without overruns everything was said up to the finish. */
  lemma {:induction false} NothingBehindTheFinish(native: seq<NativeItem>)
    requires forall k: nat :: k < |native| ==> !OverrunsAt(native, k)
    ensures Flat(HeardChoices(native), ContentOf) == Flat(AllChoices(native), ContentOf)
    ensures Flat(HeardChoices(native), ReasoningOf) == Flat(AllChoices(native), ReasoningOf)
  {
    if native == [] {
    } else {
      var before, last := native[..|native| - 1], native[|native| - 1];
      forall k: nat | k < |before| ensures !OverrunsAt(before, k) {
        assert before[..k] == native[..k];
        assert !OverrunsAt(native, k);
      }
      NothingBehindTheFinish(before);
      assert native == before + [last] && !OverrunsAt(native, |before|);
      HeardPush(before, last);
      FlatPush(before, last, ChoicesOf);
      hide Flat, Reasons, OrEmpty;
      var heard, all, more := HeardChoices(before), AllChoices(before), ChoicesOf(last);
      FlatConcat(heard, more, ContentOf);
      FlatConcat(heard, more, ReasoningOf);
      FlatConcat(all, more, ContentOf);
      FlatConcat(all, more, ReasoningOf);
      if Reasons(before) != [] {
        UsageSaysNothing(more);
        assert Flat(all, ContentOf) + "" == Flat(all, ContentOf);
        assert Flat(all, ReasoningOf) + "" == Flat(all, ReasoningOf);
      }
    }
  }

  lemma {:induction false} UsageSaysNothing(choices: seq<WireChoice>)
    requires forall c :: c in choices ==> !CarriesMoreThanUsage(c)
    ensures Flat(choices, ContentOf) == "" && Flat(choices, ReasoningOf) == ""
  {
    if choices == [] {
    } else {
      UsageSaysNothing(choices[..|choices| - 1]);
      assert choices[|choices| - 1] in choices;
    }
  }

  lemma OverrunsAreSeen(native: seq<NativeItem>, isJsonObject: string -> bool)
    requires Completes(SeenOf(native), isJsonObject)
    ensures forall k: nat :: k < |native| ==> !OverrunsAt(native, k)
  {
    CompletesDirectly(native, isJsonObject);
    hide OverrunsAt, Completes;
  }

  /** A call as a tool may get it. */
  predicate IsWellFormed(item: StreamItem, isJsonObject: string -> bool) {
    item.Fact? && item.event.ToolCallReady? ==>
      !IsBlank(item.event.call.name) && isJsonObject(item.event.call.argumentsJson)
  }

  lemma {:induction false} CallsAreRead(items: seq<StreamItem>, i: nat)
    requires i < |items| && items[i].Fact? && items[i].event.ToolCallReady?
    ensures items[i].event.call in ReadingOf(items).calls
  {
    if i == |items| - 1 {
    } else {
      CallsAreRead(items[..|items| - 1], i);
    }
  }

  /** Every call that goes out is named and has an object document as arguments. */
  lemma CallsAreWellFormed(items: seq<StreamItem>, seen: Seen, isJsonObject: string -> bool, freshId: nat -> CallId)
    requires Settled(items, seen, isJsonObject, freshId)
    ensures forall i :: 0 <= i < |items| ==> IsWellFormed(items[i], isJsonObject)
  {
    hide ReadingOf, MergeAll, InOrder, Opened, IsBlank;
    forall i: nat | i < |items| && items[i].Fact? && items[i].event.ToolCallReady?
      ensures IsWellFormed(items[i], isJsonObject)
    {
      CallsAreRead(items, i);
      var calls := ReadingOf(items).calls;
      var j :| 0 <= j < |calls| && calls[j] == items[i].event.call;
      var tools := MergeAll(seen.arrivals).value;
      assert IsTheCall(calls[j], InOrder(tools.Keys)[j], tools, freshId(j));
    }
  }

  lemma FailureIsTold(items: seq<StreamItem>, facts: seq<ModelEvent>)
    requires BeginsLike(items, facts) && items[|items| - 1].Failed?
    ensures IsBeginning(TellingOf(items), TellingOf(Opened(facts)))
  {
    hide TellingOf, Opened;
    var n := |items| - 1;
    assert items[..n] + [items[n]] == items;
    TellingPush(items[..n], items[n]);
    SilenceTellsNothing(TellingOf(items[..n]));
    assert Opened(facts)[..n] == items[..n];
    BeginningsTellLess(Opened(facts), n);
  }

  lemma FinishIsTold(items: seq<StreamItem>, facts: seq<ModelEvent>, calls: seq<ToolCall>, reason: FinishReason)
    requires items == Opened(facts + CallEvents(calls) + [Finished(reason)])
    ensures TellingOf(items) == TellingOf(Opened(facts)) && items[|items| - 1] == Fact(Finished(reason))
  {
    OneFactMore(facts + CallEvents(calls), Finished(reason));
    hide TellingOf, Opened, CallEvents;
    CallsTellNothing(facts, calls);
    TellingPush(Opened(facts + CallEvents(calls)), Fact(Finished(reason)));
    SilenceTellsNothing(TellingOf(Opened(facts)));
  }

  lemma ResponseIsTold(items: seq<StreamItem>, native: seq<NativeItem>, isJsonObject: string -> bool,
                       freshId: nat -> CallId)
    requires Settled(items, SeenOf(native), isJsonObject, freshId)
    ensures Says(items, native)
  {
    hide TellingOf, SeenOf, Reasons, ReadingOf, MergeAll, AllComplete, InOrder, AreTheCalls, Opened, CallEvents;
    hide AllChoices, Flat, OverrunsAt, NativeTelling, ExplainsAtEnd, BeginsLike, Completes, HeardChoices;
    FactsAreTold(native);
    var seen := SeenOf(native);
    if items[|items| - 1].Failed? {
      FailureIsTold(items, seen.facts);
    } else {
      SeenDirectly(native);
      OverrunsAreSeen(native, isJsonObject);
      NothingBehindTheFinish(native);
      ReasonIsThere(seen, isJsonObject);
      FinishIsTold(items, seen.facts, ReadingOf(items).calls, seen.reasons[0]);
      AllIsTold(items, native);
    }
  }

  lemma ReasonIsThere(seen: Seen, isJsonObject: string -> bool)
    requires Completes(seen, isJsonObject)
    ensures seen.reasons != []
  {
  }

  /** What is told of a response whose speech ends with its finish is all of it. */
  lemma AllIsTold(items: seq<StreamItem>, native: seq<NativeItem>)
    requires TellingOf(items) == NativeTelling(native)
    requires Flat(HeardChoices(native), ContentOf) == Flat(AllChoices(native), ContentOf)
    requires Flat(HeardChoices(native), ReasoningOf) == Flat(AllChoices(native), ReasoningOf)
    ensures Flat(items, AnswerOf) == Flat(AllChoices(native), ContentOf)
    ensures Flat(items, ThinkingOf) == Flat(AllChoices(native), ReasoningOf)
  {
  }

  /** The whole stream, as a consumer that polls to the end receives it: in order, with exactly
      one terminal item that is the last, and finished exactly when the provider completed the
      response - then with all its text, reasoning, first usage and calls, otherwise with a beginning
      of them, without any call, and with a failure that names something really wrong. */
  method Normalize(native: seq<NativeItem>, isJsonObject: string -> bool, freshId: nat -> CallId)
    returns (items: seq<StreamItem>)
    ensures Ordered(items, true, true, true)
    ensures Settled(items, SeenOf(native), isJsonObject, freshId)
    ensures items[|items| - 1].Fact? <==> IsCompleteResponse(native, isJsonObject)
    ensures Says(items, native)
    ensures forall i :: 0 <= i < |items| ==> IsWellFormed(items[i], isJsonObject)
  {
    hide Ordered, MergeAll, SeenOf, PassedOn, FailedFor, Completes, ExplainsAtEnd;
    hide IsCompleteResponse, Says, IsWellFormed;
    var stream := new NormalizedStream(native, isJsonObject, freshId);
    items := [];
    while true
      invariant stream.Valid() && items == stream.events.delivered
      invariant stream.native == native && fresh(stream) && fresh(stream.events) && fresh(stream.translator)
      invariant stream.translator.isJsonObject == isJsonObject && stream.translator.freshId == freshId
      decreases |native| - stream.position, if stream.events.terminal then 0 else 1, |stream.events.pending|
    {
      var item := stream.Next();
      if item.None? {
        assert items + [] == items;
        FlagsMayBeRaised(items, true, stream.translator.usageReported, stream.translator.presenceReported);
        FlagsMayBeRaised(items, true, true, stream.translator.presenceReported);
        ResponseIsTold(items, native, isJsonObject, freshId);
        CallsAreWellFormed(items, SeenOf(native), isJsonObject, freshId);
        CompletesDirectly(native, isJsonObject);
        if items[|items| - 1].Failed? {
          NoFailureOfACompleteResponse(items[|items| - 1].failure, SeenOf(native), isJsonObject);
        }
        return;
      }
      items := items + [item.value];
    }
  }
}
