/** The sliding context window: size estimate, in-place compression, cache breakpoints. */
module ContextWindow {
  import opened ModelTypes
  import opened Text

  const CHARACTERS_PER_TOKEN: nat := 4
  const MIN_TOOL_RESULT_CHARACTERS: nat := 16
  const COMPRESSED_TOOL_RESULT_MARKER: string := " [compressed]"
  const COMPRESSED_TOOL_RESULT_PLACEHOLDER: string := "[tool result compressed]"
  const U64_MAX: nat := 0xFFFF_FFFF_FFFF_FFFF

  // ---------------------------------------------------------------- measuring

  function CallCharacters(calls: seq<ToolCall>): nat {
    if calls == [] then 0 else |calls[0].argumentsJson| + CallCharacters(calls[1..])
  }

  function MessageSize(message: ModelMessage): nat {
    |message.content| + CallCharacters(message.toolCalls)
  }

  function MessageCharacters(messages: seq<ModelMessage>): nat {
    if messages == [] then 0 else MessageSize(messages[0]) + MessageCharacters(messages[1..])
  }

  function ReasoningCharacters(reasoning: seq<AssistantReasoning>): nat {
    if reasoning == [] then 0 else |reasoning[0].text| + ReasoningCharacters(reasoning[1..])
  }

  function RequestCharacters(messages: seq<ModelMessage>, reasoning: seq<AssistantReasoning>): nat {
    MessageCharacters(messages) + ReasoningCharacters(reasoning)
  }

  /** All the text a message sends: its content and the arguments of its calls. */
  function TextSent(message: ModelMessage): string {
    message.content + ArgumentsSent(message.toolCalls)
  }

  function ArgumentsSent(calls: seq<ToolCall>): string {
    if calls == [] then "" else calls[0].argumentsJson + ArgumentsSent(calls[1..])
  }

  function AllTextSent(messages: seq<ModelMessage>, reasoning: seq<AssistantReasoning>): string {
    if messages != [] then TextSent(messages[0]) + AllTextSent(messages[1..], reasoning)
    else if reasoning != [] then reasoning[0].text + AllTextSent([], reasoning[1..])
    else ""
  }

  /** The measure of a request is the length of all the text it sends. */
  lemma {:induction false} TheMeasureIsTheTextSent(messages: seq<ModelMessage>, reasoning: seq<AssistantReasoning>)
    ensures RequestCharacters(messages, reasoning) == |AllTextSent(messages, reasoning)|
    decreases |messages| + |reasoning|
  {
    if messages != [] {
      ArgumentsAreMeasured(messages[0].toolCalls);
      TheMeasureIsTheTextSent(messages[1..], reasoning);
    } else if reasoning != [] {
      TheMeasureIsTheTextSent([], reasoning[1..]);
    }
  }

  lemma {:induction false} ArgumentsAreMeasured(calls: seq<ToolCall>)
    ensures CallCharacters(calls) == |ArgumentsSent(calls)|
  {
    if calls == [] {
    } else {
      ArgumentsAreMeasured(calls[1..]);
    }
  }

  /** Round up at four characters a token, bounded by the 64-bit counter. */
  function EstimatedTokens(characters: nat): nat {
    var tokens := (characters + CHARACTERS_PER_TOKEN - 1) / CHARACTERS_PER_TOKEN;
    if tokens <= U64_MAX then tokens else U64_MAX
  }

  /** The accounting one attempt starts with and calibrates from provider reports. */
  datatype Accounting = Accounting(windowTokens: nat, calibratedTokens: Option<nat>, calibratedCharacters: nat) {

    function Estimate(messages: seq<ModelMessage>, reasoning: seq<AssistantReasoning>): nat {
      var characters := RequestCharacters(messages, reasoning);
      match calibratedTokens
      case None => EstimatedTokens(characters)
      case Some(calibrated) =>
        var increment := if characters <= calibratedCharacters then 0 else characters - calibratedCharacters;
        var total := calibrated + EstimatedTokens(increment);
        if total <= U64_MAX then total else U64_MAX
    }

    predicate Fits(messages: seq<ModelMessage>, reasoning: seq<AssistantReasoning>) {
      Estimate(messages, reasoning) <= windowTokens
    }

    /** A report calibrates the accounting; an unknown usage forgets the calibration. */
    function Observed(usage: Usage, requestCharacters: nat): Accounting {
      match usage
      case Reported(input, _, _) => Accounting(windowTokens, Some(input), requestCharacters)
      case NotReported => Accounting(windowTokens, None, 0)
    }
  }

  /** An unknown usage leaves the estimate entirely character-based. */
  lemma UnreportedUsageForgets(w: Accounting, requestCharacters: nat,
                               messages: seq<ModelMessage>, reasoning: seq<AssistantReasoning>)
    ensures w.Observed(NotReported, requestCharacters).Estimate(messages, reasoning)
            == EstimatedTokens(RequestCharacters(messages, reasoning))
  {
  }

  /** The reported request itself - and any smaller one - is estimated at what was reported. */
  lemma ReportedRequestsAreExact(w: Accounting, usage: Usage, requestCharacters: nat,
                                 messages: seq<ModelMessage>, reasoning: seq<AssistantReasoning>)
    requires usage.Reported? && usage.inputTokens <= U64_MAX
    requires RequestCharacters(messages, reasoning) <= requestCharacters
    ensures w.Observed(usage, requestCharacters).Estimate(messages, reasoning) == usage.inputTokens
  {
  }

  lemma {:induction false} SmallerMessagesAreFewerCharacters(a: seq<ModelMessage>, b: seq<ModelMessage>)
    requires |a| == |b| && forall i :: 0 <= i < |a| ==> MessageSize(a[i]) <= MessageSize(b[i])
    ensures MessageCharacters(a) <= MessageCharacters(b)
  {
    if a == [] {
    } else {
      SmallerMessagesAreFewerCharacters(a[1..], b[1..]);
    }
  }

  /** The estimate grows with the list: whatever fits still fits with smaller messages. */
  lemma SmallerMessagesFit(w: Accounting, a: seq<ModelMessage>, b: seq<ModelMessage>, reasoning: seq<AssistantReasoning>)
    requires |a| == |b| && forall i :: 0 <= i < |a| ==> MessageSize(a[i]) <= MessageSize(b[i])
    ensures w.Estimate(a, reasoning) <= w.Estimate(b, reasoning)
    ensures w.Fits(b, reasoning) ==> w.Fits(a, reasoning)
  {
    SmallerMessagesAreFewerCharacters(a, b);
  }

  // -------------------------------------------------------------- compression

  /** The short form one compressed tool result keeps. */
  function CompressedToolResult(content: string): (compressed: string)
    ensures !IsBlank(compressed)
    ensures !IsBlank(content) ==> 14 <= |compressed| <= 29
    ensures IsBlank(content) ==> compressed == COMPRESSED_TOOL_RESULT_PLACEHOLDER
  {
    var trimmed := TrimStart(content);
    var retained := if |trimmed| <= MIN_TOOL_RESULT_CHARACTERS then trimmed else trimmed[..MIN_TOOL_RESULT_CHARACTERS];
    if IsBlank(retained) then
      assert !IsWhitespace(COMPRESSED_TOOL_RESULT_PLACEHOLDER[0]);
      assert trimmed == "" || !IsWhitespace(retained[0]);
      COMPRESSED_TOOL_RESULT_PLACEHOLDER
    else
      var compressed := retained + COMPRESSED_TOOL_RESULT_MARKER;
      assert retained[0] == trimmed[0] == compressed[0];
      compressed
  }

  /** The first character that is not whitespace stands here. */
  predicate TextBeginsAt(content: string, skipped: nat) {
    skipped < |content| && !IsWhitespace(content[skipped]) && forall i :: 0 <= i < skipped ==> IsWhitespace(content[i])
  }

  /** A result with text in it is compressed to its first sixteen characters behind the leading
      whitespace - all of them when there are fewer - and the marker. */
  lemma CompressedKeepsTheBeginning(content: string, skipped: nat)
    requires TextBeginsAt(content, skipped)
    ensures var end := if skipped + MIN_TOOL_RESULT_CHARACTERS <= |content| then skipped + MIN_TOOL_RESULT_CHARACTERS
                       else |content|;
            CompressedToolResult(content) == content[skipped..end] + COMPRESSED_TOOL_RESULT_MARKER
  {
    TrimStartIsASuffix(content);
    TextBeginsOnce(content, skipped);
    hide TrimStart, IsWhitespace;
    var trimmed := TrimStart(content);
    var retained := if |trimmed| <= MIN_TOOL_RESULT_CHARACTERS then trimmed else trimmed[..MIN_TOOL_RESULT_CHARACTERS];
    assert retained[0] == trimmed[0];
    assert !IsBlank(retained);
    hide IsBlank;
    TakeBehind(content, skipped, MIN_TOOL_RESULT_CHARACTERS);
  }

  lemma TextBeginsOnce(content: string, skipped: nat)
    requires TextBeginsAt(content, skipped)
    ensures skipped == |content| - |TrimStart(content)|
    ensures TrimStart(content) == content[skipped..] && !IsWhitespace(TrimStart(content)[0])
  {
    TrimStartIsASuffix(content);
    var trimmed := TrimStart(content);
    assert trimmed != "";
    assert trimmed[0] == content[|content| - |trimmed|];
  }

  lemma TakeBehind(content: string, skipped: nat, n: nat)
    requires skipped <= |content|
    ensures var rest := content[skipped..];
            (if |rest| <= n then rest else rest[..n]) ==
            content[skipped..if skipped + n <= |content| then skipped + n else |content|]
  {
  }

  /** The floor the code's comment promises is sixteen characters. It is reached exactly when
      three or more characters survive trimming the start; a shorter result yields 14 or 15. */
  lemma CompressedLengthFloor(content: string)
    requires !IsBlank(content)
    ensures |CompressedToolResult(content)| >= MIN_TOOL_RESULT_CHARACTERS <==> |TrimStart(content)| >= 3
  {
    var trimmed := TrimStart(content);
    assert trimmed != "";
    assert |COMPRESSED_TOOL_RESULT_MARKER| == 13;
    var retained := if |trimmed| <= MIN_TOOL_RESULT_CHARACTERS then trimmed else trimmed[..MIN_TOOL_RESULT_CHARACTERS];
    assert retained[0] == trimmed[0];
    assert !IsBlank(retained);
  }

  /** A tool result that still gets shorter when compressed. */
  predicate Compressible(message: ModelMessage) {
    message.role == Tool && |CompressedToolResult(message.content)| < |message.content|
  }

  function Compress(message: ModelMessage): ModelMessage {
    message.(content := CompressedToolResult(message.content))
  }

  /** Compressing is final: a compressed result never shrinks again. */
  lemma CompressedIsNeverCompressible(message: ModelMessage)
    ensures !Compressible(Compress(message))
  {
    var content := message.content;
    var once := CompressedToolResult(content);
    var trimmed := TrimStart(content);
    var retained := if |trimmed| <= MIN_TOOL_RESULT_CHARACTERS then trimmed else trimmed[..MIN_TOOL_RESULT_CHARACTERS];
    if IsBlank(retained) {
      assert once == COMPRESSED_TOOL_RESULT_PLACEHOLDER;
      assert !IsWhitespace(once[0]);
      assert TrimStart(once) == once;
    } else {
      assert once == retained + COMPRESSED_TOOL_RESULT_MARKER;
      assert retained[0] == trimmed[0] && once[0] == retained[0];
      assert TrimStart(once) == once;
    }
    var again := if |once| <= MIN_TOOL_RESULT_CHARACTERS then once else once[..MIN_TOOL_RESULT_CHARACTERS];
    assert again[0] == once[0] && !IsBlank(again);
    assert CompressedToolResult(once) == again + COMPRESSED_TOOL_RESULT_MARKER;
  }

  /** `i` outranks `j`: longer, or as long and later in the list. */
  predicate Outranks(messages: seq<ModelMessage>, i: nat, j: nat)
    requires i < |messages| && j < |messages|
  {
    || |messages[i].content| > |messages[j].content|
    || (|messages[i].content| == |messages[j].content| && i > j)
  }

  /** The longest compressible tool result among the first `n` messages, the last of equals. */
  function LargestAmong(messages: seq<ModelMessage>, n: nat): (found: Option<nat>)
    requires n <= |messages|
    ensures found.Some? ==> found.value < n && Compressible(messages[found.value])
  {
    if n == 0 then None
    else
      var before := LargestAmong(messages, n - 1);
      if Compressible(messages[n - 1])
         && (before.None? || |messages[before.value].content| <= |messages[n - 1].content|)
      then Some(n - 1)
      else before
  }

  lemma {:induction false} LargestOutranksTheRest(messages: seq<ModelMessage>, n: nat)
    requires n <= |messages|
    ensures LargestAmong(messages, n).None? <==> forall i :: 0 <= i < n ==> !Compressible(messages[i])
    ensures LargestAmong(messages, n).Some? ==>
              forall i: nat :: i < n && i != LargestAmong(messages, n).value && Compressible(messages[i])
                               ==> Outranks(messages, LargestAmong(messages, n).value, i)
  {
    hide CompressedToolResult;
    if n == 0 {
    } else {
      LargestOutranksTheRest(messages, n - 1);
    }
  }

  function LargestCompressible(messages: seq<ModelMessage>): Option<nat> {
    LargestAmong(messages, |messages|)
  }

  function CompressibleCount(messages: seq<ModelMessage>): nat {
    if messages == [] then 0
    else (if Compressible(messages[0]) then 1 else 0) + CompressibleCount(messages[1..])
  }

  lemma {:induction false} CompressingOneLowersTheCount(messages: seq<ModelMessage>, i: nat, m: ModelMessage)
    requires i < |messages| && Compressible(messages[i]) && !Compressible(m)
    ensures CompressibleCount(messages[i := m]) == CompressibleCount(messages) - 1
  {
    hide Compressible;
    if i == 0 {
      assert messages[i := m][1..] == messages[1..];
    } else {
      assert messages[i := m][1..] == messages[1..][i - 1 := m];
      CompressingOneLowersTheCount(messages[1..], i - 1, m);
    }
  }

  /** What the trimming loop leaves: compress the largest result until the estimate fits. */
  function Trimmed(w: Accounting, messages: seq<ModelMessage>, reasoning: seq<AssistantReasoning>): (out: seq<ModelMessage>)
    ensures |out| == |messages|
    decreases CompressibleCount(messages)
  {
    if w.Fits(messages, reasoning) then messages
    else
      match LargestCompressible(messages)
      case None => messages
      case Some(i) =>
        CompressedIsNeverCompressible(messages[i]);
        CompressingOneLowersTheCount(messages, i, Compress(messages[i]));
        Trimmed(w, messages[i := Compress(messages[i])], reasoning)
  }

  /** Which positions a trim changed. */
  predicate CompressedAt(before: seq<ModelMessage>, after: seq<ModelMessage>, i: nat)
    requires |before| == |after| && i < |before|
  {
    Compressible(before[i]) && after[i] == Compress(before[i])
  }

  /** One turn of the loop: `next` is `messages` with its top ranked result compressed. */
  ghost predicate TopCompressed(messages: seq<ModelMessage>, next: seq<ModelMessage>, k: nat) {
    && k < |messages| == |next|
    && Compressible(messages[k])
    && next[k] == Compress(messages[k])
    && next[k] != messages[k]
    && !Compressible(next[k])
    && (forall i: nat :: i < |messages| && i != k ==> next[i] == messages[i])
    && (forall i: nat :: i < |messages| && i != k && Compressible(messages[i]) ==> Outranks(messages, k, i))
  }

  lemma OneTurn(messages: seq<ModelMessage>) returns (next: seq<ModelMessage>)
    requires LargestCompressible(messages).Some?
    ensures next == messages[LargestCompressible(messages).value := Compress(messages[LargestCompressible(messages).value])]
    ensures TopCompressed(messages, next, LargestCompressible(messages).value)
    ensures CompressibleCount(next) < CompressibleCount(messages)
  {
    hide CompressedToolResult, CompressibleCount;
    var k := LargestCompressible(messages).value;
    next := messages[k := Compress(messages[k])];
    LargestOutranksTheRest(messages, |messages|);
    CompressedIsNeverCompressible(messages[k]);
    CompressingOneLowersTheCount(messages, k, next[k]);
  }

  /** The positions a trim may touch, and the rank order among them. */
  ghost predicate GreedyPositions(before: seq<ModelMessage>, after: seq<ModelMessage>) {
    && |after| == |before|
    && (forall i: nat :: i < |before| ==> after[i] == before[i] || CompressedAt(before, after, i))
    && (forall i: nat, j: nat ::
          i < |before| && j < |before| && CompressedAt(before, after, i) && Compressible(before[j]) && after[j] == before[j]
          ==> Outranks(before, i, j))
  }

  lemma GreedyPositionsStep(messages: seq<ModelMessage>, next: seq<ModelMessage>, out: seq<ModelMessage>, k: nat)
    requires TopCompressed(messages, next, k)
    requires GreedyPositions(next, out)
    ensures GreedyPositions(messages, out)
    ensures CompressedAt(messages, out, k)
  {
    hide Compressible, Compress;
    assert out[k] == next[k];
    forall i: nat | i < |messages| ensures out[i] == messages[i] || CompressedAt(messages, out, i) {
      assert out[i] == next[i] || CompressedAt(next, out, i);
    }
    forall i: nat, j: nat |
      i < |messages| && j < |messages| && CompressedAt(messages, out, i) && Compressible(messages[j]) && out[j] == messages[j]
      ensures Outranks(messages, i, j)
    {
      if i != k {
        assert next[i] == messages[i] && next[j] == messages[j];
        assert CompressedAt(next, out, i);
        assert Outranks(next, i, j);
      }
    }
  }

  lemma {:induction false} TrimIsGreedy(w: Accounting, messages: seq<ModelMessage>, reasoning: seq<AssistantReasoning>)
    ensures GreedyPositions(messages, Trimmed(w, messages, reasoning))
    ensures
      || w.Fits(Trimmed(w, messages, reasoning), reasoning)
      || forall m :: m in Trimmed(w, messages, reasoning) ==> !Compressible(m)
    decreases CompressibleCount(messages)
  {
    hide Compressible, Compress, CompressibleCount, Accounting.Fits;
    var largest := LargestCompressible(messages);
    LargestOutranksTheRest(messages, |messages|);
    if !w.Fits(messages, reasoning) && largest.Some? {
      var next := OneTurn(messages);
      TrimIsGreedy(w, next, reasoning);
      GreedyPositionsStep(messages, next, Trimmed(w, messages, reasoning), largest.value);
    } else {
      forall i: nat | i < |messages| ensures !CompressedAt(messages, messages, i) {
        UntouchedIsNotCompressed(messages, i);
      }
    }
  }

  /** `i` is the lowest ranked position the trim compressed. */
  ghost predicate LowestCompressed(before: seq<ModelMessage>, after: seq<ModelMessage>, i: nat)
    requires |before| == |after|
  {
    && i < |before|
    && CompressedAt(before, after, i)
    && forall j: nat :: j < |before| && j != i && CompressedAt(before, after, j) ==> Outranks(before, j, i)
  }

  lemma LowestAlsoAfterTheFirst(messages: seq<ModelMessage>, next: seq<ModelMessage>, out: seq<ModelMessage>, k: nat, i: nat)
    requires TopCompressed(messages, next, k)
    requires GreedyPositions(next, out)
    requires LowestCompressed(messages, out, i)
    ensures i != k ==> LowestCompressed(next, out, i) && next[i] == messages[i]
    ensures i == k ==> out == next
  {
    hide Compressible, Compress;
    if i == k {
      forall j: nat | j < |messages| ensures out[j] == next[j] {
        if j != k {
          assert !CompressedAt(messages, out, j);
          assert next[j] == messages[j];
        }
      }
    } else {
      forall j: nat | j < |next| && j != i && CompressedAt(next, out, j) ensures Outranks(next, j, i) {
        assert j != k && CompressedAt(messages, out, j);
      }
    }
  }

  /** Giving back the lowest ranked compression overflows the window. */
  lemma {:induction false} LastCompressionWasNeeded(
    w: Accounting, messages: seq<ModelMessage>, reasoning: seq<AssistantReasoning>, i: nat)
    requires LowestCompressed(messages, Trimmed(w, messages, reasoning), i)
    ensures !w.Fits(Trimmed(w, messages, reasoning)[i := messages[i]], reasoning)
    decreases CompressibleCount(messages)
  {
    hide Compressible, Compress, CompressibleCount, Accounting.Fits;
    var out := Trimmed(w, messages, reasoning);
    var largest := LargestCompressible(messages);
    if w.Fits(messages, reasoning) || largest.None? {
      UntouchedIsNotCompressed(messages, i);
    } else {
      var k := largest.value;
      var next := OneTurn(messages);
      TrimIsGreedy(w, next, reasoning);
      LowestAlsoAfterTheFirst(messages, next, out, k, i);
      if i == k {
        assert out[k := messages[k]] == messages;
      } else {
        LastCompressionWasNeeded(w, next, reasoning, i);
      }
    }
  }

  lemma {:induction false} LowestExists(before: seq<ModelMessage>, after: seq<ModelMessage>, n: nat) returns (i: nat)
    requires |before| == |after| && n <= |before|
    requires exists k: nat :: k < n && CompressedAt(before, after, k)
    ensures i < n && CompressedAt(before, after, i)
    ensures forall j: nat :: j < n && j != i && CompressedAt(before, after, j) ==> Outranks(before, j, i)
  {
    hide Compressible, Compress;
    if exists k: nat :: k < n - 1 && CompressedAt(before, after, k) {
      i := LowestExists(before, after, n - 1);
      if CompressedAt(before, after, n - 1) && Outranks(before, i, n - 1) {
        i := n - 1;
      }
    } else {
      i := n - 1;
    }
  }

  /** A list compressed in rank order that leaves any of the trim's positions leaves the lowest. */
  lemma LowestIsLeftToo(messages: seq<ModelMessage>, out: seq<ModelMessage>, part: seq<ModelMessage>, left: nat, i: nat)
    requires GreedyPositions(messages, part) && |out| == |messages|
    requires left < |messages| && CompressedAt(messages, out, left) && !CompressedAt(messages, part, left)
    requires LowestCompressed(messages, out, i)
    ensures !CompressedAt(messages, part, i)
  {
    hide Compressible, Compress;
    assert part[left] == messages[left];
    assert CompressedAt(messages, part, i) ==> Outranks(messages, i, left);
    assert left == i || Outranks(messages, left, i);
  }

  /** No shorter greedy prefix would have been enough: a list that compresses only some of what the
      trim compressed, and does so in rank order, overflows the window. */
  lemma TrimIsMinimal(w: Accounting, messages: seq<ModelMessage>, reasoning: seq<AssistantReasoning>,
                      part: seq<ModelMessage>, left: nat)
    requires GreedyPositions(messages, part)
    requires var out := Trimmed(w, messages, reasoning);
             && left < |messages| && CompressedAt(messages, out, left) && !CompressedAt(messages, part, left)
             && forall j: nat :: j < |messages| && CompressedAt(messages, part, j) ==> CompressedAt(messages, out, j)
    ensures !w.Fits(part, reasoning)
  {
    hide CompressedToolResult, Accounting.Fits, Trimmed, CallCharacters;
    var out := Trimmed(w, messages, reasoning);
    TrimIsGreedy(w, messages, reasoning);
    var i := LowestExists(messages, out, |messages|);
    LastCompressionWasNeeded(w, messages, reasoning, i);
    LowestIsLeftToo(messages, out, part, left, i);
    var smaller := out[i := messages[i]];
    forall j | 0 <= j < |smaller| ensures MessageSize(smaller[j]) <= MessageSize(part[j]) {
      assert out[j] == messages[j] || CompressedAt(messages, out, j);
      assert part[j] == messages[j] || CompressedAt(messages, part, j);
    }
    SmallerMessagesFit(w, smaller, part, reasoning);
  }

  // ------------------------------------------------------ what greed does not give

  function Blanks(n: nat): string {
    if n == 0 then "" else " " + Blanks(n - 1)
  }

  lemma {:induction false} BlanksAreTrimmed(n: nat, text: string)
    requires text != "" && !IsWhitespace(text[0])
    ensures |Blanks(n)| == n && TrimStart(Blanks(n) + text) == text
  {
    if n == 0 {
      assert Blanks(0) + text == text;
    } else {
      BlanksAreTrimmed(n - 1, text);
      assert (Blanks(n) + text)[1..] == Blanks(n - 1) + text;
    }
  }

  /** A compressible result can end below the documented floor, at 14 or 15 characters. */
  lemma TheFloorIsMissed(n: nat)
    requires n >= 14
    ensures var one := ModelMessage(Tool, Blanks(n) + "b", [], Some(1), false);
            Compressible(one) && |Compress(one).content| == 14
    ensures var two := ModelMessage(Tool, Blanks(n) + "bc", [], Some(1), false);
            Compressible(two) && |Compress(two).content| == 15
  {
    BlanksAreTrimmed(n, "b");
    BlanksAreTrimmed(n, "bc");
    assert !IsBlank("b") && !IsBlank("bc") by {
      assert !IsWhitespace("b"[0]) && !IsWhitespace("bc"[0]);
    }
  }

  const LONG_RESULT := ModelMessage(Tool, "aaaaaaaaaaaaaaaaaaaaaaaaaaaaaa", [], Some(1), false)
  const BLANK_RESULT := ModelMessage(Tool, Blanks(28) + "b", [], Some(2), false)

  /** The greedy prefix is shortest among greedy ones only: here the trim compresses two results
      where compressing the shorter one alone would have fitted. */
  lemma FewerCompressionsCanFit()
    ensures var w := Accounting(11, None, 0);
            && Trimmed(w, [LONG_RESULT, BLANK_RESULT], []) == [Compress(LONG_RESULT), Compress(BLANK_RESULT)]
            && Compress(LONG_RESULT) != LONG_RESULT && Compress(BLANK_RESULT) != BLANK_RESULT
            && w.Fits([LONG_RESULT, Compress(BLANK_RESULT)], [])
  {
    var a, b := LONG_RESULT, BLANK_RESULT;
    LongResultSizes();
    BlankResultSizes();
    GreedyTakesBoth(Accounting(11, None, 0), a, b);
    TwoSizes(a, Compress(b));
  }

  lemma LongResultSizes()
    ensures |LONG_RESULT.content| == 30 && |Compress(LONG_RESULT).content| == 29
    ensures Compressible(LONG_RESULT) && !Compressible(Compress(LONG_RESULT))
  {
    var text := LONG_RESULT.content;
    assert |text| == 30 && !IsWhitespace(text[0]);
    assert TrimStart(text) == text;
    assert text[..16][0] == 'a' && !IsBlank(text[..16]);
    CompressedIsNeverCompressible(LONG_RESULT);
  }

  lemma BlankResultSizes()
    ensures |BLANK_RESULT.content| == 29 && |Compress(BLANK_RESULT).content| == 14
    ensures Compressible(BLANK_RESULT) && !Compressible(Compress(BLANK_RESULT))
  {
    BlanksAreTrimmed(28, "b");
    assert !IsBlank("b") by {
      assert !IsWhitespace("b"[0]);
    }
    CompressedIsNeverCompressible(BLANK_RESULT);
  }

  /** Two results of 30 and 29 characters, of which only the second gets much shorter. */
  lemma GreedyTakesBoth(w: Accounting, a: ModelMessage, b: ModelMessage)
    requires w == Accounting(11, None, 0) && a.toolCalls == [] && b.toolCalls == []
    requires |a.content| == 30 && |Compress(a).content| == 29 && Compressible(a) && !Compressible(Compress(a))
    requires |b.content| == 29 && |Compress(b).content| == 14 && Compressible(b) && !Compressible(Compress(b))
    ensures Trimmed(w, [a, b], []) == [Compress(a), Compress(b)]
  {
    hide Compressible, LargestAmong, MessageCharacters, CompressedToolResult;
    TwoSizes(a, b);
    TwoSizes(Compress(a), b);
    TwoSizes(Compress(a), Compress(b));
    LargestOfTwo(a, b);
    LargestOfTwo(Compress(a), b);
    assert [a, b][0 := Compress(a)] == [Compress(a), b];
    assert [Compress(a), b][1 := Compress(b)] == [Compress(a), Compress(b)];
    assert Trimmed(w, [Compress(a), Compress(b)], []) == [Compress(a), Compress(b)];
    assert Trimmed(w, [Compress(a), b], []) == [Compress(a), Compress(b)];
  }

  lemma TwoSizes(a: ModelMessage, b: ModelMessage)
    requires a.toolCalls == [] && b.toolCalls == []
    ensures RequestCharacters([a, b], []) == |a.content| + |b.content|
  {
    assert [a, b][1..] == [b] && [b][1..] == [];
    assert MessageCharacters([b]) == MessageSize(b) + MessageCharacters([]);
  }

  lemma LargestOfTwo(a: ModelMessage, b: ModelMessage)
    ensures LargestCompressible([a, b]) ==
              if Compressible(b) && (!Compressible(a) || |b.content| >= |a.content|) then Some(1)
              else if Compressible(a) then Some(0) else None
  {
    hide Compressible;
    assert LargestAmong([a, b], 0) == None;
    assert LargestAmong([a, b], 1) == if Compressible(a) then Some(0) else None;
  }

  lemma UntouchedIsNotCompressed(messages: seq<ModelMessage>, i: nat)
    requires i < |messages|
    ensures !CompressedAt(messages, messages, i)
  {
    hide CompressedToolResult;
  }

  /** A trimmed list is left alone by the next pass with the same accounting. */
  lemma {:induction false} TrimIsIdempotent(w: Accounting, messages: seq<ModelMessage>, reasoning: seq<AssistantReasoning>)
    ensures Trimmed(w, Trimmed(w, messages, reasoning), reasoning) == Trimmed(w, messages, reasoning)
  {
    var out := Trimmed(w, messages, reasoning);
    TrimIsGreedy(w, messages, reasoning);
    if !w.Fits(out, reasoning) {
      LargestOutranksTheRest(out, |out|);
    }
  }

  // -------------------------------------------------------- cache breakpoints

  function LeadingSystemCount(messages: seq<ModelMessage>): (n: nat)
    ensures n <= |messages|
    ensures forall i :: 0 <= i < n ==> messages[i].role == System
    ensures n < |messages| ==> messages[n].role != System
  {
    if messages == [] || messages[0].role != System then 0 else 1 + LeadingSystemCount(messages[1..])
  }

  /** Exactly the end of the leading system block and the last message carry a breakpoint. */
  predicate IsBreakpoint(messages: seq<ModelMessage>, i: nat)
    requires i < |messages|
  {
    i == |messages| - 1 || i + 1 == LeadingSystemCount(messages)
  }

  function Marked(messages: seq<ModelMessage>): (out: seq<ModelMessage>)
    ensures |out| == |messages|
  {
    seq(|messages|, i requires 0 <= i < |messages| => messages[i].(cacheControl := IsBreakpoint(messages, i)))
  }

  lemma {:induction false} SameRolesSameSystemBlock(a: seq<ModelMessage>, b: seq<ModelMessage>)
    requires |a| == |b| && forall i :: 0 <= i < |a| ==> a[i].role == b[i].role
    ensures LeadingSystemCount(a) == LeadingSystemCount(b)
  {
    if a == [] || a[0].role != System {
    } else {
      SameRolesSameSystemBlock(a[1..], b[1..]);
    }
  }

  // ------------------------------------------------------------ the whole pass

  /** One accounting pass: trim, then recompute the breakpoints. */
  function Windowed(w: Accounting, messages: seq<ModelMessage>, reasoning: seq<AssistantReasoning>): (out: seq<ModelMessage>)
    ensures |out| == |messages|
  {
    Marked(Trimmed(w, messages, reasoning))
  }

  /** A message seen through any number of passes: only a tool result's text may have changed,
      and only to the compressed form of the original; the cache marker is not content. */
  predicate SeenThroughWindow(seen: ModelMessage, original: ModelMessage) {
    && seen.role == original.role
    && seen.toolCalls == original.toolCalls
    && seen.toolCallId == original.toolCallId
    && (|| seen.content == original.content
        || (original.role == Tool && seen.content == CompressedToolResult(original.content)))
  }

  predicate WindowImage(seen: seq<ModelMessage>, original: seq<ModelMessage>) {
    |seen| == |original| && forall i :: 0 <= i < |seen| ==> SeenThroughWindow(seen[i], original[i])
  }

  /** Passes accumulate: another pass over an image of a list is still an image of that list. */
  lemma WindowKeepsImage(w: Accounting, seen: seq<ModelMessage>, original: seq<ModelMessage>, reasoning: seq<AssistantReasoning>)
    requires WindowImage(seen, original)
    ensures WindowImage(Windowed(w, seen, reasoning), original)
  {
    var trimmed := Trimmed(w, seen, reasoning);
    TrimIsGreedy(w, seen, reasoning);
    forall i | 0 <= i < |seen| ensures SeenThroughWindow(Windowed(w, seen, reasoning)[i], original[i]) {
      assert SeenThroughWindow(seen[i], original[i]);
      if trimmed[i] != seen[i] {
        assert CompressedAt(seen, trimmed, i);
        CompressedIsNeverCompressible(original[i]);
        if seen[i].content != original[i].content {
          assert Compressible(seen[i]) == Compressible(Compress(original[i]));
        }
      }
    }
  }

  /** Cache markers are not input: they change neither the estimate nor what is compressible. */
  lemma MarkingKeepsTheMeasure(w: Accounting, messages: seq<ModelMessage>, reasoning: seq<AssistantReasoning>)
    ensures w.Fits(Marked(messages), reasoning) == w.Fits(messages, reasoning)
    ensures forall i :: 0 <= i < |messages| ==> Compressible(Marked(messages)[i]) == Compressible(messages[i])
  {
    hide CompressedToolResult;
    SameCharacters(Marked(messages), messages);
  }

  /** The pass is idempotent: a list it already trimmed and marked comes back unchanged. */
  lemma WindowIsIdempotent(w: Accounting, messages: seq<ModelMessage>, reasoning: seq<AssistantReasoning>)
    ensures Windowed(w, Windowed(w, messages, reasoning), reasoning) == Windowed(w, messages, reasoning)
  {
    hide Compressible, Accounting.Fits;
    var trimmed := Trimmed(w, messages, reasoning);
    var out := Marked(trimmed);
    TrimIsGreedy(w, messages, reasoning);
    MarkingKeepsTheMeasure(w, trimmed, reasoning);
    LargestOutranksTheRest(out, |out|);
    assert Trimmed(w, out, reasoning) == out;
    SameRolesSameSystemBlock(out, trimmed);
    assert Marked(out) == out;
  }

  lemma {:induction false} SameCharacters(a: seq<ModelMessage>, b: seq<ModelMessage>)
    requires |a| == |b|
    requires forall i :: 0 <= i < |a| ==> a[i].content == b[i].content && a[i].toolCalls == b[i].toolCalls
    ensures MessageCharacters(a) == MessageCharacters(b)
  {
    if a == [] {
    } else {
      SameCharacters(a[1..], b[1..]);
    }
  }

  // ----------------------------------------------------- the state that does it

  class ContextWindowState {
    const windowTokens: nat
    var calibratedInputTokens: Option<nat>
    var calibratedCharacters: nat

    ghost function Value(): Accounting
      reads this
    {
      Accounting(windowTokens, calibratedInputTokens, calibratedCharacters)
    }

    constructor (windowTokens: nat)
      ensures Value() == Accounting(windowTokens, None, 0)
    {
      this.windowTokens := windowTokens;
      calibratedInputTokens := None;
      calibratedCharacters := 0;
    }

    method ObserveUsage(usage: Usage, requestCharacters: nat)
      modifies this
      ensures Value() == old(Value()).Observed(usage, requestCharacters)
      ensures usage.Reported? && usage.inputTokens <= U64_MAX ==>
                forall messages, reasoning :: RequestCharacters(messages, reasoning) <= requestCharacters ==>
                  Value().Estimate(messages, reasoning) == usage.inputTokens
      ensures usage.NotReported? ==>
                forall messages, reasoning ::
                  Value().Estimate(messages, reasoning) == EstimatedTokens(RequestCharacters(messages, reasoning))
    {
      match usage {
        case Reported(input, _, _) =>
          calibratedInputTokens := Some(input);
          calibratedCharacters := requestCharacters;
        case NotReported =>
          calibratedInputTokens := None;
          calibratedCharacters := 0;
      }
    }

    method EstimateTokens(messages: seq<ModelMessage>, reasoning: seq<AssistantReasoning>) returns (tokens: nat)
      ensures tokens == Value().Estimate(messages, reasoning)
      ensures calibratedInputTokens.None? && tokens < U64_MAX ==>
                4 * tokens - 4 < RequestCharacters(messages, reasoning) <= 4 * tokens
      ensures calibratedInputTokens.Some? && calibratedInputTokens.value <= tokens < U64_MAX
              && RequestCharacters(messages, reasoning) > calibratedCharacters ==>
                var beyond := tokens - calibratedInputTokens.value;
                4 * beyond - 4 < RequestCharacters(messages, reasoning) - calibratedCharacters <= 4 * beyond
    {
      tokens := Accounting(windowTokens, calibratedInputTokens, calibratedCharacters).Estimate(messages, reasoning);
    }

    /** Compresses the largest results of `messages` in place. The replacement is refused only
        when it is blank, which no compressed result is, so the pass cannot fail. */
    method TrimToWindow(messages: array<ModelMessage>, reasoning: seq<AssistantReasoning>)
      modifies messages
      ensures messages[..] == Trimmed(Value(), old(messages[..]), reasoning)
    {
      var tokens := EstimateTokens(messages[..], reasoning);
      while tokens > windowTokens
        invariant tokens == Value().Estimate(messages[..], reasoning)
        invariant Trimmed(Value(), messages[..], reasoning) == Trimmed(Value(), old(messages[..]), reasoning)
        decreases CompressibleCount(messages[..])
      {
        var found := LargestCompressible(messages[..]);
        if found.None? {
          return;
        }
        ghost var before := messages[..];
        var index := found.value;
        CompressedIsNeverCompressible(before[index]);
        CompressingOneLowersTheCount(before, index, Compress(before[index]));
        messages[index] := Compress(messages[index]);
        assert messages[..] == before[index := Compress(before[index])];
        tokens := EstimateTokens(messages[..], reasoning);
      }
    }

    method MarkCacheBreakpoints(messages: array<ModelMessage>)
      modifies messages
      ensures messages[..] == Marked(old(messages[..]))
    {
      ghost var before := messages[..];
      var i := 0;
      while i < messages.Length
        invariant 0 <= i <= messages.Length
        invariant forall j :: 0 <= j < i ==> messages[j] == before[j].(cacheControl := false)
        invariant forall j :: i <= j < messages.Length ==> messages[j] == before[j]
      {
        messages[i] := messages[i].(cacheControl := false);
        i := i + 1;
      }
      var system := LeadingSystemCount(messages[..]);
      SameRolesSameSystemBlock(messages[..], before);
      if system > 0 {
        messages[system - 1] := messages[system - 1].(cacheControl := true);
      }
      if messages.Length > 0 {
        messages[messages.Length - 1] := messages[messages.Length - 1].(cacheControl := true);
      }
    }

    method Apply(messages: array<ModelMessage>, reasoning: seq<AssistantReasoning>)
      modifies messages
      ensures messages[..] == Windowed(Value(), old(messages[..]), reasoning)
    {
      TrimToWindow(messages, reasoning);
      MarkCacheBreakpoints(messages);
    }
  }
}
