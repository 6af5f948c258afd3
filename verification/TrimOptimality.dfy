/** When the window's trim compresses as few tool results as any choice of them would.

    The trim takes the longest result first. It is smallest, whatever the accounting, exactly when
    a longer result never saves less than a shorter one. */
module TrimOptimality {
  import opened ContextWindow
  import opened ModelTypes
  import opened Text

  /** The characters that compressing a result saves. */
  function Saving(message: ModelMessage): int {
    |message.content| - |CompressedToolResult(message.content)|
  }

  /** What ranks higher saves no less: a condition on the list alone. */
  predicate SavingsFollowRank(messages: seq<ModelMessage>) {
    forall i: nat, j: nat ::
      i < |messages| && j < |messages| && Compressible(messages[i]) && Compressible(messages[j]) && Outranks(messages, i, j)
      ==> Saving(messages[i]) >= Saving(messages[j])
  }

  /** A choice: the list with any of its compressible results compressed. */
  predicate IsChoice(messages: seq<ModelMessage>, part: seq<ModelMessage>) {
    |part| == |messages| && forall i: nat :: i < |messages| ==> part[i] == messages[i] || CompressedAt(messages, part, i)
  }

  /** The positions a choice compressed. */
  function Places(messages: seq<ModelMessage>, part: seq<ModelMessage>): set<nat>
    requires |part| == |messages|
  {
    set i: nat | i < |messages| && CompressedAt(messages, part, i)
  }

  /** Every choice of fewer results than the trim compresses overflows the window. */
  ghost predicate TrimIsSmallest(w: Accounting, messages: seq<ModelMessage>, reasoning: seq<AssistantReasoning>) {
    forall part :: IsChoice(messages, part) && |Places(messages, part)| < |Places(messages, Trimmed(w, messages, reasoning))|
                   ==> !w.Fits(part, reasoning)
  }

  // ------------------------------------------------------------------- measuring

  lemma {:induction false} CharactersAfterUpdate(messages: seq<ModelMessage>, i: nat, m: ModelMessage)
    requires i < |messages|
    ensures MessageCharacters(messages[i := m]) == MessageCharacters(messages) - MessageSize(messages[i]) + MessageSize(m)
  {
    hide MessageSize;
    if i == 0 {
      assert messages[i := m][1..] == messages[1..];
    } else {
      assert messages[i := m][1..] == messages[1..][i - 1 := m];
      CharactersAfterUpdate(messages[1..], i - 1, m);
    }
  }

  lemma CompressingSaves(messages: seq<ModelMessage>, i: nat)
    requires i < |messages|
    ensures MessageCharacters(messages[i := Compress(messages[i])]) == MessageCharacters(messages) - Saving(messages[i])
  {
    hide CompressedToolResult, MessageCharacters;
    CharactersAfterUpdate(messages, i, Compress(messages[i]));
  }

  lemma FewerCharactersFit(w: Accounting, a: seq<ModelMessage>, b: seq<ModelMessage>, reasoning: seq<AssistantReasoning>)
    requires MessageCharacters(a) <= MessageCharacters(b)
    ensures w.Fits(b, reasoning) ==> w.Fits(a, reasoning)
  {
    hide MessageCharacters;
  }

  /** An accounting whose window is exactly what one list was reported to take. */
  function CalibratedTo(tokens: nat, list: seq<ModelMessage>, reasoning: seq<AssistantReasoning>): Accounting {
    Accounting(tokens, Some(tokens), RequestCharacters(list, reasoning))
  }

  lemma OnlyNoLongerListsFit(tokens: nat, list: seq<ModelMessage>, other: seq<ModelMessage>, reasoning: seq<AssistantReasoning>)
    requires tokens < U64_MAX
    ensures CalibratedTo(tokens, list, reasoning).Fits(other, reasoning) <==> MessageCharacters(other) <= MessageCharacters(list)
  {
    hide MessageCharacters, ReasoningCharacters;
  }

  // ------------------------------------------------------------- one turn of the trim

  /** Behind one turn, a choice that compresses the top ranked result is a choice of what is left. */
  lemma ChoiceBehindTheTop(messages: seq<ModelMessage>, next: seq<ModelMessage>, part: seq<ModelMessage>, k: nat)
    requires TopCompressed(messages, next, k) && |part| == |messages|
    ensures IsChoice(messages, part) && CompressedAt(messages, part, k) <==> IsChoice(next, part)
    ensures IsChoice(next, part) ==>
              k !in Places(next, part) && Places(messages, part) == Places(next, part) + {k}
  {
    hide Compressible, Compress;
    if IsChoice(messages, part) && CompressedAt(messages, part, k) {
      forall i: nat | i < |next| ensures part[i] == next[i] || CompressedAt(next, part, i) {
        assert part[i] == messages[i] || CompressedAt(messages, part, i);
      }
    }
    if IsChoice(next, part) {
      assert part[k] == next[k];
      forall i: nat | i < |messages| ensures part[i] == messages[i] || CompressedAt(messages, part, i) {
        assert part[i] == next[i] || CompressedAt(next, part, i);
      }
    }
  }

  lemma SavingsStillFollow(messages: seq<ModelMessage>, next: seq<ModelMessage>, k: nat)
    requires TopCompressed(messages, next, k) && SavingsFollowRank(messages)
    ensures SavingsFollowRank(next)
  {
    hide Compressible, Compress, Saving;
    forall i: nat, j: nat |
      i < |next| && j < |next| && Compressible(next[i]) && Compressible(next[j]) && Outranks(next, i, j)
      ensures Saving(next[i]) >= Saving(next[j])
    {
      assert i != k && j != k && Outranks(messages, i, j);
    }
  }

  lemma UntouchedHasNoPlaces(messages: seq<ModelMessage>)
    ensures IsChoice(messages, messages) && Places(messages, messages) == {}
  {
    hide Compressible, Compress;
    forall i: nat | i < |messages| ensures !CompressedAt(messages, messages, i) {
      UntouchedIsNotCompressed(messages, i);
    }
  }

  /** A choice without places is the list itself. */
  lemma NoPlacesIsUntouched(messages: seq<ModelMessage>, part: seq<ModelMessage>)
    requires IsChoice(messages, part) && Places(messages, part) == {}
    ensures part == messages
  {
    hide Compressible, Compress;
    forall i: nat | i < |messages| ensures part[i] == messages[i] {
      assert i !in Places(messages, part);
    }
  }

  // --------------------------------------------------------- the condition suffices

  /** Giving back one place for the top ranked one costs nothing where savings follow rank. */
  lemma SwapForTheTop(messages: seq<ModelMessage>, part: seq<ModelMessage>, k: nat, j: nat) returns (swapped: seq<ModelMessage>)
    requires IsChoice(messages, part) && k < |messages| && j < |messages| && k != j
    requires Compressible(messages[k]) && !CompressedAt(messages, part, k) && CompressedAt(messages, part, j)
    requires Saving(messages[k]) >= Saving(messages[j])
    ensures IsChoice(messages, swapped) && CompressedAt(messages, swapped, k)
    ensures |Places(messages, swapped)| == |Places(messages, part)|
    ensures MessageCharacters(swapped) <= MessageCharacters(part)
  {
    hide CompressedToolResult, MessageCharacters, Compressible;
    var given := part[j := messages[j]];
    swapped := given[k := Compress(messages[k])];
    assert part[k] == messages[k] && given[k] == messages[k];
    CharactersAfterUpdate(part, j, messages[j]);
    CharactersAfterUpdate(given, k, Compress(messages[k]));
    UntouchedIsNotCompressed(messages, j);
    forall i: nat | i < |messages| ensures swapped[i] == messages[i] || CompressedAt(messages, swapped, i) {
      assert part[i] == messages[i] || CompressedAt(messages, part, i);
    }
    assert Places(messages, swapped) == Places(messages, part) - {j} + {k};
  }

  /** Where savings follow rank, no choice of fewer results fits, under any accounting. */
  lemma {:induction false} RankedSavingsMakeTheTrimSmallest(
    w: Accounting, messages: seq<ModelMessage>, reasoning: seq<AssistantReasoning>, part: seq<ModelMessage>)
    requires SavingsFollowRank(messages) && IsChoice(messages, part)
    requires |Places(messages, part)| < |Places(messages, Trimmed(w, messages, reasoning))|
    ensures !w.Fits(part, reasoning)
    decreases CompressibleCount(messages)
  {
    hide Compressible, Compress, CompressibleCount, Accounting.Fits, Saving, MessageCharacters, SavingsFollowRank;
    var largest := LargestCompressible(messages);
    UntouchedHasNoPlaces(messages);
    if w.Fits(messages, reasoning) || largest.None? {
    } else if Places(messages, part) == {} {
      NoPlacesIsUntouched(messages, part);
    } else {
      var k := largest.value;
      var next := OneTurn(messages);
      var chosen := part;
      if !CompressedAt(messages, part, k) {
        var j :| j in Places(messages, part);
        TopSavesMost(messages, next, k, j);
        chosen := SwapForTheTop(messages, part, k, j);
        FewerCharactersFit(w, chosen, part, reasoning);
      }
      var out := Trimmed(w, next, reasoning);
      TrimIsGreedy(w, next, reasoning);
      ChoiceBehindTheTop(messages, next, chosen, k);
      ChoiceBehindTheTop(messages, next, out, k);
      SavingsStillFollow(messages, next, k);
      RankedSavingsMakeTheTrimSmallest(w, next, reasoning, chosen);
    }
  }

  lemma TopSavesMost(messages: seq<ModelMessage>, next: seq<ModelMessage>, k: nat, j: nat)
    requires TopCompressed(messages, next, k) && SavingsFollowRank(messages)
    requires j < |messages| && j != k && Compressible(messages[j])
    ensures Saving(messages[k]) >= Saving(messages[j])
  {
    hide Compressible, Compress, Saving;
    assert Outranks(messages, k, j);
  }

  /** Results without leading whitespace are such a list: each saves all but 29 characters. */
  lemma UnpaddedResultsFollowRank(messages: seq<ModelMessage>)
    requires forall m :: m in messages && Compressible(m) ==> !IsWhitespace(m.content[0])
    ensures SavingsFollowRank(messages)
  {
    hide CompressedToolResult;
    forall i: nat | i < |messages| && Compressible(messages[i])
      ensures Saving(messages[i]) == |messages[i].content| - 29
    {
      UnpaddedSaving(messages[i]);
    }
  }

  lemma UnpaddedSaving(message: ModelMessage)
    requires Compressible(message) && !IsWhitespace(message.content[0])
    ensures Saving(message) == |message.content| - 29
  {
    var content := message.content;
    assert TrimStart(content) == content && !IsBlank(content);
    var retained := if |content| <= MIN_TOOL_RESULT_CHARACTERS then content else content[..MIN_TOOL_RESULT_CHARACTERS];
    assert retained[0] == content[0] && !IsBlank(retained);
    assert CompressedToolResult(content) == retained + COMPRESSED_TOOL_RESULT_MARKER;
  }

  // ------------------------------------------------------------ and is necessary

  /** Where savings do not follow rank, some accounting makes a smaller choice fit: a window that was
      calibrated to that choice. */
  lemma {:induction false} UnrankedSavingsHaveASmallerChoice(
    messages: seq<ModelMessage>, reasoning: seq<AssistantReasoning>, tokens: nat)
    returns (w: Accounting, part: seq<ModelMessage>)
    requires !SavingsFollowRank(messages) && tokens < U64_MAX
    ensures w == CalibratedTo(tokens, part, reasoning)
    ensures IsChoice(messages, part) && w.Fits(part, reasoning)
    ensures |Places(messages, part)| < |Places(messages, Trimmed(w, messages, reasoning))|
    decreases CompressibleCount(messages)
  {
    hide Compressible, Compress, CompressibleCount, Accounting.Fits, Saving, MessageCharacters, CalibratedTo;
    var i: nat, j: nat :|
      i < |messages| && j < |messages| && Compressible(messages[i]) && Compressible(messages[j]) && Outranks(messages, i, j)
      && Saving(messages[i]) < Saving(messages[j]);
    LargestOutranksTheRest(messages, |messages|);
    var k := LargestCompressible(messages).value;
    var next := OneTurn(messages);
    if SavingsFollowRank(next) {
      OnlyTheTopIsOutOfRank(messages, next, k, i, j);
      w, part := BetterSecond(messages, reasoning, tokens, next, k, j);
    } else {
      w, part := UnrankedSavingsHaveASmallerChoice(next, reasoning, tokens);
      ChoiceBehindTheTop(messages, next, part, k);
      UntouchedHasNoPlaces(next);
      assert !w.Fits(next, reasoning);
      LongerStillOverflows(w, messages, next, reasoning, k);
      TrimIsGreedy(w, next, reasoning);
      ChoiceBehindTheTop(messages, next, Trimmed(w, next, reasoning), k);
    }
  }

  lemma OnlyTheTopIsOutOfRank(messages: seq<ModelMessage>, next: seq<ModelMessage>, k: nat, i: nat, j: nat)
    requires TopCompressed(messages, next, k) && SavingsFollowRank(next)
    requires i < |messages| && j < |messages| && Compressible(messages[i]) && Compressible(messages[j])
    requires Outranks(messages, i, j) && Saving(messages[i]) < Saving(messages[j])
    ensures i == k
  {
    hide Compressible, Compress, Saving;
    assert i != k ==> j != k && next[i] == messages[i] && next[j] == messages[j];
    assert i != k ==> Outranks(next, i, j);
  }

  lemma LongerStillOverflows(w: Accounting, messages: seq<ModelMessage>, next: seq<ModelMessage>,
                             reasoning: seq<AssistantReasoning>, k: nat)
    requires k < |messages| && Compressible(messages[k]) && next == messages[k := Compress(messages[k])]
    requires !w.Fits(next, reasoning)
    ensures !w.Fits(messages, reasoning)
  {
    hide CompressedToolResult, MessageCharacters, Accounting.Fits;
    CompressingSaves(messages, k);
    FewerCharactersFit(w, next, messages, reasoning);
  }

  /** The top ranked result saves less than another one: that one alone is the smaller choice. */
  lemma BetterSecond(messages: seq<ModelMessage>, reasoning: seq<AssistantReasoning>, tokens: nat,
                     next: seq<ModelMessage>, k: nat, j: nat)
    returns (w: Accounting, part: seq<ModelMessage>)
    requires tokens < U64_MAX && LargestCompressible(messages) == Some(k) && TopCompressed(messages, next, k)
    requires next == messages[k := Compress(messages[k])]
    requires j < |messages| && j != k && Compressible(messages[j]) && Saving(messages[k]) < Saving(messages[j])
    ensures w == CalibratedTo(tokens, part, reasoning)
    ensures IsChoice(messages, part) && w.Fits(part, reasoning)
    ensures |Places(messages, part)| < |Places(messages, Trimmed(w, messages, reasoning))|
  {
    hide CompressedToolResult, Compressible, CompressibleCount, Accounting.Fits, Saving, MessageCharacters;
    hide CalibratedTo;
    part := messages[j := Compress(messages[j])];
    w := CalibratedTo(tokens, part, reasoning);
    CompressingSaves(messages, j);
    CompressingSaves(messages, k);
    OnlyNoLongerListsFit(tokens, part, part, reasoning);
    OnlyNoLongerListsFit(tokens, part, next, reasoning);
    LongerStillOverflows(w, messages, next, reasoning, k);
    UntouchedHasNoPlaces(messages);
    assert Places(messages, part) == {j};
    TrimTakesTwo(w, messages, reasoning, next, k, j);
  }

  lemma TrimTakesTwo(w: Accounting, messages: seq<ModelMessage>, reasoning: seq<AssistantReasoning>,
                     next: seq<ModelMessage>, k: nat, j: nat)
    requires LargestCompressible(messages) == Some(k) && TopCompressed(messages, next, k)
    requires next == messages[k := Compress(messages[k])]
    requires j < |messages| && j != k && Compressible(messages[j])
    requires !w.Fits(messages, reasoning) && !w.Fits(next, reasoning)
    ensures |Places(messages, Trimmed(w, messages, reasoning))| >= 2
  {
    hide CompressedToolResult, Compressible, Compress, CompressibleCount, Accounting.Fits;
    LargestOutranksTheRest(next, |next|);
    assert next[j] == messages[j];
    var second := LargestCompressible(next).value;
    var third := OneTurn(next);
    var out := Trimmed(w, next, reasoning);
    TrimIsGreedy(w, next, reasoning);
    TrimIsGreedy(w, third, reasoning);
    ChoiceBehindTheTop(next, third, out, second);
    ChoiceBehindTheTop(messages, next, out, k);
    assert second in Places(next, out);
    assert {k, second} <= Places(messages, out);
    SubsetIsNoLarger({k, second}, Places(messages, out));
  }

  lemma {:induction false} SubsetIsNoLarger(a: set<nat>, b: set<nat>)
    requires a <= b
    ensures |a| <= |b|
  {
    if a == {} {
    } else {
      var x :| x in a;
      SubsetIsNoLarger(a - {x}, b - {x});
    }
  }

  /** Exactly when the trim compresses as few results as possible, for any calibrated size of window:
      when savings follow rank. */
  lemma TrimIsSmallestIffSavingsFollowRank(messages: seq<ModelMessage>, reasoning: seq<AssistantReasoning>)
    ensures (forall w: Accounting :: TrimIsSmallest(w, messages, reasoning)) <==> SavingsFollowRank(messages)
  {
    hide SavingsFollowRank, Trimmed, Accounting.Fits, CalibratedTo, Places;
    if SavingsFollowRank(messages) {
      forall w: Accounting ensures TrimIsSmallest(w, messages, reasoning) {
        forall part | IsChoice(messages, part) && |Places(messages, part)| < |Places(messages, Trimmed(w, messages, reasoning))|
          ensures !w.Fits(part, reasoning)
        {
          RankedSavingsMakeTheTrimSmallest(w, messages, reasoning, part);
        }
      }
    } else {
      var w, part := UnrankedSavingsHaveASmallerChoice(messages, reasoning, 0);
      assert !TrimIsSmallest(w, messages, reasoning);
    }
  }
}
