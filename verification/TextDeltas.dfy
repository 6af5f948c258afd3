/** The transient text of one run: what the engine streams is held in one bounded window per channel
    and published at a cadence, and before the committed row that supersedes it. */
module TextDeltas {
  import opened Text
  import opened ModelTypes
  import opened SessionTypes

  const RUN_TEXT_DELTA_MAX_BYTES: nat := 8 * 1024

  /** One channel's window. `dropped` says that its step crossed the bound. */
  datatype PendingText = PendingText(step: nat, text: string, dropped: bool)

  const EMPTY_WINDOW := PendingText(0, "", false)

  /** What is handed to the host's broadcast, in order. A row carries the model step it commits,
      when it is one's. */
  datatype Outgoing = DeltaOut(step: nat, channel: Channel, text: string) | RowOut(row: MessageRow, ofStep: Option<nat>)

  datatype State = State(reasoning: PendingText, answer: PendingText, outgoing: seq<Outgoing>)

  const INITIAL := State(EMPTY_WINDOW, EMPTY_WINDOW, [])

  datatype Action =
    | Streamed(step: nat, channel: Channel, text: string, followed: bool)
    | Flushed
    | Committed(row: MessageRow, ofStep: Option<nat>)
    | RunReturned

  function Window(s: State, channel: Channel): PendingText {
    match channel
    case ReasoningChannel => s.reasoning
    case AnswerChannel => s.answer
  }

  function WithWindow(s: State, channel: Channel, window: PendingText): State {
    match channel
    case ReasoningChannel => s.(reasoning := window)
    case AnswerChannel => s.(answer := window)
  }

  /** One chunk into its channel's window: another step replaces what was pending, and a step whose
      window would cross the bound loses it and the rest of its text. */
  function Chunked(window: PendingText, step: nat, text: string): PendingText {
    var current := if window.step != step then PendingText(step, "", false) else window;
    if current.dropped then current
    else if Bytes(current.text) + Bytes(text) > RUN_TEXT_DELTA_MAX_BYTES then current.(text := "", dropped := true)
    else current.(text := current.text + text)
  }

  function FlushedChannel(s: State, channel: Channel): State {
    var window := Window(s, channel);
    var emptied := WithWindow(s, channel, window.(text := ""));
    if IsBlank(window.text) then emptied
    else emptied.(outgoing := s.outgoing + [DeltaOut(window.step, channel, window.text)])
  }

  function FlushedBoth(s: State): State {
    FlushedChannel(FlushedChannel(s, ReasoningChannel), AnswerChannel)
  }

  function Next(s: State, action: Action): State {
    match action
    case Streamed(step, channel, text, followed) =>
      if text == "" || !followed then s else WithWindow(s, channel, Chunked(Window(s, channel), step, text))
    case Flushed => FlushedBoth(s)
    case Committed(row, step) =>
      var flushed := FlushedBoth(s);
      flushed.(outgoing := flushed.outgoing + [RowOut(row, step)])
    case RunReturned =>
      s.(reasoning := s.reasoning.(text := "", dropped := false), answer := s.answer.(text := "", dropped := false))
  }

  function After(script: seq<Action>): State {
    if script == [] then INITIAL else Next(After(script[..|script| - 1]), script[|script| - 1])
  }

  // ------------------------------------------------------------------ readings

  /** What a step streamed on one channel. */
  function StreamedText(script: seq<Action>, step: nat, channel: Channel): string {
    if script == [] then ""
    else
      var last := script[|script| - 1];
      StreamedText(script[..|script| - 1], step, channel) +
      (if last.Streamed? && last.step == step && last.channel == channel then last.text else "")
  }

  /** What of it was streamed while somebody followed. */
  function OfferedText(script: seq<Action>, step: nat, channel: Channel): string {
    if script == [] then ""
    else
      OfferedText(script[..|script| - 1], step, channel) +
      (if Offers(script[|script| - 1], step, channel) then script[|script| - 1].text else "")
  }

  predicate Offers(action: Action, step: nat, channel: Channel) {
    action.Streamed? && action.followed && action.step == step && action.channel == channel
  }

  /** With a subscriber throughout, that is all of it. */
  lemma {:induction false} AllIsOffered(script: seq<Action>, step: nat, channel: Channel)
    requires AlwaysFollowed(script)
    ensures OfferedText(script, step, channel) == StreamedText(script, step, channel)
  {
    if script == [] {
    } else {
      AllIsOffered(script[..|script| - 1], step, channel);
    }
  }

  /** What was published of it. */
  function PublishedText(outgoing: seq<Outgoing>, step: nat, channel: Channel): string {
    if outgoing == [] then ""
    else
      var last := outgoing[|outgoing| - 1];
      PublishedText(outgoing[..|outgoing| - 1], step, channel) +
      (if last.DeltaOut? && last.step == step && last.channel == channel then last.text else "")
  }

  lemma PublishedPush(outgoing: seq<Outgoing>, last: Outgoing, step: nat, channel: Channel)
    ensures PublishedText(outgoing + [last], step, channel) ==
              PublishedText(outgoing, step, channel) +
              (if last.DeltaOut? && last.step == step && last.channel == channel then last.text else "")
  {
    assert (outgoing + [last])[..|outgoing|] == outgoing;
  }

  /** The lowest step the run may still stream: steps never go back, and a committed step is over. */
  function Floor(script: seq<Action>): nat {
    if script == [] then 0
    else
      var before := Floor(script[..|script| - 1]);
      match script[|script| - 1]
      case Streamed(step, _, _, _) => if before < step then step else before
      case Committed(_, step) => if step.Some? && before < step.value + 1 then step.value + 1 else before
      case _ => before
  }

  /** Steps come in order, and nothing is streamed once the run finished. */
  predicate InOrder(script: seq<Action>) {
    script == [] ||
    (&& InOrder(script[..|script| - 1])
     && (script[|script| - 1].Streamed? ==>
           && script[|script| - 1].step >= Floor(script[..|script| - 1])
           && RunReturned !in script[..|script| - 1]))
  }

  predicate AlwaysFollowed(script: seq<Action>) {
    forall i :: 0 <= i < |script| && script[i].Streamed? ==> script[i].followed
  }

  // ---------------------------------------------------------------- the windows

  /** A window never holds more than a frame may carry. */
  predicate Bounded(window: PendingText) {
    Bytes(window.text) <= RUN_TEXT_DELTA_MAX_BYTES && (window.dropped ==> window.text == "")
  }

  predicate WellFormed(out: Outgoing) {
    out.DeltaOut? ==> !IsBlank(out.text) && Bytes(out.text) <= RUN_TEXT_DELTA_MAX_BYTES
  }

  lemma ChunkedIsBounded(window: PendingText, step: nat, text: string)
    requires Bounded(window)
    ensures Bounded(Chunked(window, step, text))
  {
    var current := if window.step != step then PendingText(step, "", false) else window;
    BytesConcat(current.text, text);
  }

  /** Every frame carries text of one step and channel, and never more than the bound. */
  lemma {:induction false} EveryFrameIsWellFormed(script: seq<Action>)
    ensures var s := After(script);
            && Bounded(s.reasoning) && Bounded(s.answer)
            && forall i :: 0 <= i < |s.outgoing| ==> WellFormed(s.outgoing[i])
  {
    if script == [] {
    } else {
      var s := After(script[..|script| - 1]);
      EveryFrameIsWellFormed(script[..|script| - 1]);
      match script[|script| - 1]
      case Streamed(step, channel, text, followed) => ChunkedIsBounded(Window(s, channel), step, text);
      case _ =>
        assert Bytes("") == 0;
        hide Bytes;
    }
  }

  // --------------------------------------------------- published is a prefix

  /** How one step of one channel stands: what was published is a prefix of what was offered - all
      of it but the window's text, while the step is the current one and was not dropped. */
  predicate Faithful(s: State, script: seq<Action>, channel: Channel, step: nat) {
    var window := Window(s, channel);
    var offered := NonWhitespace(OfferedText(script, step, channel));
    var published := NonWhitespace(PublishedText(s.outgoing, step, channel));
    && window.step <= Floor(script)
    && published <= offered
    && (step > window.step ==> offered == "")
    && (step == window.step && !window.dropped && RunReturned !in script ==>
         published + NonWhitespace(window.text) == offered)
  }

  lemma FlushKeepsFaithful(s: State, script: seq<Action>, flushed: Channel, channel: Channel, step: nat)
    requires Faithful(s, script, channel, step) && Bounded(Window(s, channel))
    requires RunReturned in script ==> Window(s, channel).text == ""
    ensures Faithful(FlushedChannel(s, flushed), script, channel, step)
  {
    hide OfferedText, PublishedText, Floor, NonWhitespace, Bytes;
    var window := Window(s, channel);
    var published := PublishedText(s.outgoing, step, channel);
    EmptyIsBlank();
    BlankIffNoCharacters(Window(s, flushed).text);
    PublishedPush(s.outgoing, DeltaOut(Window(s, flushed).step, flushed, Window(s, flushed).text), step, channel);
    NonWhitespaceConcat(published, window.text);
    assert published + "" == published;
    assert NonWhitespace(published) + "" == NonWhitespace(published);
  }

  lemma StreamKeepsFaithful(s: State, script: seq<Action>, chunk: Action, channel: Channel, step: nat)
    requires Faithful(s, script, channel, step) && Bounded(Window(s, channel))
    requires chunk.Streamed? && chunk.step >= Floor(script) && RunReturned !in script
    ensures Faithful(Next(s, chunk), script + [chunk], channel, step)
  {
    hide OfferedText, PublishedText, Floor, NonWhitespace, Bytes;
    var window := Window(s, channel);
    var offered := OfferedText(script, step, channel);
    EmptyIsBlank();
    ScriptPush(script, chunk, step, channel);
    NonWhitespaceConcat(offered, chunk.text);
    NonWhitespaceConcat(window.text, chunk.text);
    assert offered + "" == offered && "" + chunk.text == chunk.text;
    assert NonWhitespace(offered) + "" == NonWhitespace(offered);
    assert "" + NonWhitespace(chunk.text) == NonWhitespace(chunk.text);
  }

  lemma ScriptPush(script: seq<Action>, last: Action, step: nat, channel: Channel)
    ensures OfferedText(script + [last], step, channel) ==
              OfferedText(script, step, channel) + (if Offers(last, step, channel) then last.text else "")
    ensures Floor(script + [last]) >= Floor(script)
    ensures last.Streamed? ==> Floor(script + [last]) >= last.step
    ensures last.Committed? && last.ofStep.Some? ==> Floor(script + [last]) > last.ofStep.value
  {
    assert (script + [last])[..|script|] == script;
  }

  lemma {:induction false} NothingWaitsBehindTheRun(script: seq<Action>)
    requires InOrder(script) && RunReturned in script
    ensures After(script).reasoning.text == "" && After(script).answer.text == ""
  {
    var before := script[..|script| - 1];
    assert script == before + [script[|script| - 1]];
    if RunReturned !in before {
    } else {
      NothingWaitsBehindTheRun(before);
    }
  }

  /** The text published for one step and channel is a prefix - on the characters trimming cannot
      remove - of what that step streamed on it while somebody followed. */
  lemma {:induction false} PublishedIsAPrefix(script: seq<Action>, channel: Channel, step: nat)
    requires InOrder(script)
    ensures Faithful(After(script), script, channel, step)
  {
    if script == [] {
      EmptyIsBlank();
    } else {
      var before := script[..|script| - 1];
      var last := script[|script| - 1];
      var s := After(before);
      PublishedIsAPrefix(before, channel, step);
      EveryFrameIsWellFormed(before);
      if RunReturned in before {
        NothingWaitsBehindTheRun(before);
      }
      assert script == before + [last];
      if last.Streamed? {
        StreamKeepsFaithful(s, before, last, channel, step);
      } else {
        OtherStepsKeepFaithful(s, before, last, channel, step);
      }
    }
  }

  lemma OtherStepsKeepFaithful(s: State, script: seq<Action>, action: Action, channel: Channel, step: nat)
    requires Faithful(s, script, channel, step) && Bounded(s.reasoning) && Bounded(s.answer) && !action.Streamed?
    requires RunReturned in script ==> s.reasoning.text == "" && s.answer.text == ""
    ensures Faithful(Next(s, action), script + [action], channel, step)
  {
    hide OfferedText, PublishedText, Floor, NonWhitespace, Bytes;
    EmptyIsBlank();
    ScriptPush(script, action, step, channel);
    assert OfferedText(script, step, channel) + "" == OfferedText(script, step, channel);
    if action.Flushed? || action.Committed? {
      FlushKeepsFaithful(s, script, ReasoningChannel, channel, step);
      var first := FlushedChannel(s, ReasoningChannel);
      FlushedIsBounded(s, ReasoningChannel);
      FlushKeepsFaithful(first, script, AnswerChannel, channel, step);
      if action.Committed? {
        var both := FlushedBoth(s);
        PublishedPush(both.outgoing, RowOut(action.row, action.ofStep), step, channel);
        assert PublishedText(both.outgoing, step, channel) + "" == PublishedText(both.outgoing, step, channel);
      }
    }
  }

  lemma FlushedIsBounded(s: State, channel: Channel)
    requires Bounded(s.reasoning) && Bounded(s.answer)
    ensures var next := FlushedChannel(s, channel);
            && Bounded(next.reasoning) && Bounded(next.answer)
            && (s.reasoning.text == "" ==> next.reasoning.text == "")
            && (s.answer.text == "" ==> next.answer.text == "")
  {
    assert Bytes("") == 0;
    hide Bytes;
  }

  // ------------------------------------------------------- when a window is dropped

  /** What a step offered on a channel since the last flush, committed row or end of the run. */
  function Unflushed(script: seq<Action>, step: nat, channel: Channel): string {
    if script == [] then ""
    else
      var before := Unflushed(script[..|script| - 1], step, channel);
      match script[|script| - 1]
      case Streamed(_, _, text, _) => if Offers(script[|script| - 1], step, channel) then before + text else before
      case _ => ""
  }

  /** At some point a step had offered more on a channel than one frame may carry. */
  predicate Overflowed(script: seq<Action>, step: nat, channel: Channel) {
    script != [] &&
    (|| Overflowed(script[..|script| - 1], step, channel)
     || Bytes(Unflushed(script, step, channel)) > RUN_TEXT_DELTA_MAX_BYTES)
  }

  /** A window is dropped exactly when its step overflowed, and otherwise holds all its step offered
      since the last flush; no later step offered any text. */
  ghost predicate Kept(window: PendingText, script: seq<Action>, channel: Channel) {
    && (window.dropped <==> Overflowed(script, window.step, channel))
    && (!window.dropped ==> window.text == Unflushed(script, window.step, channel))
    && (window.dropped ==> window.text == "")
    && window.step <= Floor(script)
    && forall step: nat :: step > window.step ==> SilentSoFar(script, step, channel)
  }

  predicate SilentSoFar(script: seq<Action>, step: nat, channel: Channel) {
    Unflushed(script, step, channel) == "" && !Overflowed(script, step, channel)
  }

  lemma UnflushedPush(script: seq<Action>, last: Action, step: nat, channel: Channel)
    ensures Unflushed(script + [last], step, channel) ==
              if !last.Streamed? then ""
              else Unflushed(script, step, channel) + (if Offers(last, step, channel) then last.text else "")
    ensures Overflowed(script + [last], step, channel) <==>
              || Overflowed(script, step, channel)
              || Bytes(Unflushed(script + [last], step, channel)) > RUN_TEXT_DELTA_MAX_BYTES
  {
    assert (script + [last])[..|script|] == script;
    assert Unflushed(script, step, channel) + "" == Unflushed(script, step, channel);
  }

  /** A window is dropped only over the bound: over every script in order, whoever followed and
      however it was flushed. */
  lemma {:induction false} DroppedIffOverflowed(script: seq<Action>, channel: Channel)
    requires InOrder(script) && RunReturned !in script
    ensures Kept(Window(After(script), channel), script, channel)
  {
    if script == [] {
    } else {
      var before, last := script[..|script| - 1], script[|script| - 1];
      DroppedIffOverflowed(before, channel);
      EveryFrameIsWellFormed(before);
      assert script == before + [last];
      hide After;
      WindowIsKept(After(before), before, last, channel);
    }
  }

  lemma WindowIsKept(s: State, script: seq<Action>, last: Action, channel: Channel)
    requires Kept(Window(s, channel), script, channel) && Bounded(Window(s, channel))
    requires last.Streamed? ==> last.step >= Floor(script)
    requires last != RunReturned
    ensures Kept(Window(Next(s, last), channel), script + [last], channel)
  {
    hide Floor, SilentSoFar, Overflowed, Unflushed, Bytes, OfferedText;
    var window, next := Window(s, channel), Window(Next(s, last), channel);
    ScriptPush(script, last, window.step, channel);
    WindowSteps(s, last, channel);
    forall step: nat | step > next.step ensures SilentSoFar(script + [last], step, channel) {
      StaysSilent(script, last, step, channel);
    }
    if next.step != window.step {
      FirstChunk(script, last, channel);
    } else {
      OneChunkMore(window, script, last, channel);
      WindowText(s, last, channel);
    }
  }

  /** What an action makes of the window when its step stays. */
  lemma WindowText(s: State, last: Action, channel: Channel)
    requires Bounded(Window(s, channel)) && last != RunReturned
    requires Window(Next(s, last), channel).step == Window(s, channel).step
    ensures var window, next := Window(s, channel), Window(Next(s, last), channel);
            var offers := Offers(last, window.step, channel);
            var over := offers && Bytes(window.text) + Bytes(last.text) > RUN_TEXT_DELTA_MAX_BYTES;
            && next.dropped == (window.dropped || over)
            && next.text == if window.dropped || over || !last.Streamed? then ""
                            else window.text + (if offers then last.text else "")
  {
    assert Bytes("") == 0 && Window(s, channel).text + "" == Window(s, channel).text;
    hide Bytes, IsBlank;
  }

  lemma StaysSilent(script: seq<Action>, last: Action, step: nat, channel: Channel)
    requires SilentSoFar(script, step, channel) && (Offers(last, step, channel) ==> last.text == "")
    ensures SilentSoFar(script + [last], step, channel)
  {
    UnflushedPush(script, last, step, channel);
    assert Bytes("") == 0;
    hide Bytes;
  }

  lemma FirstChunk(script: seq<Action>, chunk: Action, channel: Channel)
    requires chunk.Streamed? && Offers(chunk, chunk.step, channel) && SilentSoFar(script, chunk.step, channel)
    ensures Unflushed(script + [chunk], chunk.step, channel) == chunk.text
    ensures Overflowed(script + [chunk], chunk.step, channel) <==>
              Bytes("") + Bytes(chunk.text) > RUN_TEXT_DELTA_MAX_BYTES
  {
    UnflushedPush(script, chunk, chunk.step, channel);
    assert "" + chunk.text == chunk.text && Bytes("") == 0;
    hide Bytes;
  }

  /** The window's own step goes on, or something else happens. */
  lemma OneChunkMore(window: PendingText, script: seq<Action>, last: Action, channel: Channel)
    requires Kept(window, script, channel) && Bounded(window)
    ensures var offers := Offers(last, window.step, channel);
            && (!window.dropped ==>
                  && Unflushed(script + [last], window.step, channel) ==
                     (if !last.Streamed? then "" else window.text + (if offers then last.text else ""))
                  && (Overflowed(script + [last], window.step, channel) <==>
                      offers && Bytes(window.text) + Bytes(last.text) > RUN_TEXT_DELTA_MAX_BYTES))
            && (window.dropped ==> Overflowed(script + [last], window.step, channel))
  {
    UnflushedPush(script, last, window.step, channel);
    assert window.text + "" == window.text && Bytes("") == 0;
    if last.Streamed? {
      BytesConcat(window.text, last.text);
    }
    hide Bytes;
  }

  // --------------------------------------------------------- text published whole

  predicate Speaks(action: Action, channel: Channel) {
    action.Streamed? && Offers(action, action.step, channel) && action.text != ""
  }

  /** No later step of the channel offered text. */
  predicate IsLatest(script: seq<Action>, step: nat, channel: Channel) {
    forall i :: 0 <= i < |script| && Speaks(script[i], channel) ==> script[i].step <= step
  }

  lemma {:induction false} WindowIsOfTheLatest(script: seq<Action>, step: nat, channel: Channel)
    requires InOrder(script) && RunReturned !in script && IsLatest(script, step, channel)
    ensures Window(After(script), channel).step <= step
  {
    if script == [] {
    } else {
      var before, last := script[..|script| - 1], script[|script| - 1];
      WindowIsOfTheLatest(before, step, channel);
      assert script == before + [last];
      WindowSteps(After(before), last, channel);
    }
  }

  lemma WindowSteps(s: State, last: Action, channel: Channel)
    ensures Window(Next(s, last), channel).step ==
              if last.Streamed? && Offers(last, last.step, channel) && last.text != "" then last.step
              else Window(s, channel).step
  {
    hide Bytes, IsBlank;
  }

  /** A flush leaves nothing unpublished: if the step did not overflow, all it offered is out. */
  lemma FlushedWhole(script: seq<Action>, step: nat, channel: Channel)
    requires InOrder(script) && RunReturned !in script && script != []
    requires script[|script| - 1].Flushed? || script[|script| - 1].Committed?
    requires IsLatest(script, step, channel) && !Overflowed(script, step, channel)
    ensures NonWhitespace(PublishedText(After(script).outgoing, step, channel))
              == NonWhitespace(OfferedText(script, step, channel))
  {
    PublishedIsAPrefix(script, channel, step);
    DroppedIffOverflowed(script, channel);
    WindowIsOfTheLatest(script, step, channel);
    NothingUnflushed(script, step, channel);
    EmptyIsBlank();
    hide After, OfferedText, PublishedText, Overflowed, Unflushed, Floor, NonWhitespace;
    var published := NonWhitespace(PublishedText(After(script).outgoing, step, channel));
    assert published + "" == published;
  }

  lemma NothingUnflushed(script: seq<Action>, step: nat, channel: Channel)
    requires script != [] && !script[|script| - 1].Streamed?
    ensures Unflushed(script, step, channel) == ""
  {
  }

  /** Published text stays published. */
  lemma {:induction false} PublishedGrows(script: seq<Action>, k: nat, step: nat, channel: Channel)
    requires k <= |script|
    ensures PublishedText(After(script[..k]).outgoing, step, channel)
              <= PublishedText(After(script).outgoing, step, channel)
  {
    if k == |script| {
      assert script[..k] == script;
    } else {
      var before := script[..|script| - 1];
      PublishedGrows(before, k, step, channel);
      assert before[..k] == script[..k];
      NextPublishesMore(After(before), script[|script| - 1], step, channel);
    }
  }

  lemma NextPublishesMore(s: State, action: Action, step: nat, channel: Channel)
    ensures PublishedText(s.outgoing, step, channel) <= PublishedText(Next(s, action).outgoing, step, channel)
  {
    hide PublishedText, IsBlank, Bytes;
    var first := FlushedChannel(s, ReasoningChannel);
    FlushPublishesMore(s, ReasoningChannel, step, channel);
    FlushPublishesMore(first, AnswerChannel, step, channel);
    if action.Committed? {
      PublishedPush(FlushedBoth(s).outgoing, RowOut(action.row, action.ofStep), step, channel);
    }
  }

  lemma FlushPublishesMore(s: State, flushed: Channel, step: nat, channel: Channel)
    ensures PublishedText(s.outgoing, step, channel)
              <= PublishedText(FlushedChannel(s, flushed).outgoing, step, channel)
  {
    hide PublishedText, IsBlank;
    var window := Window(s, flushed);
    PublishedPush(s.outgoing, DeltaOut(window.step, flushed, window.text), step, channel);
  }

  lemma {:induction false} OfferedNoMore(script: seq<Action>, k: nat, step: nat, channel: Channel)
    requires k <= |script| && forall i :: k <= i < |script| ==> !Offers(script[i], step, channel)
    ensures OfferedText(script[..k], step, channel) == OfferedText(script, step, channel)
  {
    if k == |script| {
      assert script[..k] == script;
    } else {
      var before := script[..|script| - 1];
      OfferedNoMore(before, k, step, channel);
      assert before[..k] == script[..k];
      assert OfferedText(before, step, channel) + "" == OfferedText(before, step, channel);
    }
  }

  /** A step that never offered more than the bound between two flushes is published whole, up to
      whitespace, by the first flush or row behind its text, and stays so. */
  lemma TextIsPublishedWhole(script: seq<Action>, k: nat, step: nat, channel: Channel)
    requires InOrder(script) && 0 < k <= |script| && RunReturned !in script[..k]
    requires script[k - 1].Flushed? || script[k - 1].Committed?
    requires IsLatest(script[..k], step, channel) && !Overflowed(script[..k], step, channel)
    requires forall i :: k <= i < |script| ==> !Offers(script[i], step, channel)
    ensures NonWhitespace(PublishedText(After(script).outgoing, step, channel))
              == NonWhitespace(OfferedText(script, step, channel))
  {
    var live := script[..k];
    BeginningIsInOrder(script, k);
    FlushedWhole(live, step, channel);
    OfferedNoMore(script, k, step, channel);
    PublishedGrows(script, k, step, channel);
    PublishedIsAPrefix(script, channel, step);
    hide After, OfferedText, PublishedText, Floor, IsLatest, Overflowed, NonWhitespace;
    var sooner := PublishedText(After(live).outgoing, step, channel);
    var later := PublishedText(After(script).outgoing, step, channel);
    PrefixKeepsCharacters(sooner, later);
  }

  lemma PrefixKeepsCharacters(part: string, whole: string)
    requires part <= whole
    ensures NonWhitespace(part) <= NonWhitespace(whole)
  {
    assert whole == part + whole[|part|..];
    NonWhitespaceConcat(part, whole[|part|..]);
  }

  lemma {:induction false} BeginningIsInOrder(script: seq<Action>, k: nat)
    requires InOrder(script) && k <= |script|
    ensures InOrder(script[..k])
  {
    if k == |script| {
      assert script[..k] == script;
    } else {
      BeginningIsInOrder(script[..|script| - 1], k);
      assert script[..|script| - 1][..k] == script[..k];
    }
  }

  // ---------------------------------------------------- nothing behind its row

  predicate IsRowOf(out: Outgoing, step: nat) {
    out.RowOut? && out.ofStep == Some(step)
  }

  /** No delta of a step comes behind that step's committed row, nor behind a later step's. */
  ghost predicate RowsClose(outgoing: seq<Outgoing>) {
    forall i, j, n: nat :: 0 <= i < j < |outgoing| && IsRowOf(outgoing[i], n) && outgoing[j].DeltaOut? ==>
      outgoing[j].step > n
  }

  ghost predicate CommittedBelow(outgoing: seq<Outgoing>, bound: nat) {
    forall i, n: nat :: 0 <= i < |outgoing| && IsRowOf(outgoing[i], n) ==> n < bound
  }

  ghost predicate Closed(s: State, script: seq<Action>) {
    && RowsClose(s.outgoing)
    && CommittedBelow(s.outgoing, Floor(script))
    && (s.reasoning.text != "" ==> CommittedBelow(s.outgoing, s.reasoning.step))
    && (s.answer.text != "" ==> CommittedBelow(s.outgoing, s.answer.step))
  }

  lemma FlushKeepsClosed(s: State, script: seq<Action>, channel: Channel)
    requires Closed(s, script)
    ensures Closed(FlushedChannel(s, channel), script) && Window(FlushedChannel(s, channel), channel).text == ""
  {
    EmptyIsBlank();
    hide NonWhitespace;
  }

  /** A committed row supersedes its step's transient text: whatever was streamed, followed or
      flushed when, every delta behind the row belongs to a later step. */
  lemma {:induction false} NoTextBehindItsRow(script: seq<Action>)
    requires InOrder(script)
    ensures Closed(After(script), script)
  {
    if script == [] {
    } else {
      var before := script[..|script| - 1];
      var last := script[|script| - 1];
      var s := After(before);
      NoTextBehindItsRow(before);
      assert script == before + [last];
      ScriptPush(before, last, 0, AnswerChannel);
      match last
      case Streamed(step, channel, text, followed) => StreamKeepsClosed(s, before, script, last);
      case Flushed => FlushesKeepClosed(s, before, script);
      case Committed(row, ofStep) =>
        FlushesKeepClosed(s, before, script);
        RowKeepsClosed(FlushedBoth(s), script, row, ofStep);
      case RunReturned =>
    }
  }

  lemma StreamKeepsClosed(s: State, before: seq<Action>, script: seq<Action>, chunk: Action)
    requires Closed(s, before) && chunk.Streamed? && chunk.step >= Floor(before) && Floor(script) >= Floor(before)
    ensures Closed(Next(s, chunk), script)
  {
    hide Floor, Bytes;
  }

  lemma FlushesKeepClosed(s: State, before: seq<Action>, script: seq<Action>)
    requires Closed(s, before) && Floor(script) >= Floor(before)
    ensures Closed(FlushedBoth(s), script) && FlushedBoth(s).reasoning.text == FlushedBoth(s).answer.text == ""
  {
    hide Floor;
    FlushKeepsClosed(s, before, ReasoningChannel);
    FlushKeepsClosed(FlushedChannel(s, ReasoningChannel), before, AnswerChannel);
  }

  lemma RowKeepsClosed(s: State, script: seq<Action>, row: MessageRow, ofStep: Option<nat>)
    requires Closed(s, script) && s.reasoning.text == s.answer.text == ""
    requires ofStep.Some? ==> Floor(script) > ofStep.value
    ensures Closed(s.(outgoing := s.outgoing + [RowOut(row, ofStep)]), script)
  {
    hide Floor;
  }

  // ----------------------------------------------------------------- the object

  /** The transient publication of one admitted run. `outgoing` is what it handed to the host's
      broadcast; each method runs under the windows' lock. */
  class RunTextDeltas {
    var reasoning: PendingText
    var answer: PendingText
    var outgoing: seq<Outgoing>
    var finished: bool

    constructor ()
      ensures Now() == INITIAL && !finished
    {
      reasoning, answer, outgoing, finished := EMPTY_WINDOW, EMPTY_WINDOW, [], false;
    }

    function Now(): State
      reads this
    {
      State(reasoning, answer, outgoing)
    }

    method SetWindow(channel: Channel, window: PendingText)
      modifies this`reasoning, this`answer
      ensures Now() == WithWindow(old(Now()), channel, window)
    {
      match channel
      case ReasoningChannel => reasoning := window;
      case AnswerChannel => answer := window;
    }

    /** Text nobody follows is dropped instead of retained. */
    method TextDelta(step: nat, channel: Channel, text: string, hasSubscribers: bool)
      modifies this`reasoning, this`answer
      ensures Now() == Next(old(Now()), Streamed(step, channel, text, hasSubscribers))
    {
      if text == "" || !hasSubscribers {
        return;
      }
      var window := Window(Now(), channel);
      if window.step != step {
        window := PendingText(step, "", false);
      }
      if window.dropped {
        SetWindow(channel, window);
        return;
      }
      if Bytes(window.text) + Bytes(text) > RUN_TEXT_DELTA_MAX_BYTES {
        SetWindow(channel, window.(text := "", dropped := true));
        return;
      }
      SetWindow(channel, window.(text := window.text + text));
    }

    /** The reasoning before the answer it precedes; a window of whitespace is only emptied. */
    method Flush()
      modifies this`reasoning, this`answer, this`outgoing
      ensures Now() == Next(old(Now()), Flushed)
    {
      var channels := [ReasoningChannel, AnswerChannel];
      var i := 0;
      while i < |channels|
        invariant 0 <= i <= |channels|
        invariant Now() == (if i == 0 then old(Now())
                            else if i == 1 then FlushedChannel(old(Now()), ReasoningChannel)
                            else FlushedBoth(old(Now())))
      {
        var window := Window(Now(), channels[i]);
        SetWindow(channels[i], window.(text := ""));
        if !IsBlank(window.text) {
          outgoing := outgoing + [DeltaOut(window.step, channels[i], window.text)];
        }
        i := i + 1;
      }
    }

    /** Whatever the run had not published is discarded with it. */
    method Finish()
      modifies this`reasoning, this`answer, this`finished
      ensures Now() == Next(old(Now()), RunReturned) && finished
    {
      reasoning := reasoning.(text := "", dropped := false);
      answer := answer.(text := "", dropped := false);
      finished := true;
    }

    /** The run's transient text is published strictly before a committed row. */
    method ObserveContent(row: MessageRow, ofStep: Option<nat>)
      modifies this`reasoning, this`answer, this`outgoing
      ensures Now() == Next(old(Now()), Committed(row, ofStep))
    {
      Flush();
      outgoing := outgoing + [RowOut(row, ofStep)];
    }
  }
}
