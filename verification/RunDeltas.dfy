/** What the executor shows of a run to the publication of its transient text: the order that the
    publication relies on is the order in which every run speaks. */
module RunDeltas {
  import opened ModelTypes
  import opened RunEvents
  import opened RunHistory
  import opened RunProtocol
  import opened RunReadings
  import opened RunRounds
  import opened RunStatus
  import opened SessionTypes
  import opened Text
  import opened TextDeltas

  /** What reaches the publication: text of a model step, or a committed row - with its step when it
      is one's. */
  datatype Mark = Said(step: nat, channel: Channel, text: string) | RowBy(ofStep: Option<nat>)

  /** The step of the round that was asked for last. */
  function CurrentStep(h: History): nat {
    if RequestCount(h) == 0 then 0 else RequestCount(h) - 1
  }

  function SpokenIn(step: nat, fact: Option<ModelEvent>): seq<Mark> {
    match fact
    case Some(TextDelta(content)) => [Said(step, AnswerChannel, content)]
    case Some(ReasoningDelta(content)) => if content == "" then [] else [Said(step, ReasoningChannel, content)]
    case _ => []
  }

  function PlainRows(n: nat): seq<Mark> {
    seq(n, _ => RowBy(None))
  }

  /** What one happening shows. */
  function Shown(past: History, latest: Happening): seq<Mark> {
    match latest
    case Heard(_) => SpokenIn(CurrentStep(past), TakenFact(past, latest))
    case Appended(row) => [RowBy(if row.kind == AssistantRow then Some(CurrentStep(past)) else None)]
    case TurnsJoined(turns) => PlainRows(|turns|)
    case _ => []
  }

  /** What a run shows, in order. */
  function MarksOf(h: History): seq<Mark> {
    match h
    case Beginning => []
    case After(past, latest) => MarksOf(past) + Shown(past, latest)
  }

  /** What a publication was shown; its own flushes come from its cadence. */
  function MarksIn(script: seq<Action>): seq<Mark> {
    if script == [] then []
    else
      var before := MarksIn(script[..|script| - 1]);
      match script[|script| - 1]
      case Streamed(step, channel, text, _) => before + [Said(step, channel, text)]
      case Committed(_, ofStep) => before + [RowBy(ofStep)]
      case _ => before
  }

  // -------------------------------------------------------------- order of marks

  function MarkFloor(marks: seq<Mark>): nat {
    if marks == [] then 0
    else
      var before := MarkFloor(marks[..|marks| - 1]);
      match marks[|marks| - 1]
      case Said(step, _, _) => if before < step then step else before
      case RowBy(ofStep) => if ofStep.Some? && before < ofStep.value + 1 then ofStep.value + 1 else before
  }

  predicate Ordered(marks: seq<Mark>) {
    marks == [] ||
    (&& Ordered(marks[..|marks| - 1])
     && (marks[|marks| - 1].Said? ==> marks[|marks| - 1].step >= MarkFloor(marks[..|marks| - 1])))
  }

  lemma MarkPush(marks: seq<Mark>, mark: Mark)
    ensures Ordered(marks + [mark]) <==> Ordered(marks) && (mark.Said? ==> mark.step >= MarkFloor(marks))
    ensures MarkFloor(marks + [mark]) ==
              match mark
              case Said(step, _, _) => if MarkFloor(marks) < step then step else MarkFloor(marks)
              case RowBy(ofStep) =>
                if ofStep.Some? && MarkFloor(marks) < ofStep.value + 1 then ofStep.value + 1 else MarkFloor(marks)
  {
    assert (marks + [mark])[..|marks|] == marks;
  }

  lemma {:induction false} PlainRowsKeepOrder(marks: seq<Mark>, n: nat)
    requires Ordered(marks)
    ensures Ordered(marks + PlainRows(n)) && MarkFloor(marks + PlainRows(n)) == MarkFloor(marks)
  {
    if n == 0 {
      assert marks + PlainRows(0) == marks;
    } else {
      PlainRowsKeepOrder(marks, n - 1);
      MarkPush(marks + PlainRows(n - 1), RowBy(None));
      assert marks + PlainRows(n) == (marks + PlainRows(n - 1)) + [RowBy(None)];
    }
  }

  /** A script whose marks are ordered is in order. */
  lemma {:induction false} OrderedMarksMakeAnOrderlyScript(script: seq<Action>)
    requires Ordered(MarksIn(script)) && RunReturned !in script
    ensures InOrder(script) && Floor(script) == MarkFloor(MarksIn(script))
  {
    if script == [] {
    } else {
      var before := script[..|script| - 1];
      match script[|script| - 1]
      case Streamed(step, channel, text, _) =>
        MarkPush(MarksIn(before), Said(step, channel, text));
        OrderedMarksMakeAnOrderlyScript(before);
      case Committed(_, ofStep) =>
        MarkPush(MarksIn(before), RowBy(ofStep));
        OrderedMarksMakeAnOrderlyScript(before);
      case Flushed => OrderedMarksMakeAnOrderlyScript(before);
      case RunReturned => assert false;
    }
  }

  // --------------------------------------------------------------- every run

  /** The marks of a run are ordered, and a round that left no row yet may still speak for its step. */
  predicate SpeaksInOrder(marks: seq<Mark>, requests: nat, rows: nat) {
    && Ordered(marks)
    && MarkFloor(marks) <= requests
    && (rows == 0 && requests > 0 ==> MarkFloor(marks) <= requests - 1)
  }

  /** Every run speaks in order: no text of a model step comes behind that step's row or behind a
      later step's. */
  lemma {:induction false} EveryRunSpeaksInOrder(env: Environment, h: History)
    requires Orderly(env, h)
    ensures SpeaksInOrder(MarksOf(h), RequestCount(h), RowsThisRound(h))
  {
    match h
    case Beginning =>
    case After(past, latest) =>
      EveryRunSpeaksInOrder(env, past);
      OneRowPerRound(env, past);
      if latest.Requested? {
        assert MarksOf(past) + [] == MarksOf(past);
      } else {
        ShownKeepsOrder(env, past, latest);
      }
  }

  lemma ShownKeepsOrder(env: Environment, past: History, latest: Happening)
    requires SpeaksInOrder(MarksOf(past), RequestCount(past), RowsThisRound(past))
    requires CountsRows(RowsThisRound(past), RequestCount(past), StandingOf(past).phase)
    requires Allowed(env, StandingOf(past), latest) && !latest.Requested?
    ensures SpeaksInOrder(MarksOf(After(past, latest)), RequestCount(past), RowsThisRound(After(past, latest)))
  {
    hide StandingOf, TakenFact, Ordered, MarkFloor, PlainRows, FailureOf, IsUnattachable;
    var marks := MarksOf(past);
    var step := CurrentStep(past);
    assert marks + [] == marks;
    match latest
    case Heard(_) =>
      match TakenFact(past, latest) {
        case Some(TextDelta(content)) => MarkPush(marks, Said(step, AnswerChannel, content));
        case Some(ReasoningDelta(content)) => MarkPush(marks, Said(step, ReasoningChannel, content));
        case _ =>
      }
    case Appended(row) => MarkPush(marks, RowBy(if row.kind == AssistantRow then Some(step) else None));
    case TurnsJoined(turns) => PlainRowsKeepOrder(marks, |turns|);
    case _ =>
  }

  // ---------------------------------------------------- what the publication may rely on

  /** A script that is what the run showed - flushed whenever, followed by anyone or no one, and
      closed when the run returned. */
  predicate Publishes(h: History, live: seq<Action>, rest: seq<Action>) {
    && MarksIn(live) == MarksOf(h) && RunReturned !in live
    && forall i :: 0 <= i < |rest| ==> !rest[i].Streamed?
  }

  lemma {:induction false} NothingStreamedKeepsOrder(live: seq<Action>, rest: seq<Action>)
    requires InOrder(live) && forall i :: 0 <= i < |rest| ==> !rest[i].Streamed?
    ensures InOrder(live + rest)
  {
    if rest == [] {
      assert live + rest == live;
    } else {
      var script := live + rest;
      assert script[..|script| - 1] == live + rest[..|rest| - 1];
      NothingStreamedKeepsOrder(live, rest[..|rest| - 1]);
    }
  }

  /** The publication keeps its promises for every run of the executor, without assuming any order:
      nothing of a step is published behind its row, and what was published of a step is a prefix of
      what the step streamed while somebody followed. */
  lemma PublicationFollowsTheRun(env: Environment, h: History, live: seq<Action>, rest: seq<Action>,
                                 channel: Channel, step: nat)
    requires Orderly(env, h) && Publishes(h, live, rest)
    ensures InOrder(live + rest)
    ensures Closed(TextDeltas.After(live + rest), live + rest)
    ensures Faithful(TextDeltas.After(live + rest), live + rest, channel, step)
  {
    hide Closed, Faithful, InOrder, Ordered, Orderly;
    EveryRunSpeaksInOrder(env, h);
    OrderedMarksMakeAnOrderlyScript(live);
    NothingStreamedKeepsOrder(live, rest);
    NoTextBehindItsRow(live + rest);
    PublishedIsAPrefix(live + rest, channel, step);
  }

  // ------------------------------------------------------ what a follower saw of an answer

  /** The text a list of marks holds for one step and channel. */
  function MarkedText(marks: seq<Mark>, step: nat, channel: Channel): string {
    if marks == [] then ""
    else
      var last := marks[|marks| - 1];
      MarkedText(marks[..|marks| - 1], step, channel) +
      (if last.Said? && last.step == step && last.channel == channel then last.text else "")
  }

  lemma MarkedPush(marks: seq<Mark>, mark: Mark, step: nat, channel: Channel)
    ensures MarkedText(marks + [mark], step, channel) ==
              MarkedText(marks, step, channel) +
              (if mark.Said? && mark.step == step && mark.channel == channel then mark.text else "")
  {
    assert (marks + [mark])[..|marks|] == marks;
  }

  lemma {:induction false} RowsSayNothing(marks: seq<Mark>, n: nat, step: nat, channel: Channel)
    ensures MarkedText(marks + PlainRows(n), step, channel) == MarkedText(marks, step, channel)
  {
    if n == 0 {
      assert marks + PlainRows(0) == marks;
    } else {
      RowsSayNothing(marks, n - 1, step, channel);
      MarkedPush(marks + PlainRows(n - 1), RowBy(None), step, channel);
      assert marks + PlainRows(n) == (marks + PlainRows(n - 1)) + [RowBy(None)];
      assert MarkedText(marks, step, channel) + "" == MarkedText(marks, step, channel);
    }
  }

  lemma {:induction false} ScriptSaysItsMarks(script: seq<Action>, step: nat, channel: Channel)
    ensures StreamedText(script, step, channel) == MarkedText(MarksIn(script), step, channel)
  {
    if script == [] {
    } else {
      var before := script[..|script| - 1];
      ScriptSaysItsMarks(before, step, channel);
      var text := StreamedText(before, step, channel);
      assert text + "" == text;
      match script[|script| - 1]
      case Streamed(s, c, t, _) => MarkedPush(MarksIn(before), Said(s, c, t), step, channel);
      case Committed(_, ofStep) => MarkedPush(MarksIn(before), RowBy(ofStep), step, channel);
      case _ =>
    }
  }

  /** What a run shows under its current step is the text of its current round; it shows nothing
      under a later step. */
  lemma {:induction false} RoundsAreMarked(env: Environment, h: History, step: nat)
    requires Orderly(env, h)
    ensures RequestCount(h) > 0 && step == CurrentStep(h) ==>
              MarkedText(MarksOf(h), step, AnswerChannel) == RoundText(h)
    ensures step >= RequestCount(h) ==> MarkedText(MarksOf(h), step, AnswerChannel) == ""
  {
    match h
    case Beginning =>
    case After(past, latest) =>
      RoundsAreMarked(env, past, step);
      OneRowPerRound(env, past);
      if latest.Requested? {
        assert MarksOf(past) + [] == MarksOf(past);
      } else {
        ShownIsMarked(env, past, latest, step);
      }
  }

  lemma ShownIsMarked(env: Environment, past: History, latest: Happening, step: nat)
    requires Allowed(env, StandingOf(past), latest) && !latest.Requested?
    requires CountsRows(RowsThisRound(past), RequestCount(past), StandingOf(past).phase)
    ensures var more := if latest.Heard? && step == CurrentStep(past) then TextOf(TakenFact(past, latest)) else "";
            MarkedText(MarksOf(After(past, latest)), step, AnswerChannel)
              == MarkedText(MarksOf(past), step, AnswerChannel) + more
    ensures latest.Heard? ==> RequestCount(past) > 0
    ensures RoundText(After(past, latest)) == RoundText(past)
              + (if latest.Heard? then TextOf(TakenFact(past, latest)) else "")
    ensures RoundText(past) + "" == RoundText(past)
  {
    hide StandingOf, TakenFact, MarkedText, PlainRows, FailureOf, IsUnattachable;
    var marks := MarksOf(past);
    var text := MarkedText(marks, step, AnswerChannel);
    assert marks + [] == marks && text + "" == text;
    match latest
    case Heard(_) =>
      match TakenFact(past, latest) {
        case Some(TextDelta(content)) =>
          MarkedPush(marks, Said(CurrentStep(past), AnswerChannel, content), step, AnswerChannel);
        case Some(ReasoningDelta(content)) =>
          MarkedPush(marks, Said(CurrentStep(past), ReasoningChannel, content), step, AnswerChannel);
        case _ =>
      }
    case Appended(row) =>
      MarkedPush(marks, RowBy(if row.kind == AssistantRow then Some(CurrentStep(past)) else None), step, AnswerChannel);
      NoFactIn(past, latest);
    case TurnsJoined(turns) =>
      RowsSayNothing(marks, |turns|, step, AnswerChannel);
      NoFactIn(past, latest);
    case _ => NoFactIn(past, latest);
  }

  lemma NoFactIn(past: History, latest: Happening)
    requires !latest.Heard?
    ensures TakenFact(past, latest) == None
  {
  }

  predicate SaysBelow(marks: seq<Mark>, bound: nat) {
    forall mark :: mark in marks && mark.Said? ==> mark.step < bound
  }

  /** A run shows text only under steps it was asked for. */
  lemma {:induction false} StepsWereAsked(env: Environment, h: History)
    requires Orderly(env, h)
    ensures SaysBelow(MarksOf(h), RequestCount(h))
  {
    match h
    case Beginning =>
    case After(past, latest) =>
      StepsWereAsked(env, past);
      OneRowPerRound(env, past);
      hide StandingOf, TakenFact, FailureOf, IsUnattachable, Orderly;
      assert latest.Heard? ==> RequestCount(past) > 0;
  }

  lemma {:induction false} StreamedIsMarked(script: seq<Action>, i: nat)
    requires i < |script| && script[i].Streamed?
    ensures Said(script[i].step, script[i].channel, script[i].text) in MarksIn(script)
  {
    if i == |script| - 1 {
    } else {
      StreamedIsMarked(script[..|script| - 1], i);
    }
  }

  /** Who followed a run throughout has seen, when the row of an answer is out, exactly what the row
      says - up to whitespace - unless the step streamed more than the bound between two flushes. */
  lemma FollowersSawTheAnswer(scope: Scope, past: History, row: Row, live: seq<Action>)
    requires Safe(scope, After(past, Appended(row))) && row.kind == AssistantRow
    requires Publishes(After(past, Appended(row)), live, []) && AlwaysFollowed(live)
    requires live != [] && !live[|live| - 1].Streamed?
    requires !Overflowed(live, CurrentStep(past), AnswerChannel)
    ensures NonWhitespace(PublishedText(TextDeltas.After(live).outgoing, CurrentStep(past), AnswerChannel))
            == NonWhitespace(RowAnswer(row))
  {
    hide Orderly, NeverLags, RowsAreMeant, RequestsFaithful, AttemptsBeginClean, FailuresAreFinal, RowsKeepTheirText;
    hide NonWhitespace, Overflowed, PublishedText, AlwaysFollowed, MarksOf, MarksIn, LegalPath, StandingOf;
    AnswerIsSeen(scope.env, past, row, live);
  }

  lemma AnswerIsSeen(env: Environment, past: History, row: Row, live: seq<Action>)
    requires IsKeptUp(env, After(past, Appended(row))) && row.kind == AssistantRow
    requires MarksIn(live) == MarksOf(After(past, Appended(row))) && RunReturned !in live && AlwaysFollowed(live)
    requires live != [] && !live[|live| - 1].Streamed?
    requires !Overflowed(live, CurrentStep(past), AnswerChannel)
    ensures NonWhitespace(PublishedText(TextDeltas.After(live).outgoing, CurrentStep(past), AnswerChannel))
            == NonWhitespace(RowAnswer(row))
  {
    hide Orderly, NeverLags, RowsAreMeant, IsLatest, Overflowed, InOrder, MarksIn, MarksOf, AlwaysFollowed;
    hide PublishedText, OfferedText, StreamedText, MarkedText, TextDeltas.After, NonWhitespace, Ordered, CurrentStep;
    hide RoundText, RowAnswer;
    var h, step := After(past, Appended(row)), CurrentStep(past);
    RowSpellsItsRound(env, past, row);
    AnswerIsMarked(env, past, row);
    OrderedMarksMakeAnOrderlyScript(live);
    AllIsOffered(live, step, AnswerChannel);
    ScriptSaysItsMarks(live, step, AnswerChannel);
    LatestOfTheRun(env, h, live, step);
    FlushedWhole(live, step, AnswerChannel);
  }

  /** The marks behind an answer's row: in order, with the answer's round under its step. */
  lemma AnswerIsMarked(env: Environment, past: History, row: Row)
    requires Orderly(env, After(past, Appended(row))) && row.kind == AssistantRow
    ensures var h, step := After(past, Appended(row)), CurrentStep(past);
            && Ordered(MarksOf(h)) && RequestCount(h) <= step + 1
            && MarkedText(MarksOf(h), step, AnswerChannel) == RoundText(past)
  {
    var h := After(past, Appended(row));
    EveryRunSpeaksInOrder(env, h);
    OneRowPerRound(env, past);
    RoundsAreMarked(env, h, CurrentStep(past));
    NoFactIn(past, Appended(row));
    hide MarksOf, MarkedText, Ordered, MarkFloor, StandingOf, TakenFact;
    assert RoundText(past) + "" == RoundText(past);
  }

  lemma LatestOfTheRun(env: Environment, h: History, live: seq<Action>, step: nat)
    requires Orderly(env, h) && MarksIn(live) == MarksOf(h) && RequestCount(h) <= step + 1
    ensures IsLatest(live, step, AnswerChannel)
  {
    StepsWereAsked(env, h);
    forall i | 0 <= i < |live| && live[i].Streamed? ensures live[i].step <= step {
      StreamedIsMarked(live, i);
    }
  }
}
