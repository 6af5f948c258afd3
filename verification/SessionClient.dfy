/** A client's replica of one session: the newest committed rows, the run projection, and the
    transient text of the current model step. */
module SessionClient {
  import opened ModelTypes
  import opened RunStatus
  import opened SessionTypes
  import opened TranscriptRows

  datatype FrameUpdate = Unchanged | NewRow(id: MessageId) | NewRun(runId: RunId) | NewText(runId: RunId, step: nat)

  datatype Supersession = Supersession(row: MessageId, step: nat)

  // ------------------------------------------------------------ supersessions

  function FindStep(supersessions: seq<Supersession>, row: MessageId): Option<nat> {
    if supersessions == [] then None
    else if supersessions[0].row == row then Some(supersessions[0].step)
    else FindStep(supersessions[1..], row)
  }

  /** Drops the identity of every row that is not retained. */
  function Pruned(supersessions: seq<Supersession>, rows: seq<MessageRow>): seq<Supersession> {
    if supersessions == [] then []
    else (if Holds(rows, supersessions[0].row) then [supersessions[0]] else []) + Pruned(supersessions[1..], rows)
  }

  predicate NameRetainedRows(supersessions: seq<Supersession>, rows: seq<MessageRow>) {
    forall s :: s in supersessions ==> Holds(rows, s.row)
  }

  /** An identity lives exactly as long as its row. */
  lemma {:induction false} PruningForgetsOnlyDroppedRows(supersessions: seq<Supersession>, rows: seq<MessageRow>, id: MessageId)
    ensures NameRetainedRows(Pruned(supersessions, rows), rows)
    ensures FindStep(Pruned(supersessions, rows), id) == if Holds(rows, id) then FindStep(supersessions, id) else None
  {
    hide Holds;
    if supersessions == [] {
    } else {
      var rest := Pruned(supersessions[1..], rows);
      PruningForgetsOnlyDroppedRows(supersessions[1..], rows, id);
      if Holds(rows, supersessions[0].row) {
        assert ([supersessions[0]] + rest)[1..] == rest;
      } else {
        assert [] + rest == rest;
      }
    }
  }

  lemma PruningForgets(supersessions: seq<Supersession>, rows: seq<MessageRow>)
    ensures NameRetainedRows(Pruned(supersessions, rows), rows)
    ensures forall id :: FindStep(Pruned(supersessions, rows), id) == if Holds(rows, id) then FindStep(supersessions, id) else None
  {
    forall id ensures FindStep(Pruned(supersessions, rows), id) == if Holds(rows, id) then FindStep(supersessions, id) else None {
      PruningForgetsOnlyDroppedRows(supersessions, rows, id);
    }
    PruningForgetsOnlyDroppedRows(supersessions, rows, 0);
  }

  lemma {:induction false} FindStepPush(supersessions: seq<Supersession>, last: Supersession, id: MessageId)
    ensures FindStep(supersessions + [last], id) ==
              if FindStep(supersessions, id).Some? then FindStep(supersessions, id)
              else if last.row == id then Some(last.step) else None
  {
    if supersessions == [] {
    } else {
      assert (supersessions + [last])[1..] == supersessions[1..] + [last];
      FindStepPush(supersessions[1..], last, id);
    }
  }

  lemma {:induction false} FoundIsNamed(supersessions: seq<Supersession>, id: MessageId)
    requires FindStep(supersessions, id).Some?
    ensures exists s :: s in supersessions && s.row == id
  {
    if supersessions[0].row == id {
      assert supersessions[0] in supersessions;
    } else {
      FoundIsNamed(supersessions[1..], id);
    }
  }

  // -------------------------------------------------------------- epoch index

  /** How many marks are at or before an epoch. */
  function MarksUpTo(marks: seq<nat>, epoch: nat): (k: nat)
    ensures k <= |marks|
    ensures forall i :: 0 <= i < k ==> marks[i] <= epoch
    ensures k < |marks| ==> marks[k] > epoch
  {
    if marks == [] || marks[0] > epoch then 0 else 1 + MarksUpTo(marks[1..], epoch)
  }

  /** The marks are the consecutive epochs after the base. */
  predicate Consecutive(marks: seq<nat>, base: nat) {
    forall i :: 0 <= i < |marks| ==> marks[i] == base + 1 + i
  }

  lemma {:induction false} MarksAreCounted(marks: seq<nat>, base: nat, epoch: nat)
    requires Consecutive(marks, base) && base <= epoch <= base + |marks|
    ensures MarksUpTo(marks, epoch) == epoch - base
  {
    var k := MarksUpTo(marks, epoch);
    assert k < |marks| ==> marks[k] == base + 1 + k;
    assert k > 0 ==> marks[k - 1] == base + k;
  }

  /** The rows of an epoch that the append-only run still covers are a prefix of today's. */
  ghost predicate Indexed(past: map<nat, seq<MessageRow>>, rows: seq<MessageRow>, base: nat, epoch: nat) {
    forall e :: e in past && base <= e <= epoch ==>
                  epoch - e <= |rows| && past[e] == rows[..|rows| - (epoch - e)]
  }

  lemma IndexedPush(past: map<nat, seq<MessageRow>>, rows: seq<MessageRow>, row: MessageRow, base: nat, epoch: nat)
    requires Indexed(past, rows, base, epoch) && forall e :: e in past ==> e <= epoch
    ensures Indexed(past, rows + [row], base, epoch + 1)
  {
    forall e | e in past && base <= e <= epoch + 1
      ensures epoch + 1 - e <= |rows + [row]| && past[e] == (rows + [row])[..|rows + [row]| - (epoch + 1 - e)]
    {
      assert (rows + [row])[..|rows| - (epoch - e)] == rows[..|rows| - (epoch - e)];
    }
  }

  lemma IndexedNow(past: map<nat, seq<MessageRow>>, rows: seq<MessageRow>, base: nat, epoch: nat)
    requires Indexed(past, rows, base, epoch)
    ensures Indexed(past[epoch := rows], rows, base, epoch)
  {
  }

  lemma OnlyRetainedRowsAreFound(supersessions: seq<Supersession>, rows: seq<MessageRow>)
    requires NameRetainedRows(supersessions, rows)
    ensures forall id :: !Holds(rows, id) ==> FindStep(supersessions, id).None?
  {
    forall id | FindStep(supersessions, id).Some? ensures Holds(rows, id) {
      FoundIsNamed(supersessions, id);
    }
  }

  /** A committed assistant row takes the identity of the step it supersedes. */
  function WithSupersession(supersessions: seq<Supersession>, row: MessageRow, step: Option<nat>): seq<Supersession> {
    if row.kind.AssistantMessage? && step.Some? then supersessions + [Supersession(row.id, step.value)] else supersessions
  }

  /** What a committed row does to the identities: it may get its own, and those of dropped rows go. */
  lemma SupersessionsAfterRow(before: seq<Supersession>, held: seq<MessageRow>, row: MessageRow, step: Option<nat>)
    requires NameRetainedRows(before, held)
    ensures var rows := Newest(held + [row]);
            var after := Pruned(WithSupersession(before, row, step), rows);
            && NameRetainedRows(after, rows)
            && (!Holds(held, row.id) ==> FindStep(after, row.id) == if row.kind.AssistantMessage? then step else None)
            && forall id :: id != row.id ==> FindStep(after, id) == if Holds(rows, id) then FindStep(before, id) else None
  {
    var rows := Newest(held + [row]);
    var pushed := WithSupersession(before, row, step);
    OnlyRetainedRowsAreFound(before, held);
    NewestKeepsLast(held + [row]);
    assert rows[|rows| - 1] == row;
    PruningForgets(pushed, rows);
    if row.kind.AssistantMessage? && step.Some? {
      forall id ensures FindStep(pushed, id) ==
                          if FindStep(before, id).Some? then FindStep(before, id)
                          else if row.id == id then step else None
      {
        FindStepPush(before, Supersession(row.id, step.value), id);
      }
    }
  }

  // ------------------------------------------------------------- frames as seen

  /** What a client shows of its session. */
  datatype View = View(
    run: Option<RunProjection>,
    messages: seq<MessageRow>,
    supersessions: seq<Supersession>,
    step: Option<nat>,
    text: string,
    reasoning: string)

  function WithoutText(v: View): View {
    v.(step := None, text := "", reasoning := "")
  }

  function AfterRow(v: View, row: MessageRow): View {
    var cleared := if row.kind.AssistantMessage? then WithoutText(v) else v;
    if RepeatsLast(v.messages, row) then cleared
    else
      var rows := Newest(v.messages + [row]);
      cleared.(messages := rows, supersessions := Pruned(WithSupersession(v.supersessions, row, v.step), rows))
  }

  predicate OfCurrentRun(v: View, delta: TextDelta) {
    v.run.Some? && v.run.value.runId == delta.runId
  }

  /** Text of another run changes nothing; text of another step replaces both channels. */
  function AfterText(v: View, delta: TextDelta): View {
    if !OfCurrentRun(v, delta) then v
    else
      var current := if v.step == Some(delta.step) then v else WithoutText(v).(step := Some(delta.step));
      match delta.channel
      case AnswerChannel => current.(text := current.text + delta.text)
      case ReasoningChannel => current.(reasoning := current.reasoning + delta.text)
  }

  function AfterStatus(v: View, run: RunProjection): View {
    (if IsTerminal(run.status) then WithoutText(v) else v).(run := Some(run))
  }

  function AfterFrame(v: View, frame: SessionFrame): View {
    match frame
    case Content(row) => AfterRow(v, row)
    case RunStatusFrame(run) => AfterStatus(v, run)
    case Delta(delta) => AfterText(v, delta)
  }

  function UpdateOf(v: View, frame: SessionFrame): FrameUpdate {
    match frame
    case Content(row) => if RepeatsLast(v.messages, row) then Unchanged else NewRow(row.id)
    case RunStatusFrame(run) => if v.run == Some(run) then Unchanged else NewRun(run.runId)
    case Delta(delta) => if OfCurrentRun(v, delta) then NewText(delta.runId, delta.step) else Unchanged
  }

  function AfterFrames(v: View, frames: seq<SessionFrame>): View {
    if frames == [] then v else AfterFrame(AfterFrames(v, frames[..|frames| - 1]), frames[|frames| - 1])
  }

  function RowsIn(frames: seq<SessionFrame>): seq<MessageRow> {
    if frames == [] then []
    else
      RowsIn(frames[..|frames| - 1]) +
      (if frames[|frames| - 1].Content? then [frames[|frames| - 1].row] else [])
  }

  /** Only committed rows reach the transcript: whatever statuses and transient text arrive between
      them, it is the transcript the rows alone make. */
  lemma {:induction false} OnlyRowsReachTheTranscript(v: View, frames: seq<SessionFrame>)
    ensures AfterFrames(v, frames).messages == Followed(v.messages, RowsIn(frames))
  {
    hide Newest, Pruned;
    if frames == [] {
    } else {
      var before := frames[..|frames| - 1];
      var last := frames[|frames| - 1];
      OnlyRowsReachTheTranscript(v, before);
      if last.Content? {
        assert (RowsIn(before) + [last.row])[..|RowsIn(before)|] == RowsIn(before);
      } else {
        assert RowsIn(before) + [] == RowsIn(before);
      }
    }
  }

  /** A status frame shows its run, whatever run was shown before, and nothing else changes - but a run
      that ended takes its transient text along: neither channel shows anything, and no step streams,
      until new text arrives. */
  lemma {:induction false} AnEndedRunShowsNoText(v: View, run: RunProjection, rows: seq<SessionFrame>)
    requires forall i :: 0 <= i < |rows| ==> rows[i].Content?
    ensures var after := AfterFrames(AfterFrame(v, RunStatusFrame(run)), rows);
            && after.run == Some(run)
            && (IsTerminal(run.status) ==> after.step.None? && after.text == "" && after.reasoning == "")
    ensures AfterFrame(v, RunStatusFrame(run)).messages == v.messages
    ensures AfterFrame(v, RunStatusFrame(run)).supersessions == v.supersessions
    ensures !IsTerminal(run.status) ==> AfterFrame(v, RunStatusFrame(run)) == v.(run := Some(run))
  {
    hide Newest, Pruned;
    if rows == [] {
    } else {
      AnEndedRunShowsNoText(v, run, rows[..|rows| - 1]);
    }
  }

  /** Text of any other run than the one shown reaches nothing. */
  lemma {:induction false} TextOfOtherRunsIsIgnored(v: View, frames: seq<SessionFrame>)
    requires forall i :: 0 <= i < |frames| ==>
               frames[i].Delta? && (v.run.None? || frames[i].delta.runId != v.run.value.runId)
    ensures AfterFrames(v, frames) == v
    ensures frames != [] ==> UpdateOf(v, frames[|frames| - 1]) == Unchanged
  {
    if frames == [] {
    } else {
      TextOfOtherRunsIsIgnored(v, frames[..|frames| - 1]);
    }
  }

  /** What a frame reports is what it changed: a new row when the transcript is another one, a new run
      when the projection is, new text when the step shown is the frame's. Rows other than answers leave
      the transient text alone. */
  lemma UpdatesAreTrue(v: View, frame: SessionFrame)
    ensures var after, update := AfterFrame(v, frame), UpdateOf(v, frame);
            && (update.NewRow? <==> after.messages != v.messages)
            && (update.NewRun? <==> after.run != v.run)
            && (update.NewText? ==> frame.Delta? && after.step == Some(frame.delta.step) && after.run == v.run)
            && (frame.Delta? && update.Unchanged? ==> after == v)
            && (frame.Content? && !frame.row.kind.AssistantMessage? ==>
                  after.step == v.step && after.text == v.text && after.reasoning == v.reasoning)
            && (frame.Content? && frame.row.kind.AssistantMessage? ==> after.step.None? && after.text == "" && after.reasoning == "")
  {
    hide Pruned, WithSupersession;
    if frame.Content? {
      NewestKeepsLast(v.messages + [frame.row]);
      var rows := Newest(v.messages + [frame.row]);
      assert rows[|rows| - 1] == frame.row;
    }
  }

  /** Frames that are advance notice only: text of one run's step. */
  predicate IsTextOf(frames: seq<SessionFrame>, run: RunId, step: nat) {
    forall i :: 0 <= i < |frames| ==> frames[i].Delta? && frames[i].delta.runId == run && frames[i].delta.step == step
  }

  function ChannelText(frames: seq<SessionFrame>, channel: Channel): string {
    if frames == [] then ""
    else
      var last := frames[|frames| - 1];
      ChannelText(frames[..|frames| - 1], channel) +
      (if last.Delta? && last.delta.channel == channel then last.delta.text else "")
  }

  /** While one step streams, each channel shows exactly what arrived on it, and the committed
      answer of that step takes its place and its name. */
  lemma {:induction false} AStepStreamsAndIsSuperseded(v: View, frames: seq<SessionFrame>, step: nat, row: MessageRow)
    requires frames != [] && v.run.Some? && IsTextOf(frames, v.run.value.runId, step) && v.step != Some(step)
    ensures AfterFrames(v, frames) == v.(
              step := Some(step),
              text := ChannelText(frames, AnswerChannel),
              reasoning := ChannelText(frames, ReasoningChannel))
    ensures row.kind.AssistantMessage? && NameRetainedRows(v.supersessions, v.messages) && !Holds(v.messages, row.id) ==>
              var after := AfterRow(AfterFrames(v, frames), row);
              after.step.None? && after.text == "" && after.reasoning == "" && FindStep(after.supersessions, row.id) == Some(step)
  {
    hide Newest, Pruned, Holds, FindStep, NameRetainedRows;
    var before := frames[..|frames| - 1];
    var last := frames[|frames| - 1].delta;
    if before == [] {
      assert AfterFrames(v, before) == v;
      assert "" + last.text == last.text && "" + "" == "";
    } else {
      AStepStreamsAndIsSuperseded(v, before, step, row);
      assert ChannelText(before, AnswerChannel) + "" == ChannelText(before, AnswerChannel);
      assert ChannelText(before, ReasoningChannel) + "" == ChannelText(before, ReasoningChannel);
    }
    NotRepeated(v.messages, row);
    if NameRetainedRows(v.supersessions, v.messages) {
      SupersessionsAfterRow(v.supersessions, v.messages, row, Some(step));
    }
  }

  lemma NotRepeated(rows: seq<MessageRow>, row: MessageRow)
    ensures !Holds(rows, row.id) ==> !RepeatsLast(rows, row)
  {
  }

  class SessionStreamState {
    const session: SessionId
    var run: Option<RunProjection>
    var messages: seq<MessageRow>
    var supersessions: seq<Supersession>
    var epoch: nat
    var appendBase: nat
    var appends: seq<nat>
    var provisionalStep: Option<nat>
    var provisionalText: string
    var provisionalReasoning: string
    /** The transcript of every epoch a caller can have read. */
    ghost var past: map<nat, seq<MessageRow>>

    ghost predicate EpochsValid()
      reads this`epoch, this`appendBase, this`appends, this`messages, this`past
    {
      && Consecutive(appends, appendBase) && epoch == appendBase + |appends|
      && |appends| <= |messages|
      && (forall e :: e in past ==> e <= epoch)
      && Indexed(past, messages, appendBase, epoch)
    }

    ghost predicate Valid()
      reads this
    {
      && EpochsValid()
      && epoch in past && past[epoch] == messages
      && |messages| <= RETAINED_TRANSCRIPT_MESSAGES
      && NameRetainedRows(supersessions, messages)
      && (provisionalStep.None? ==> provisionalText == "" && provisionalReasoning == "")
    }

    function Current(): View
      reads this`run, this`messages, this`supersessions, this`provisionalStep, this`provisionalText, this`provisionalReasoning
    {
      View(run, messages, supersessions, provisionalStep, provisionalText, provisionalReasoning)
    }

    /** Every epoch a caller read before is still accounted for. */
    twostate predicate Remembers()
      reads this
    {
      forall e :: e in old(past) ==> e in past && past[e] == old(past[e])
    }

    constructor (session: SessionId)
      ensures Valid() && this.session == session && messages == [] && run.None? && supersessions == []
    {
      this.session := session;
      run, messages, supersessions, epoch, appendBase, appends := None, [], [], 0, 0, [];
      provisionalStep, provisionalText, provisionalReasoning := None, "", "";
      past := map[0 := []];
    }

    /** The newest rows of one durable snapshot. */
    constructor FromSnapshot(session: SessionId, rows: seq<MessageRow>, activeRun: Option<RunProjection>)
      ensures Valid() && this.session == session && run == activeRun
      ensures messages == Newest(rows) && supersessions == [] && provisionalStep.None?
      ensures appendBase == epoch > 0 && appends == [] && past == map[epoch := messages]
    {
      this.session := session;
      run, messages, supersessions, epoch, appendBase, appends := activeRun, rows, [], 0, 0, [];
      provisionalStep, provisionalText, provisionalReasoning := None, "", "";
      past := map[];
      new;
      RetainNewest();
      NoteReplacement();
      past := past[epoch := messages];
    }

    /** Records one appended row in the append-only run. */
    method NoteAppend()
      requires Consecutive(appends, appendBase) && epoch == appendBase + |appends|
      modifies this`epoch, this`appends
      ensures epoch == old(epoch) + 1 && Consecutive(appends, appendBase) && appends == old(appends) + [epoch]
    {
      epoch := epoch + 1;
      appends := appends + [epoch];
    }

    /** A mutation that is not an append ends the append-only run. */
    method NoteReplacement()
      requires forall e :: e in past ==> e <= epoch
      modifies this`epoch, this`appends, this`appendBase
      ensures epoch == old(epoch) + 1 == appendBase && appends == []
      ensures EpochsValid()
    {
      epoch := epoch + 1;
      appends := [];
      appendBase := epoch;
    }

    method RetainNewest()
      requires EpochsValid()
      modifies this`messages, this`supersessions, this`epoch, this`appends, this`appendBase
      ensures EpochsValid() && epoch >= old(epoch)
      ensures messages == Newest(old(messages))
      ensures supersessions == Pruned(old(supersessions), messages) && NameRetainedRows(supersessions, messages)
      ensures |old(messages)| > RETAINED_TRANSCRIPT_MESSAGES ==> epoch == old(epoch) + 1 == appendBase && appends == []
      ensures |old(messages)| <= RETAINED_TRANSCRIPT_MESSAGES ==>
                epoch == old(epoch) && appends == old(appends) && appendBase == old(appendBase)
    {
      if |messages| > RETAINED_TRANSCRIPT_MESSAGES {
        var excess := |messages| - RETAINED_TRANSCRIPT_MESSAGES;
        messages := messages[excess..];
        NoteReplacement();
      }
      PruningForgets(supersessions, messages);
      supersessions := Pruned(supersessions, messages);
    }

    method ClearProvisional()
      modifies this`provisionalStep, this`provisionalText, this`provisionalReasoning
      ensures provisionalStep.None? && provisionalText == "" && provisionalReasoning == ""
    {
      provisionalStep, provisionalText, provisionalReasoning := None, "", "";
    }

    /** The caller may read the epoch from here on. */
    ghost method RememberNow()
      requires EpochsValid() && epoch !in past
      modifies this`past
      ensures EpochsValid() && past == old(past)[epoch := messages]
    {
      IndexedNow(past, messages, appendBase, epoch);
      past := past[epoch := messages];
    }

    /** Merges another read of the same durable transcript by row identity. */
    method Reconcile(read: SessionStreamState) returns (r: Result<()>)
      requires Valid() && read != this
      modifies this
      ensures Valid() && Remembers()
      ensures r.Ok? <==> read.session == session
      ensures r.Ok? ==> messages == Reconciled(old(messages), read.messages) && run == read.run && provisionalStep.None?
      ensures r.Ok? ==> epoch > old(epoch) && appends == []
      ensures r.Ok? ==> supersessions == Pruned(old(supersessions), messages)
      ensures r.Err? ==> unchanged(this)
    {
      if read.session != session {
        return Err(InvalidValue);
      }
      Merge(read);
      return Ok(());
    }

    method Merge(read: SessionStreamState)
      requires Valid() && read != this
      modifies this
      ensures Valid() && Remembers()
      ensures messages == Reconciled(old(messages), read.messages) && run == read.run && provisionalStep.None?
      ensures epoch > old(epoch) && appends == []
      ensures supersessions == Pruned(old(supersessions), messages)
    {
      hide Indexed, Holds, Newest, Pruned, NameRetainedRows, Consecutive, SortById, NotKnown;
      messages := SortById(messages + NotKnown(read.messages, messages));
      run := read.run;
      ClearProvisional();
      NoteReplacement();
      RetainNewest();
      RememberNow();
    }

    /** The retained rows behind the one a caller last reported. */
    function RowsBehind(after: Option<MessageId>): (behind: seq<MessageRow>)
      reads this`messages
      ensures |behind| <= |messages| && behind == messages[|messages| - |behind|..]
      ensures Ascending(messages) ==>
                forall row :: row in behind <==> row in messages && (after.None? || row.id > after.value)
    {
      RowsAfter(messages, after)
    }

    /** The step whose transient text a retained row superseded. */
    function SupersededStep(row: MessageId): (step: Option<nat>)
      requires Valid()
      reads this
      ensures step.Some? ==> Holds(messages, row) && exists s :: s in supersessions && s.row == row
    {
      OnlyRetainedRowsAreFound(supersessions, messages);
      assert FindStep(supersessions, row).Some? ==> exists s :: s in supersessions && s.row == row by {
        if FindStep(supersessions, row).Some? {
          FoundIsNamed(supersessions, row);
        }
      }
      FindStep(supersessions, row)
    }

    /** How many rows were appended since an epoch, or `None` when the append-only run no longer
        reaches back to it. An answer is right: the transcript of that epoch is today's without the
        last so many rows. */
    method AppendedSince(since: nat) returns (count: Option<nat>)
      requires Valid()
      ensures count.None? <==> since > epoch || since < appendBase
      ensures count.Some? ==> count.value == epoch - since <= |messages|
      ensures count.Some? && since in past ==> past[since] == messages[..|messages| - count.value]
    {
      if since > epoch || since < appendBase {
        return None;
      }
      var before := MarksUpTo(appends, since);
      MarksAreCounted(appends, appendBase, since);
      return Some(|appends| - before);
    }

    method EndStream()
      requires Valid()
      modifies this`provisionalStep, this`provisionalText, this`provisionalReasoning
      ensures Valid() && Current() == WithoutText(old(Current()))
    {
      ClearProvisional();
    }

    method ApplyFrame(frame: SessionFrame) returns (r: Result<FrameUpdate>)
      requires Valid()
      modifies this
      ensures Valid() && Remembers()
      ensures r.Ok? <==> FrameSession(frame) == session
      ensures r.Err? ==> unchanged(this)
      ensures r.Ok? ==> Current() == AfterFrame(old(Current()), frame) && r.value == UpdateOf(old(Current()), frame)
      ensures !frame.Content? ==> epoch == old(epoch)
    {
      match frame
      case Content(row) => r := ApplyContent(row);
      case RunStatusFrame(active) => r := ApplyStatus(active);
      case Delta(delta) => r := ApplyTextDelta(delta);
    }

    method ApplyContent(row: MessageRow) returns (r: Result<FrameUpdate>)
      requires Valid()
      modifies this
      ensures Valid() && Remembers()
      ensures r.Ok? <==> row.session == session
      ensures r.Err? ==> unchanged(this)
      ensures r.Ok? ==>
                Current() == AfterFrame(old(Current()), Content(row)) && r.value == UpdateOf(old(Current()), Content(row))
      ensures r.Ok? ==> if r.value == NewRow(row.id) then epoch > old(epoch) else epoch == old(epoch)
    {
      hide Indexed, Holds, Newest, Pruned, NameRetainedRows, Consecutive;
      if row.session != session {
        return Err(InvalidValue);
      }
      var repeated := messages != [] && messages[|messages| - 1].id == row.id;
      if row.kind.AssistantMessage? {
        if !repeated && provisionalStep.Some? {
          supersessions := supersessions + [Supersession(row.id, provisionalStep.value)];
        }
        ClearProvisional();
      }
      if repeated {
        return Ok(Unchanged);
      }
      AppendRow(row);
      return Ok(NewRow(row.id));
    }

    method AppendRow(row: MessageRow)
      requires EpochsValid() && (provisionalStep.None? ==> provisionalText == "" && provisionalReasoning == "")
      modifies this`messages, this`supersessions, this`epoch, this`appends, this`appendBase, this`past
      ensures Valid() && Remembers()
      ensures messages == Newest(old(messages) + [row])
      ensures supersessions == Pruned(old(supersessions), messages)
      ensures if |old(messages)| < RETAINED_TRANSCRIPT_MESSAGES
              then epoch == old(epoch) + 1 && appendBase == old(appendBase) && appends == old(appends) + [epoch]
              else epoch == old(epoch) + 2 == appendBase && appends == []
    {
      hide Indexed, Holds, Pruned, NameRetainedRows;
      IndexedPush(past, messages, row, appendBase, epoch);
      messages := messages + [row];
      NoteAppend();
      RetainNewest();
      RememberNow();
    }

    /** Transient text belongs to the projected run and to one step; another step replaces it. */
    method ApplyTextDelta(delta: TextDelta) returns (r: Result<FrameUpdate>)
      requires Valid()
      modifies this`provisionalStep, this`provisionalText, this`provisionalReasoning
      ensures Valid()
      ensures r.Ok? <==> delta.session == session
      ensures r.Err? ==> Current() == old(Current())
      ensures r.Ok? ==>
                Current() == AfterFrame(old(Current()), Delta(delta)) && r.value == UpdateOf(old(Current()), Delta(delta))
    {
      if delta.session != session {
        return Err(InvalidValue);
      }
      if run.None? || run.value.runId != delta.runId {
        return Ok(Unchanged);
      }
      if provisionalStep != Some(delta.step) {
        provisionalStep := Some(delta.step);
        provisionalText := "";
        provisionalReasoning := "";
      }
      match delta.channel {
        case AnswerChannel => provisionalText := provisionalText + delta.text;
        case ReasoningChannel => provisionalReasoning := provisionalReasoning + delta.text;
      }
      return Ok(NewText(delta.runId, delta.step));
    }

    method ApplyStatus(active: RunProjection) returns (r: Result<FrameUpdate>)
      requires Valid()
      modifies this`run, this`provisionalStep, this`provisionalText, this`provisionalReasoning
      ensures Valid()
      ensures r.Ok? <==> active.session == session
      ensures r.Err? ==> unchanged(this)
      ensures r.Ok? ==>
                && Current() == AfterFrame(old(Current()), RunStatusFrame(active))
                && r.value == UpdateOf(old(Current()), RunStatusFrame(active))
    {
      if active.session != session {
        return Err(InvalidValue);
      }
      if IsTerminal(active.status) {
        ClearProvisional();
      }
      var changed := run != Some(active);
      run := Some(active);
      return Ok(if changed then NewRun(active.runId) else Unchanged);
    }
  }

  function FrameSession(frame: SessionFrame): SessionId {
    match frame
    case Content(row) => row.session
    case RunStatusFrame(run) => run.session
    case Delta(delta) => delta.session
  }
}
