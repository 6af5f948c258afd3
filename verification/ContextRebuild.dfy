/** Rebuilding the model context of a starting run from its committed transcript rows. */
module ContextRebuild {
  import opened ModelTypes
  import opened RunEvents
  import opened RunHistory
  import opened Text

  /** One committed row, as far as the rebuild looks at it. */
  datatype TranscriptRow = TranscriptRow(kind: RowKind, text: string, callId: Option<CallId>, toolName: Option<string>)

  // ------------------------------------------------- which rows replay, declared

  predicate IsResult(row: TranscriptRow, id: CallId) {
    row.kind == ToolResultRow && row.callId == Some(id)
  }

  predicate IsCall(row: TranscriptRow, id: CallId) {
    row.kind == ToolCallRow && row.callId == Some(id)
  }

  /** The first of the first `n` rows that answers the call. */
  function FirstResultAmong(rows: seq<TranscriptRow>, id: CallId, n: nat): (first: Option<nat>)
    requires n <= |rows|
    ensures first.Some? ==> first.value < n && IsResult(rows[first.value], id)
    ensures forall j :: 0 <= j < n && IsResult(rows[j], id) ==> first.Some? && first.value <= j
  {
    if n == 0 then None
    else
      var before := FirstResultAmong(rows, id, n - 1);
      if before.None? && IsResult(rows[n - 1], id) then Some(n - 1) else before
  }

  function FirstResult(rows: seq<TranscriptRow>, id: CallId): Option<nat> {
    FirstResultAmong(rows, id, |rows|)
  }

  predicate CalledBefore(rows: seq<TranscriptRow>, id: CallId, n: nat)
    requires n <= |rows|
  {
    exists c :: 0 <= c < n && IsCall(rows[c], id)
  }

  /** A row replays when it carries context by itself, when it is a call whose first result comes
      later, or when it is the first result of a call that came earlier. */
  predicate Replays(rows: seq<TranscriptRow>, i: nat)
    requires i < |rows|
  {
    var row := rows[i];
    match row.kind
    case UserRow => true
    case NoticeRow => true
    case AssistantRow => !IsBlank(row.text)
    case ToolCallRow => row.callId.Some? && FirstResult(rows, row.callId.value).Some? && FirstResult(rows, row.callId.value).value > i
    case ToolResultRow => row.callId.Some? && FirstResult(rows, row.callId.value) == Some(i) && CalledBefore(rows, row.callId.value, i)
  }

  function MessageOf(row: TranscriptRow): ModelMessage {
    match row.kind
    case UserRow => ModelMessage(User, row.text, [], None, false)
    case NoticeRow => ModelMessage(Notice, row.text, [], None, false)
    case AssistantRow => ModelMessage(Assistant, row.text, [], None, false)
    case ToolCallRow =>
      if row.callId.Some? && row.toolName.Some?
      then ModelMessage(Assistant, "", [ToolCall(row.callId.value, row.toolName.value, row.text)], None, false)
      else ModelMessage(Assistant, "", [], None, false)
    case ToolResultRow => ModelMessage(Tool, row.text, [], row.callId, false)
  }

  /** The replayed messages of the first `n` rows, in row order. */
  function ReplayOf(rows: seq<TranscriptRow>, n: nat): seq<ModelMessage>
    requires n <= |rows|
  {
    if n == 0 then []
    else ReplayOf(rows, n - 1) + (if Replays(rows, n - 1) then [MessageOf(rows[n - 1])] else [])
  }

  /** A row the rebuild rejects: a tool row without its identity, or a replayed row whose message
      the constructors refuse. */
  predicate Rejected(rows: seq<TranscriptRow>, i: nat, isJsonObject: string -> bool)
    requires i < |rows|
  {
    var row := rows[i];
    match row.kind
    case UserRow => IsBlank(row.text)
    case NoticeRow => IsBlank(row.text)
    case AssistantRow => false
    case ToolCallRow =>
      row.callId.None? || (Replays(rows, i) && (row.toolName.None? || IsBlank(row.toolName.value) || !isJsonObject(row.text)))
    case ToolResultRow =>
      row.callId.None? || (Replays(rows, i) && IsBlank(row.text))
  }

  // --------------------------------------------------------- the two-pass code

  /** First pass: where each call is first answered. */
  method FirstResults(rows: seq<TranscriptRow>) returns (first: map<CallId, nat>)
    ensures forall id :: id in first <==> FirstResult(rows, id).Some?
    ensures forall id :: id in first ==> first[id] == FirstResult(rows, id).value
  {
    first := map[];
    var i := 0;
    while i < |rows|
      invariant 0 <= i <= |rows|
      invariant forall id :: id in first <==> FirstResultAmong(rows, id, i).Some?
      invariant forall id :: id in first ==> first[id] == FirstResultAmong(rows, id, i).value
    {
      var row := rows[i];
      if row.kind == ToolResultRow && row.callId.Some? && row.callId.value !in first {
        first := first[row.callId.value := i];
      }
      i := i + 1;
    }
  }

  function NewToolCall(id: CallId, name: string, arguments: string, isJsonObject: string -> bool): Result<ToolCall> {
    if IsBlank(name) || !isJsonObject(arguments) then Err(InvalidValue) else Ok(ToolCall(id, name, arguments))
  }

  /** Second pass over one row. The set holds the replayed calls that no result answered yet. */
  method ReplayRow(rows: seq<TranscriptRow>, i: nat, first: map<CallId, nat>, awaiting: set<CallId>, isJsonObject: string -> bool)
    returns (r: Result<seq<ModelMessage>>, left: set<CallId>)
    requires i < |rows|
    requires forall id :: id in first <==> FirstResult(rows, id).Some?
    requires forall id :: id in first ==> first[id] == FirstResult(rows, id).value
    requires forall id :: id in awaiting <==> Awaited(rows, id, i)
    ensures r.Ok? <==> !Rejected(rows, i, isJsonObject)
    ensures r.Ok? ==> r.value == (if Replays(rows, i) then [MessageOf(rows[i])] else [])
    ensures r.Ok? ==> forall id :: id in left <==> Awaited(rows, id, i + 1)
  {
    hide IsBlank;
    AwaitedStep(rows, i);
    var row := rows[i];
    left := awaiting;
    match row.kind {
      case UserRow =>
        var message :- NewMessage(User, row.text);
        return Ok([message]), left;
      case AssistantRow =>
        if IsBlank(row.text) {
          return Ok([]), left;
        }
        var message := NewMessage(Assistant, row.text);
        return Ok([message.value]), left;
      case NoticeRow =>
        var message :- NewMessage(Notice, row.text);
        return Ok([message]), left;
      case ToolCallRow =>
        if row.callId.None? {
          return Err(InvalidValue), left;
        }
        var id := row.callId.value;
        if id !in first || first[id] <= i {
          return Ok([]), left;
        }
        if row.toolName.None? {
          return Err(InvalidValue), left;
        }
        var call :- NewToolCall(id, row.toolName.value, row.text, isJsonObject);
        var message := AssistantToolCalls([call]);
        return Ok([message.value]), left + {id};
      case ToolResultRow =>
        if row.callId.None? {
          return Err(InvalidValue), left;
        }
        var id := row.callId.value;
        if id !in left {
          return Ok([]), left;
        }
        var message :- ToolResult(id, row.text);
        return Ok([message]), left - {id};
    }
  }

  /** A call that replayed among the first `n` rows and whose first result is still ahead. */
  predicate Awaited(rows: seq<TranscriptRow>, id: CallId, n: nat)
    requires n <= |rows|
  {
    FirstResult(rows, id).Some? && FirstResult(rows, id).value >= n && CalledBefore(rows, id, n)
  }

  lemma AwaitedStep(rows: seq<TranscriptRow>, i: nat)
    requires i < |rows|
    ensures forall id :: Awaited(rows, id, i + 1) <==>
              || (Awaited(rows, id, i) && !IsResult(rows[i], id))
              || (IsCall(rows[i], id) && FirstResult(rows, id).Some? && FirstResult(rows, id).value > i)
    ensures forall id :: IsResult(rows[i], id) ==>
              (Awaited(rows, id, i) <==> FirstResult(rows, id) == Some(i) && CalledBefore(rows, id, i))
  {
    hide FirstResultAmong;
    forall id
      ensures Awaited(rows, id, i + 1) <==>
        || (Awaited(rows, id, i) && !IsResult(rows[i], id))
        || (IsCall(rows[i], id) && FirstResult(rows, id).Some? && FirstResult(rows, id).value > i)
    {
      if CalledBefore(rows, id, i) {
        var c :| 0 <= c < i && IsCall(rows[c], id);
        assert CalledBefore(rows, id, i + 1);
      }
    }
  }

  /** The rebuild: succeeds exactly when no row is rejected, and then yields the declared replay. */
  method ModelContextMessages(rows: seq<TranscriptRow>, isJsonObject: string -> bool) returns (r: Result<seq<ModelMessage>>)
    ensures r.Ok? <==> forall i: nat :: i < |rows| ==> !Rejected(rows, i, isJsonObject)
    ensures r.Ok? ==> r.value == ReplayOf(rows, |rows|)
  {
    hide Rejected, Replays, FirstResultAmong, MessageOf;
    var first := FirstResults(rows);
    var awaiting: set<CallId> := {};
    var messages: seq<ModelMessage> := [];
    var i := 0;
    while i < |rows|
      invariant 0 <= i <= |rows|
      invariant messages == ReplayOf(rows, i)
      invariant forall id :: id in awaiting <==> Awaited(rows, id, i)
      invariant forall j: nat :: j < i ==> !Rejected(rows, j, isJsonObject)
    {
      var replayed: Result<seq<ModelMessage>>;
      replayed, awaiting := ReplayRow(rows, i, first, awaiting, isJsonObject);
      if replayed.Err? {
        return Err(replayed.fault);
      }
      messages := messages + replayed.value;
      i := i + 1;
    }
    return Ok(messages);
  }

  // ----------------------------------------------------- what a replay promises

  /** Every kept row has its place, and places follow row order. */
  lemma {:induction false} Placed(rows: seq<TranscriptRow>, i: nat, n: nat)
    requires i < n <= |rows| && Replays(rows, i)
    ensures |ReplayOf(rows, i)| < |ReplayOf(rows, n)|
    ensures ReplayOf(rows, n)[|ReplayOf(rows, i)|] == MessageOf(rows[i])
    decreases n
  {
    hide Replays, MessageOf;
    if i == n - 1 {
    } else {
      Placed(rows, i, n - 1);
    }
  }

  /** Every message comes from one kept row. */
  lemma {:induction false} Source(rows: seq<TranscriptRow>, p: nat, n: nat) returns (i: nat)
    requires n <= |rows| && p < |ReplayOf(rows, n)|
    ensures i < n && Replays(rows, i) && |ReplayOf(rows, i)| == p
    ensures ReplayOf(rows, n)[p] == MessageOf(rows[i])
    decreases n
  {
    hide Replays, MessageOf;
    if p < |ReplayOf(rows, n - 1)| {
      i := Source(rows, p, n - 1);
    } else {
      i := n - 1;
    }
  }

  lemma {:induction false} PlacesAscend(rows: seq<TranscriptRow>, i: nat, j: nat)
    requires i <= j <= |rows|
    ensures |ReplayOf(rows, i)| <= |ReplayOf(rows, j)|
    decreases j
  {
    if i == j {
    } else {
      PlacesAscend(rows, i, j - 1);
    }
  }

  /** Every replayed call is answered later, so no tool-call message stays open. */
  lemma EveryCallIsAnswered(rows: seq<TranscriptRow>, p: nat)
    requires p < |ReplayOf(rows, |rows|)| && ReplayOf(rows, |rows|)[p].toolCalls != []
    ensures exists q: nat :: p < q < |ReplayOf(rows, |rows|)| && Answers(ReplayOf(rows, |rows|)[q], ReplayOf(rows, |rows|)[p].toolCalls[0])
  {
    hide ReplayOf, FirstResultAmong, IsBlank;
    var i := Source(rows, p, |rows|);
    var id := rows[i].callId.value;
    var j := FirstResult(rows, id).value;
    assert IsResult(rows[j], id) by {
      FirstResultAnswers(rows, id);
    }
    assert IsCall(rows[i], id) && CalledBefore(rows, id, j);
    Placed(rows, i, j);
    Placed(rows, j, |rows|);
    var q := |ReplayOf(rows, j)|;
    assert Answers(ReplayOf(rows, |rows|)[q], ReplayOf(rows, |rows|)[p].toolCalls[0]);
  }

  lemma FirstResultAnswers(rows: seq<TranscriptRow>, id: CallId)
    requires FirstResult(rows, id).Some?
    ensures FirstResult(rows, id).value < |rows| && IsResult(rows[FirstResult(rows, id).value], id)
  {
  }

  /** Every replayed result answers a call replayed before it. */
  lemma EveryResultFollowsItsCall(rows: seq<TranscriptRow>, q: nat, isJsonObject: string -> bool)
    requires forall i: nat :: i < |rows| ==> !Rejected(rows, i, isJsonObject)
    requires q < |ReplayOf(rows, |rows|)| && ReplayOf(rows, |rows|)[q].role == Tool
    ensures exists p: nat :: p < q && ReplayOf(rows, |rows|)[p].toolCalls != []
              && Answers(ReplayOf(rows, |rows|)[q], ReplayOf(rows, |rows|)[p].toolCalls[0])
  {
    hide ReplayOf, FirstResultAmong, IsBlank;
    var j := Source(rows, q, |rows|);
    var id := rows[j].callId.value;
    var c :| 0 <= c < j && IsCall(rows[c], id);
    assert Replays(rows, c) && !Rejected(rows, c, isJsonObject);
    Placed(rows, c, j);
    Placed(rows, c, |rows|);
    var p := |ReplayOf(rows, c)|;
    assert Answers(ReplayOf(rows, |rows|)[q], ReplayOf(rows, |rows|)[p].toolCalls[0]);
  }

  /** Each call identity gets at most one result message. */
  lemma OneResultPerCall(rows: seq<TranscriptRow>, p: nat, q: nat)
    requires p < |ReplayOf(rows, |rows|)| && q < |ReplayOf(rows, |rows|)|
    requires ReplayOf(rows, |rows|)[p].role == Tool && ReplayOf(rows, |rows|)[q].role == Tool
    requires ReplayOf(rows, |rows|)[p].toolCallId == ReplayOf(rows, |rows|)[q].toolCallId
    ensures p == q
  {
    hide ReplayOf, FirstResultAmong, IsBlank, CalledBefore;
    var i := Source(rows, p, |rows|);
    var j := Source(rows, q, |rows|);
  }

  /** Two tool-call rows of one identity that both stand before that identity's first result. */
  predicate CallsCollide(rows: seq<TranscriptRow>, i: nat, j: nat, id: CallId) {
    && i < j < |rows| && IsCall(rows[i], id) && IsCall(rows[j], id)
    && FirstResult(rows, id).Some? && FirstResult(rows, id).value > j
  }

  /** Two replayed messages that make the same call. */
  predicate CallsRepeat(replay: seq<ModelMessage>, p: nat, q: nat) {
    && p < q < |replay| && replay[p].toolCalls != [] && replay[q].toolCalls != []
    && replay[p].toolCalls[0].callId == replay[q].toolCalls[0].callId
  }

  /** Exactly when each result answers one replayed call message: a replay makes every call once if
      and only if no two call rows collide. */
  lemma OneCallPerResult(rows: seq<TranscriptRow>, isJsonObject: string -> bool)
    requires forall i: nat :: i < |rows| ==> !Rejected(rows, i, isJsonObject)
    ensures (exists p: nat, q: nat :: CallsRepeat(ReplayOf(rows, |rows|), p, q))
            <==> exists i: nat, j: nat, id :: CallsCollide(rows, i, j, id)
  {
    hide CallsRepeat, CallsCollide, Rejected;
    if exists i: nat, j: nat, id :: CallsCollide(rows, i, j, id) {
      var i: nat, j: nat, id :| CallsCollide(rows, i, j, id);
      CollidingCallsRepeat(rows, i, j, id, isJsonObject);
    }
    if exists p: nat, q: nat :: CallsRepeat(ReplayOf(rows, |rows|), p, q) {
      var p: nat, q: nat :| CallsRepeat(ReplayOf(rows, |rows|), p, q);
      var i, j, id := RepeatedCallsCollide(rows, p, q);
    }
  }

  lemma CollidingCallsRepeat(rows: seq<TranscriptRow>, i: nat, j: nat, id: CallId, isJsonObject: string -> bool)
    requires CallsCollide(rows, i, j, id)
    requires forall k: nat :: k < |rows| ==> !Rejected(rows, k, isJsonObject)
    ensures CallsRepeat(ReplayOf(rows, |rows|), |ReplayOf(rows, i)|, |ReplayOf(rows, j)|)
  {
    hide ReplayOf, FirstResultAmong, IsBlank, CalledBefore;
    assert !Rejected(rows, i, isJsonObject) && !Rejected(rows, j, isJsonObject);
    Placed(rows, i, |rows|);
    Placed(rows, j, |rows|);
    Placed(rows, i, j);
  }

  lemma RepeatedCallsCollide(rows: seq<TranscriptRow>, p: nat, q: nat) returns (i: nat, j: nat, id: CallId)
    requires CallsRepeat(ReplayOf(rows, |rows|), p, q)
    ensures CallsCollide(rows, i, j, id)
  {
    hide ReplayOf, FirstResultAmong, IsBlank, CalledBefore;
    i := Source(rows, p, |rows|);
    j := Source(rows, q, |rows|);
    id := rows[i].callId.value;
    if j <= i {
      PlacesAscend(rows, j, i);
    }
  }

  /** Colliding call rows do occur: two call rows with one identity and a
      single result replay as two calls, and only one result message answers them. */
  lemma RepeatedCallRowsShareOneResult()
    ensures var call := TranscriptRow(ToolCallRow, "{}", Some(7), Some("read"));
            var result := TranscriptRow(ToolResultRow, "done", Some(7), Some("read"));
            ReplayOf([call, call, result], 3) == [MessageOf(call), MessageOf(call), MessageOf(result)]
  {
    var call := TranscriptRow(ToolCallRow, "{}", Some(7), Some("read"));
    var result := TranscriptRow(ToolResultRow, "done", Some(7), Some("read"));
    var rows := [call, call, result];
    assert FirstResultAmong(rows, 7, 1) == None;
    assert FirstResultAmong(rows, 7, 2) == None;
    assert FirstResult(rows, 7) == Some(2);
    assert IsCall(rows[0], 7) && CalledBefore(rows, 7, 2);
    assert ReplayOf(rows, 1) == [MessageOf(call)];
    assert ReplayOf(rows, 2) == [MessageOf(call), MessageOf(call)];
  }
}
