/** Reassembling streamed function calls from their fragments. */
module ToolReassembly {
  import opened ModelTypes

  /** Which call a fragment belongs to: the choice, then the call's index in it. */
  type Key = (nat, nat)

  datatype FunctionDelta = FunctionDelta(name: Option<string>, arguments: Option<string>)

  datatype ToolChunk = ToolChunk(index: nat, id: Option<string>, delta: Option<FunctionDelta>)

  datatype Arrival = Arrival(key: Key, chunk: ToolChunk)

  datatype Fragments = Fragments(id: Option<string>, name: Option<string>, arguments: string)

  const NO_FRAGMENTS := Fragments(None, None, "")

  /** A value that may be repeated but never changed. `None` as result is the conflict. */
  function MergeConstant(slot: Option<string>, next: Option<string>): Option<Option<string>> {
    if next.None? then Some(slot)
    else if slot.Some? && slot.value != next.value then None
    else Some(next)
  }

  function Merge(fragments: Fragments, chunk: ToolChunk): Option<Fragments> {
    var id := MergeConstant(fragments.id, chunk.id);
    if id.None? then None
    else if chunk.delta.None? then Some(fragments.(id := id.value))
    else
      var name := MergeConstant(fragments.name, chunk.delta.value.name);
      if name.None? then None
      else
        var added := if chunk.delta.value.arguments.Some? then chunk.delta.value.arguments.value else "";
        Some(Fragments(id.value, name.value, fragments.arguments + added))
  }

  // --------------------------------------------------- one call on its own

  /** The fragments of one call alone, in arrival order. */
  function MergeOwn(chunks: seq<ToolChunk>): Option<Fragments> {
    if chunks == [] then Some(NO_FRAGMENTS)
    else
      match MergeOwn(chunks[..|chunks| - 1])
      case None => None
      case Some(before) => Merge(before, chunks[|chunks| - 1])
  }

  function Own(arrivals: seq<Arrival>, key: Key): seq<ToolChunk> {
    if arrivals == [] then []
    else
      var last := arrivals[|arrivals| - 1];
      Own(arrivals[..|arrivals| - 1], key) + (if last.key == key then [last.chunk] else [])
  }

  function ArgumentsOf(chunk: ToolChunk): string {
    if chunk.delta.Some? && chunk.delta.value.arguments.Some? then chunk.delta.value.arguments.value else ""
  }

  function ConcatArguments(chunks: seq<ToolChunk>): string {
    if chunks == [] then "" else ConcatArguments(chunks[..|chunks| - 1]) + ArgumentsOf(chunks[|chunks| - 1])
  }

  /** A reassembled call is what its own fragments say: every name and identity given is the one
      kept, and the arguments are the concatenation in arrival order. */
  lemma {:induction false} OwnFragmentsAgree(chunks: seq<ToolChunk>, k: nat)
    requires MergeOwn(chunks).Some? && k < |chunks|
    ensures chunks[k].id.Some? ==> MergeOwn(chunks).value.id == chunks[k].id
    ensures chunks[k].delta.Some? && chunks[k].delta.value.name.Some? ==> MergeOwn(chunks).value.name == chunks[k].delta.value.name
  {
    var before := chunks[..|chunks| - 1];
    if k < |before| {
      assert before[k] == chunks[k];
      OwnFragmentsAgree(before, k);
    }
  }

  /** The name a fragment gives. */
  function NameIn(chunk: ToolChunk): Option<string> {
    if chunk.delta.Some? then chunk.delta.value.name else None
  }

  /** Two fragments give different identities, or different names. */
  predicate Contradict(a: ToolChunk, b: ToolChunk) {
    || (a.id.Some? && b.id.Some? && a.id != b.id)
    || (NameIn(a).Some? && NameIn(b).Some? && NameIn(a) != NameIn(b))
  }

  /** What is kept was given by some fragment. */
  lemma {:induction false} KeptWasGiven(chunks: seq<ToolChunk>)
    requires MergeOwn(chunks).Some?
    ensures MergeOwn(chunks).value.id.Some? ==> exists k :: 0 <= k < |chunks| && chunks[k].id == MergeOwn(chunks).value.id
    ensures MergeOwn(chunks).value.name.Some? ==>
              exists k :: 0 <= k < |chunks| && NameIn(chunks[k]) == MergeOwn(chunks).value.name
  {
    if chunks == [] {
    } else {
      var before, last := chunks[..|chunks| - 1], chunks[|chunks| - 1];
      KeptWasGiven(before);
      assert chunks[|before|] == last && forall k :: 0 <= k < |before| ==> chunks[k] == before[k];
    }
  }

  /** A call conflicts exactly when two of its fragments contradict each other: repeating a value is
      allowed, changing it is not. */
  lemma {:induction false} ConflictIffContradiction(chunks: seq<ToolChunk>)
    ensures MergeOwn(chunks).None? <==> exists i, j :: 0 <= i < j < |chunks| && Contradict(chunks[i], chunks[j])
  {
    if chunks == [] {
    } else {
      var before, last := chunks[..|chunks| - 1], chunks[|chunks| - 1];
      ConflictIffContradiction(before);
      assert chunks[|before|] == last && forall k :: 0 <= k < |before| ==> chunks[k] == before[k];
      if MergeOwn(before).None? {
        var i, j :| 0 <= i < j < |before| && Contradict(before[i], before[j]);
        assert Contradict(chunks[i], chunks[j]);
      } else {
        LastConflicts(before, last);
        if MergeOwn(chunks).None? {
          var k :| 0 <= k < |before| && Contradict(before[k], last);
          assert Contradict(chunks[k], chunks[|before|]);
        } else {
          forall i, j | 0 <= i < j < |chunks| ensures !Contradict(chunks[i], chunks[j]) {
            if j < |before| {
              assert !Contradict(before[i], before[j]);
            } else {
              assert !Contradict(before[i], last);
            }
          }
        }
      }
    }
  }

  /** The next fragment conflicts exactly when it contradicts one before it. */
  lemma LastConflicts(before: seq<ToolChunk>, last: ToolChunk)
    requires MergeOwn(before).Some?
    ensures Merge(MergeOwn(before).value, last).None? <==> exists k :: 0 <= k < |before| && Contradict(before[k], last)
  {
    KeptWasGiven(before);
    forall k: nat | k < |before| && Contradict(before[k], last) ensures Merge(MergeOwn(before).value, last).None? {
      OwnFragmentsAgree(before, k);
    }
    hide MergeOwn;
    var kept := MergeOwn(before).value;
    if kept.id.Some? && last.id.Some? && kept.id != last.id {
      var k :| 0 <= k < |before| && before[k].id == kept.id;
      assert Contradict(before[k], last);
    } else if kept.name.Some? && NameIn(last).Some? && kept.name != NameIn(last) {
      var k :| 0 <= k < |before| && NameIn(before[k]) == kept.name;
      assert Contradict(before[k], last);
    }
  }

  lemma {:induction false} OwnArgumentsConcatenate(chunks: seq<ToolChunk>)
    requires MergeOwn(chunks).Some?
    ensures MergeOwn(chunks).value.arguments == ConcatArguments(chunks)
  {
    if chunks == [] {
    } else {
      OwnArgumentsConcatenate(chunks[..|chunks| - 1]);
    }
  }

  // ----------------------------------------------- all calls of one response

  /** The state the translator keeps: merge every arrival into its own call. */
  function MergeAll(arrivals: seq<Arrival>): Option<map<Key, Fragments>> {
    if arrivals == [] then Some(map[])
    else
      match MergeAll(arrivals[..|arrivals| - 1])
      case None => None
      case Some(tools) => MergeInto(tools, arrivals[|arrivals| - 1])
  }

  function FragmentsAt(tools: map<Key, Fragments>, key: Key): Fragments {
    if key in tools then tools[key] else NO_FRAGMENTS
  }

  function MergeInto(tools: map<Key, Fragments>, arrival: Arrival): Option<map<Key, Fragments>> {
    match Merge(FragmentsAt(tools, arrival.key), arrival.chunk)
    case None => None
    case Some(merged) => Some(tools[arrival.key := merged])
  }

  lemma MergeAllStep(arrivals: seq<Arrival>, arrival: Arrival)
    requires MergeAll(arrivals).Some?
    ensures MergeAll(arrivals + [arrival]) == MergeInto(MergeAll(arrivals).value, arrival)
  {
    assert (arrivals + [arrival])[..|arrivals|] == arrivals;
  }

  /** Calls do not disturb each other: with no conflict, each key holds exactly what its own
      fragments merge to. */
  lemma {:induction false} EachCallOnItsOwn(arrivals: seq<Arrival>, key: Key)
    requires MergeAll(arrivals).Some?
    ensures key in MergeAll(arrivals).value <==> Own(arrivals, key) != []
    ensures MergeOwn(Own(arrivals, key)) == Some(FragmentsAt(MergeAll(arrivals).value, key))
  {
    hide Merge;
    if arrivals == [] {
    } else {
      var before := arrivals[..|arrivals| - 1];
      var last := arrivals[|arrivals| - 1];
      EachCallOnItsOwn(before, key);
      if last.key == key {
        OwnPush(Own(before, key), last.chunk);
      } else {
        assert Own(arrivals, key) == Own(before, key);
      }
    }
  }

  lemma OwnPush(chunks: seq<ToolChunk>, chunk: ToolChunk)
    ensures MergeOwn(chunks).Some? ==> MergeOwn(chunks + [chunk]) == Merge(MergeOwn(chunks).value, chunk)
    ensures MergeOwn(chunks).None? ==> MergeOwn(chunks + [chunk]).None?
  {
    assert (chunks + [chunk])[..|chunks|] == chunks;
  }

  /** The fragments of this call contradict each other. */
  predicate Conflicts(arrivals: seq<Arrival>, key: Key) {
    MergeOwn(Own(arrivals, key)).None?
  }

  /** A conflict is some call's own conflict. */
  lemma {:induction false} ConflictsAreOwn(arrivals: seq<Arrival>)
    ensures MergeAll(arrivals).Some? <==> forall key :: !Conflicts(arrivals, key)
  {
    if arrivals == [] {
      forall key ensures !Conflicts(arrivals, key) {
        assert Own(arrivals, key) == [];
      }
    } else {
      var before := arrivals[..|arrivals| - 1];
      var last := arrivals[|arrivals| - 1];
      ConflictsAreOwn(before);
      forall key ensures Conflicts(arrivals, key) <==>
          Conflicts(before, key) || (key == last.key && Merge(MergeOwn(Own(before, key)).value, last.chunk).None?)
      {
        OwnStep(arrivals, key);
      }
      if MergeAll(before).Some? {
        EachCallOnItsOwn(before, last.key);
        assert MergeAll(arrivals).Some? <==> !Conflicts(arrivals, last.key);
      } else {
        var key :| Conflicts(before, key);
        assert Conflicts(arrivals, key);
        assert MergeAll(arrivals).None?;
      }
    }
  }

  lemma OwnStep(arrivals: seq<Arrival>, key: Key)
    requires arrivals != []
    ensures var before := arrivals[..|arrivals| - 1];
            var last := arrivals[|arrivals| - 1];
            Conflicts(arrivals, key) <==>
              Conflicts(before, key) || (key == last.key && Merge(MergeOwn(Own(before, key)).value, last.chunk).None?)
  {
    var before := arrivals[..|arrivals| - 1];
    var last := arrivals[|arrivals| - 1];
    if key == last.key {
      OwnPush(Own(before, key), last.chunk);
      assert Own(arrivals, key) == Own(before, key) + [last.chunk];
    } else {
      assert Own(arrivals, key) == Own(before, key);
    }
  }

  /** Every call has the same fragments in the same order, whatever the order between calls. */
  ghost predicate SameFragments(a: seq<Arrival>, b: seq<Arrival>) {
    forall key :: Own(a, key) == Own(b, key)
  }

  /** Interleaving does not matter: two responses with the same fragments for every call - in any
      order between the calls - reassemble to the same calls, or both conflict. */
  lemma InterleavingIndependent(a: seq<Arrival>, b: seq<Arrival>)
    requires SameFragments(a, b)
    ensures MergeAll(a) == MergeAll(b)
  {
    hide MergeAll, MergeOwn;
    ConflictsAreOwn(a);
    ConflictsAreOwn(b);
    forall key ensures Conflicts(a, key) == Conflicts(b, key) {
      assert Own(a, key) == Own(b, key);
    }
    if MergeAll(a).Some? {
      var x := MergeAll(a).value;
      var y := MergeAll(b).value;
      forall key ensures (key in x <==> key in y) && FragmentsAt(x, key) == FragmentsAt(y, key) {
        EachCallOnItsOwn(a, key);
        EachCallOnItsOwn(b, key);
      }
      assert x.Keys == y.Keys;
      assert forall key :: key in x ==> x[key] == FragmentsAt(x, key) == FragmentsAt(y, key) == y[key];
      assert x == y;
    }
  }

  // ----------------------------------------------------------- emission order

  predicate KeyLess(a: Key, b: Key) {
    a.0 < b.0 || (a.0 == b.0 && a.1 < b.1)
  }

  predicate IsLeastKey(least: Key, keys: set<Key>) {
    least in keys && forall other :: other in keys && other != least ==> KeyLess(least, other)
  }

  lemma {:induction false} LeastKeyExists(keys: set<Key>)
    requires keys != {}
    ensures exists least :: IsLeastKey(least, keys)
  {
    var some :| some in keys;
    var rest := keys - {some};
    if rest == {} {
      assert keys == {some};
      assert IsLeastKey(some, keys);
    } else {
      LeastKeyExists(rest);
      var least :| IsLeastKey(least, rest);
      var m := if KeyLess(some, least) then some else least;
      forall other | other in keys && other != m ensures KeyLess(m, other) {
        assert other == some || other in rest;
      }
      assert IsLeastKey(m, keys);
    }
  }

  function LeastKey(keys: set<Key>): (least: Key)
    requires keys != {}
    ensures IsLeastKey(least, keys)
  {
    LeastKeyExists(keys);
    var least :| IsLeastKey(least, keys);
    least
  }

  /** The keys in ascending order, as an ordered map iterates them. */
  function InOrder(keys: set<Key>): (list: seq<Key>)
    ensures forall k :: k in list <==> k in keys
    decreases |keys|
  {
    if keys == {} then [] else
      var least := LeastKey(keys);
      var rest := InOrder(keys - {least});
      assert forall k :: k in [least] + rest <==> k == least || k in rest;
      [least] + rest
  }

  lemma {:induction false} InOrderAscends(keys: set<Key>, i: nat, j: nat)
    requires i < j < |InOrder(keys)|
    ensures KeyLess(InOrder(keys)[i], InOrder(keys)[j])
    decreases |keys|
  {
    var least := LeastKey(keys);
    var rest := InOrder(keys - {least});
    if i > 0 {
      InOrderAscends(keys - {least}, i - 1, j - 1);
    } else {
      assert rest[j - 1] in rest;
    }
  }
}
