/** The tool node of the reflexion graph (`execute_tools`): it fans the
    search queries of the last assistant message's structured calls out into
    one search invocation each, runs them as one batch, and merges the
    outputs back into one tool message per call id.

    The output parser and the batch executor are collaborators outside this
    model; they are parameters here. */
module ToolExecutor {
  import opened Wrappers
  import opened Messages
  import opened Sequences

  /** The name of the search tool every invocation targets. */
  const TOOL_NAME: string := "tavily_search_results_json"

  /** One request to the search tool. It does not carry the call id: that
      travels in a list kept parallel to the invocations. */
  datatype Invocation = Invocation(tool: string, toolInput: Query)

  /** The exceptions execute_tools can raise before any search runs. */
  datatype Error =
    | EmptyState            // reading the last message of an empty log
    | ParserFailure         // the output parser raised
    | MissingSearchQueries  // a parsed call's args have no "search_queries"

  /** The queries of one call (none when its args lack the key). */
  function Queries(c: ParsedCall): seq<Query>
  {
    match c.searchQueries
    case Some(qs) => qs
    case None => []
  }

  predicate AllHaveQueries(calls: seq<ParsedCall>)
  {
    forall i :: 0 <= i < |calls| ==> calls[i].searchQueries.Some?
  }

  // ---------------------------------------------------------------------
  // Fan-out: the parallel lists `ids` and `tool_invocations`
  // ---------------------------------------------------------------------

  /** The entries one call appends to `ids`: its id once per query. */
  function CallIds(c: ParsedCall): seq<CallId>
  {
    seq(|Queries(c)|, _ => c.id)
  }

  /** The entries one call appends to `tool_invocations`, in query order. */
  function CallInvocations(c: ParsedCall): seq<Invocation>
  {
    var qs := Queries(c);
    seq(|qs|, k requires 0 <= k < |qs| => Invocation(TOOL_NAME, qs[k]))
  }

  /** `ids` after the nested loops have visited `calls`. */
  function FlatIds(calls: seq<ParsedCall>): seq<CallId>
  {
    if calls == [] then []
    else FlatIds(calls[..|calls| - 1]) + CallIds(calls[|calls| - 1])
  }

  /** `tool_invocations` after the nested loops have visited `calls`. */
  function FlatInvocations(calls: seq<ParsedCall>): seq<Invocation>
  {
    if calls == [] then []
    else FlatInvocations(calls[..|calls| - 1]) + CallInvocations(calls[|calls| - 1])
  }

  /** The number of search queries over all calls. */
  function TotalQueries(calls: seq<ParsedCall>): nat
  {
    if calls == [] then 0
    else TotalQueries(calls[..|calls| - 1]) + |Queries(calls[|calls| - 1])|
  }

  /** Where query `j` of call `i` lands in the flattened lists: after all
      queries of the calls before `i`. */
  function Position(calls: seq<ParsedCall>, i: nat, j: nat): nat
    requires i <= |calls|
  {
    TotalQueries(calls[..i]) + j
  }

  // ---------------------------------------------------------------------
  // Merge: the insertion-ordered defaultdict `output_map`
  // ---------------------------------------------------------------------

  /** `output_map`: its keys in insertion order, and the inner dict of each
      key. */
  datatype OutputMap = OutputMap(order: seq<CallId>, entries: map<CallId, map<Query, SearchOutput>>)

  /** Storing `output` under `query` in the inner dict of `id`: the first access to
      `id` inserts an empty dict at the end of the key order; the write
      overwrites an earlier output for the same query. */
  function Put(om: OutputMap, id: CallId, query: Query, output: SearchOutput): OutputMap
  {
    var inner := if id in om.entries then om.entries[id] else map[];
    OutputMap(if id in om.entries then om.order else om.order + [id],
              om.entries[id := inner[query := output]])
  }

  /** The number of triples the zip of ids, outputs and invocations yields:
      it stops at the shortest list. */
  function ZipLength(ids: seq<CallId>, outputs: seq<SearchOutput>, invocations: seq<Invocation>): (n: nat)
    ensures n <= |ids| && n <= |outputs| && n <= |invocations|
    ensures n == |ids| || n == |outputs| || n == |invocations|
  {
    if |ids| <= |outputs| && |ids| <= |invocations| then |ids|
    else if |outputs| <= |invocations| then |outputs|
    else |invocations|
  }

  /** `output_map` after the zip loop has consumed its first `n` triples.
      The key order lists exactly the keys. */
  function MergePrefix(ids: seq<CallId>, outputs: seq<SearchOutput>, invocations: seq<Invocation>, n: nat): (om: OutputMap)
    requires n <= |ids| && n <= |outputs| && n <= |invocations|
    ensures Elems(om.order) == om.entries.Keys
  {
    if n == 0 then OutputMap([], map[])
    else
      var prev := MergePrefix(ids, outputs, invocations, n - 1);
      var id := ids[n - 1];
      ElemsAppend(prev.order, id);
      Put(prev, id, invocations[n - 1].toolInput, outputs[n - 1])
  }

  /** `output_map` after the whole zip loop. */
  function Merge(ids: seq<CallId>, outputs: seq<SearchOutput>, invocations: seq<Invocation>): OutputMap
  {
    MergePrefix(ids, outputs, invocations, ZipLength(ids, outputs, invocations))
  }

  /** One tool message per key of `output_map`, in key order. */
  function ToMessages(om: OutputMap): seq<Message>
    requires Elems(om.order) <= om.entries.Keys
  {
    seq(|om.order|, k requires 0 <= k < |om.order| => Tool(om.entries[om.order[k]], om.order[k]))
  }

  /** The tool messages the zip loop and the emission loop produce from the
      parallel lists and the batch outputs. */
  function DispatchMessages(ids: seq<CallId>, outputs: seq<SearchOutput>, invocations: seq<Invocation>): seq<Message>
  {
    ToMessages(Merge(ids, outputs, invocations))
  }

  /** What execute_tools returns for a message log, given the output parser
      and the batch executor. */
  function ExecuteToolsSpec(state: seq<Message>,
                            parse: Message -> Option<seq<ParsedCall>>,
                            batch: seq<Invocation> -> seq<SearchOutput>): Result<seq<Message>, Error>
  {
    if |state| == 0 then Err(EmptyState)
    else match parse(state[|state| - 1])
      case None => Err(ParserFailure)
      case Some(calls) =>
        if !AllHaveQueries(calls) then Err(MissingSearchQueries)
        else
          var ids := FlatIds(calls);
          var invocations := FlatInvocations(calls);
          Ok(DispatchMessages(ids, batch(invocations), invocations))
  }

  // ---------------------------------------------------------------------
  // The node itself
  // ---------------------------------------------------------------------

  /** The nested loops of execute_tools: one entry in `ids` and one in
      `tool_invocations` per (call, query), or the KeyError raised at the
      first call whose args have no `search_queries`. */
  method FanOut(calls: seq<ParsedCall>) returns (r: Result<(seq<CallId>, seq<Invocation>), Error>)
    ensures AllHaveQueries(calls) ==> r == Ok((FlatIds(calls), FlatInvocations(calls)))
    ensures !AllHaveQueries(calls) ==> r == Err(MissingSearchQueries)
  {
    var ids: seq<CallId> := [];
    var invocations: seq<Invocation> := [];
    for i := 0 to |calls|
      invariant AllHaveQueries(calls[..i])
      invariant ids == FlatIds(calls[..i])
      invariant invocations == FlatInvocations(calls[..i])
    {
      var call := calls[i];
      if call.searchQueries.None? {
        return Err(MissingSearchQueries);
      }
      var queries := call.searchQueries.value;
      for j := 0 to |queries|
        invariant ids == FlatIds(calls[..i]) + CallIds(call)[..j]
        invariant invocations == FlatInvocations(calls[..i]) + CallInvocations(call)[..j]
      {
        assert CallIds(call)[..j + 1] == CallIds(call)[..j] + [call.id];
        assert CallInvocations(call)[..j + 1] == CallInvocations(call)[..j] + [Invocation(TOOL_NAME, queries[j])];
        invocations := invocations + [Invocation(TOOL_NAME, queries[j])];
        ids := ids + [call.id];
      }
      assert calls[..i + 1][..i] == calls[..i];
    }
    assert calls[..|calls|] == calls;
    return Ok((ids, invocations));
  }

  /** The zip loop of execute_tools, filling the defaultdict `output_map`. */
  method MergeOutputs(ids: seq<CallId>, outputs: seq<SearchOutput>, invocations: seq<Invocation>)
    returns (om: OutputMap)
    ensures om == Merge(ids, outputs, invocations)
  {
    var n := |ids|;
    if |outputs| < n { n := |outputs|; }
    if |invocations| < n { n := |invocations|; }
    var order: seq<CallId> := [];
    var entries: map<CallId, map<Query, SearchOutput>> := map[];
    for k := 0 to n
      invariant OutputMap(order, entries) == MergePrefix(ids, outputs, invocations, k)
    {
      var id := ids[k];
      ghost var before := OutputMap(order, entries);
      if id !in entries {
        order := order + [id];
        entries := entries[id := map[]];
      }
      ghost var inner := if id in before.entries then before.entries[id] else map[];
      assert entries[id] == inner;
      entries := entries[id := entries[id][invocations[k].toolInput := outputs[k]]];
      assert entries == before.entries[id := inner[invocations[k].toolInput := outputs[k]]];
      assert MergePrefix(ids, outputs, invocations, k + 1)
          == Put(before, id, invocations[k].toolInput, outputs[k]);
    }
    om := OutputMap(order, entries);
  }

  /** The emission loop of execute_tools: one tool message per key. */
  method EmitMessages(om: OutputMap) returns (toolMessages: seq<Message>)
    requires Elems(om.order) <= om.entries.Keys
    ensures toolMessages == ToMessages(om)
  {
    toolMessages := [];
    for k := 0 to |om.order|
      invariant |toolMessages| == k
      invariant forall p :: 0 <= p < k ==> toolMessages[p] == Tool(om.entries[om.order[p]], om.order[p])
    {
      toolMessages := toolMessages + [Tool(om.entries[om.order[k]], om.order[k])];
    }
  }

  /** execute_tools: read the last message, flatten its calls into the
      parallel lists, run the batch, merge by id, emit one message per id. */
  method ExecuteTools(state: seq<Message>,
                      parse: Message -> Option<seq<ParsedCall>>,
                      batch: seq<Invocation> -> seq<SearchOutput>)
    returns (r: Result<seq<Message>, Error>)
    ensures r == ExecuteToolsSpec(state, parse, batch)
  {
    if |state| == 0 {
      return Err(EmptyState);
    }
    var parsed := parse(state[|state| - 1]);
    if parsed.None? {
      return Err(ParserFailure);
    }
    var fanned := FanOut(parsed.value);
    if fanned.Err? {
      return Err(fanned.error);
    }
    var (ids, invocations) := fanned.value;
    var outputs := batch(invocations);
    var outputMap := MergeOutputs(ids, outputs, invocations);
    var toolMessages := EmitMessages(outputMap);
    return Ok(toolMessages);
  }

  // ---------------------------------------------------------------------
  // Properties of the fan-out
  // ---------------------------------------------------------------------

  /** Both parallel lists have one entry per search query. */
  lemma {:induction false} FlattenLengths(calls: seq<ParsedCall>)
    ensures |FlatIds(calls)| == TotalQueries(calls)
    ensures |FlatInvocations(calls)| == TotalQueries(calls)
  {
    if calls != [] {
      FlattenLengths(calls[..|calls| - 1]);
    }
  }

  /** Query `j` of call `i` sits at Position(calls, i, j) in both lists:
      the lists run call by call, and within a call query by query. */
  lemma {:induction false} FlattenAt(calls: seq<ParsedCall>, i: nat, j: nat)
    requires i < |calls| && j < |Queries(calls[i])|
    ensures Position(calls, i, j) < |FlatIds(calls)| && Position(calls, i, j) < |FlatInvocations(calls)|
    ensures FlatIds(calls)[Position(calls, i, j)] == calls[i].id
    ensures FlatInvocations(calls)[Position(calls, i, j)] == Invocation(TOOL_NAME, Queries(calls[i])[j])
  {
    var m := |calls| - 1;
    var prefix := calls[..m];
    FlattenLengths(prefix);
    if i < m {
      FlattenAt(prefix, i, j);
      assert calls[..i] == prefix[..i];
      assert prefix[i] == calls[i];
    } else {
      assert calls[..i] == prefix;
    }
  }

  /** Every position of the lists holds some query of some call. */
  lemma {:induction false} FlattenCovers(calls: seq<ParsedCall>, k: nat)
    requires k < TotalQueries(calls)
    ensures exists i: nat, j: nat :: i < |calls| && j < |Queries(calls[i])| && k == Position(calls, i, j)
  {
    var m := |calls| - 1;
    var prefix := calls[..m];
    if k < TotalQueries(prefix) {
      FlattenCovers(prefix, k);
      var i: nat, j: nat :| i < |prefix| && j < |Queries(prefix[i])| && k == Position(prefix, i, j);
      assert calls[..i] == prefix[..i];
      assert prefix[i] == calls[i];
      assert k == Position(calls, i, j);
    } else {
      assert calls[..m] == prefix;
      assert k == Position(calls, m, k - TotalQueries(prefix));
    }
  }

  lemma ElemsCallIds(c: ParsedCall)
    ensures Elems(CallIds(c)) == if |Queries(c)| > 0 then {c.id} else {}
  {
    if |Queries(c)| > 0 {
      assert CallIds(c)[0] == c.id;
    }
  }

  /** The ids of the calls that have at least one query. */
  function IdsWithQueries(calls: seq<ParsedCall>): set<CallId>
  {
    set i | 0 <= i < |calls| && |Queries(calls[i])| > 0 :: calls[i].id
  }

  /** One more call adds its id exactly when it has a query. */
  lemma IdsWithQueriesStep(calls: seq<ParsedCall>)
    requires calls != []
    ensures var m := |calls| - 1;
      IdsWithQueries(calls) == IdsWithQueries(calls[..m]) + (if |Queries(calls[m])| > 0 then {calls[m].id} else {})
  {
    var m := |calls| - 1;
    var prefix := calls[..m];
    forall x | x in IdsWithQueries(calls)
      ensures x in IdsWithQueries(prefix) + (if |Queries(calls[m])| > 0 then {calls[m].id} else {})
    {
      var i :| 0 <= i < |calls| && |Queries(calls[i])| > 0 && calls[i].id == x;
      if i < m {
        assert prefix[i] == calls[i];
      }
    }
    forall x | x in IdsWithQueries(prefix) ensures x in IdsWithQueries(calls) {
      var i :| 0 <= i < |prefix| && |Queries(prefix[i])| > 0 && prefix[i].id == x;
      assert calls[i] == prefix[i];
    }
  }

  /** The ids in the parallel list are exactly the ids of the calls that
      have at least one query; a call with no queries contributes nothing. */
  lemma {:induction false} FlatIdsAreCallsWithQueries(calls: seq<ParsedCall>)
    ensures Elems(FlatIds(calls)) == IdsWithQueries(calls)
  {
    if calls != [] {
      var m := |calls| - 1;
      FlatIdsAreCallsWithQueries(calls[..m]);
      ElemsCallIds(calls[m]);
      ElemsConcat(FlatIds(calls[..m]), CallIds(calls[m]));
      IdsWithQueriesStep(calls);
    }
  }

  // ---------------------------------------------------------------------
  // Properties of the merge
  // ---------------------------------------------------------------------

  /** One defaultdict write adds its id to the key order when it is new and
      leaves the order alone otherwise. */
  lemma PutOrder(om: OutputMap, id: CallId, query: Query, output: SearchOutput)
    requires Elems(om.order) == om.entries.Keys
    ensures var om' := Put(om, id, query, output);
      Elems(om'.order) == Elems(om.order) + {id} &&
      om'.order == if id in Elems(om.order) then om.order else om.order + [id]
  {
  }

  /** The keys of `output_map` are exactly the ids zipped so far. */
  lemma {:induction false} MergeKeys(ids: seq<CallId>, outputs: seq<SearchOutput>, invocations: seq<Invocation>, n: nat)
    requires n <= |ids| && n <= |outputs| && n <= |invocations|
    ensures Elems(MergePrefix(ids, outputs, invocations, n).order) == Elems(ids[..n])
  {
    if n > 0 {
      MergeKeys(ids, outputs, invocations, n - 1);
      var prev := MergePrefix(ids, outputs, invocations, n - 1);
      assert MergePrefix(ids, outputs, invocations, n) == Put(prev, ids[n - 1], invocations[n - 1].toolInput, outputs[n - 1]);
      PutOrder(prev, ids[n - 1], invocations[n - 1].toolInput, outputs[n - 1]);
      PrefixStep(ids, n);
    }
  }

  /** One defaultdict write never lists a key twice. */
  lemma PutDistinct(om: OutputMap, id: CallId, query: Query, output: SearchOutput)
    requires Elems(om.order) == om.entries.Keys && NoDuplicates(om.order)
    ensures NoDuplicates(Put(om, id, query, output).order)
  {
    PutOrder(om, id, query, output);
    if id !in Elems(om.order) {
      forall a | 0 <= a < |om.order| ensures om.order[a] != id {
        assert om.order[a] in Elems(om.order);
      }
    }
  }

  /** No key is listed twice in the key order of `output_map`. */
  lemma {:induction false} MergeDistinct(ids: seq<CallId>, outputs: seq<SearchOutput>, invocations: seq<Invocation>, n: nat)
    requires n <= |ids| && n <= |outputs| && n <= |invocations|
    ensures NoDuplicates(MergePrefix(ids, outputs, invocations, n).order)
  {
    if n > 0 {
      MergeDistinct(ids, outputs, invocations, n - 1);
      PutDistinct(MergePrefix(ids, outputs, invocations, n - 1), ids[n - 1], invocations[n - 1].toolInput, outputs[n - 1]);
    }
  }

  /** Every element of `keys` occurs in `s`, and an element listed earlier in
      `keys` first occurs earlier in `s`. */
  predicate InFirstOccurrenceOrder<T(==)>(keys: seq<T>, s: seq<T>)
  {
    forall a, b :: 0 <= a < b < |keys| ==>
      keys[a] in s && keys[b] in s && FirstIndex(s, keys[a]) < FirstIndex(s, keys[b])
  }

  /** Appending `x` to `s`, and to `keys` when it is new, keeps the keys in
      first-occurrence order. */
  lemma FirstOccurrenceStep<T>(keys: seq<T>, s: seq<T>, x: T)
    requires InFirstOccurrenceOrder(keys, s) && Elems(keys) == Elems(s)
    ensures InFirstOccurrenceOrder(if x in s then keys else keys + [x], s + [x])
  {
    var s' := s + [x];
    var keys' := if x in s then keys else keys + [x];
    forall a | 0 <= a < |keys|
      ensures keys[a] in s && keys[a] in s' && FirstIndex(s', keys[a]) == FirstIndex(s, keys[a])
      ensures FirstIndex(s, keys[a]) < |s|
    {
      assert keys[a] in Elems(keys);
      FirstIndexPrefix(s, [x], keys[a]);
    }
    if x !in s {
      assert s'[..|s|] == s;
      FirstIndexUnique(s', x, |s|);
      forall a, b | 0 <= a < b < |keys'|
        ensures keys'[a] in s' && keys'[b] in s' && FirstIndex(s', keys'[a]) < FirstIndex(s', keys'[b])
      {
        if b < |keys| {
          assert keys'[a] == keys[a] && keys'[b] == keys[b];
        }
      }
    }
  }

  /** One defaultdict write keeps the key order in first-occurrence order of
      the ids written so far. */
  lemma PutFirstOccurrence(om: OutputMap, id: CallId, query: Query, output: SearchOutput, before: seq<CallId>, now: seq<CallId>)
    requires Elems(om.order) == om.entries.Keys && Elems(om.order) == Elems(before)
    requires InFirstOccurrenceOrder(om.order, before) && now == before + [id]
    ensures InFirstOccurrenceOrder(Put(om, id, query, output).order, now)
  {
    PutOrder(om, id, query, output);
    FirstOccurrenceStep(om.order, before, id);
    assert id in before <==> id in Elems(before);
  }

  /** The keys of `output_map` are listed where each first occurs in `ids`:
      a key inserted earlier first occurs earlier. */
  lemma {:induction false} MergeOrder(ids: seq<CallId>, outputs: seq<SearchOutput>, invocations: seq<Invocation>, n: nat)
    requires n <= |ids| && n <= |outputs| && n <= |invocations|
    ensures InFirstOccurrenceOrder(MergePrefix(ids, outputs, invocations, n).order, ids[..n])
  {
    if n > 0 {
      MergeOrder(ids, outputs, invocations, n - 1);
      MergeKeys(ids, outputs, invocations, n - 1);
      var prev := MergePrefix(ids, outputs, invocations, n - 1);
      PrefixStep(ids, n);
      PutFirstOccurrence(prev, ids[n - 1], invocations[n - 1].toolInput, outputs[n - 1], ids[..n - 1], ids[..n]);
    }
  }

  /** No later zipped position writes the same (id, query) as position `p`. */
  predicate IsLastWrite(ids: seq<CallId>, invocations: seq<Invocation>, n: nat, p: nat)
    requires n <= |ids| && n <= |invocations|
  {
    forall q :: p < q < n ==> !(ids[q] == ids[p] && invocations[q].toolInput == invocations[p].toolInput)
  }

  /** The queries zipped so far for `id`. */
  function QueriesFor(ids: seq<CallId>, invocations: seq<Invocation>, n: nat, id: CallId): set<Query>
    requires n <= |ids| && n <= |invocations|
  {
    set p | 0 <= p < n && ids[p] == id :: invocations[p].toolInput
  }

  /** Zipping one more position adds its query to the queries of its id
      and to no other id's. */
  lemma QueriesForStep(ids: seq<CallId>, invocations: seq<Invocation>, n: nat, x: CallId)
    requires 0 < n <= |ids| && n <= |invocations|
    ensures QueriesFor(ids, invocations, n, x)
            == QueriesFor(ids, invocations, n - 1, x) + (if ids[n - 1] == x then {invocations[n - 1].toolInput} else {})
  {
  }

  lemma QueriesForAbsent(ids: seq<CallId>, invocations: seq<Invocation>, n: nat, x: CallId)
    requires n <= |ids| && n <= |invocations| && x !in ids[..n]
    ensures QueriesFor(ids, invocations, n, x) == {}
  {
    forall p | 0 <= p < n ensures ids[p] != x {
      assert ids[..n][p] == ids[p];
    }
  }

  /** One defaultdict write adds its query to the inner dict of its id and
      changes no other inner dict's keys. */
  lemma PutKeys(om: OutputMap, id: CallId, query: Query, output: SearchOutput, x: CallId)
    requires x in Put(om, id, query, output).entries
    ensures Put(om, id, query, output).entries[x].Keys
            == (if x in om.entries then om.entries[x].Keys else {}) + (if x == id then {query} else {})
  {
  }

  /** The inner dict of an id holds exactly the queries zipped so far for
      that id. */
  lemma {:induction false} MergeQueries(ids: seq<CallId>, outputs: seq<SearchOutput>, invocations: seq<Invocation>, n: nat)
    requires n <= |ids| && n <= |outputs| && n <= |invocations|
    ensures var om := MergePrefix(ids, outputs, invocations, n);
      forall id :: id in om.entries ==> om.entries[id].Keys == QueriesFor(ids, invocations, n, id)
  {
    if n > 0 {
      MergeQueries(ids, outputs, invocations, n - 1);
      MergeKeys(ids, outputs, invocations, n - 1);
      var prev := MergePrefix(ids, outputs, invocations, n - 1);
      var om := MergePrefix(ids, outputs, invocations, n);
      var id, query := ids[n - 1], invocations[n - 1].toolInput;
      assert om == Put(prev, id, query, outputs[n - 1]);
      forall x | x in om.entries
        ensures om.entries[x].Keys == QueriesFor(ids, invocations, n, x)
      {
        PutKeys(prev, id, query, outputs[n - 1], x);
        QueriesForStep(ids, invocations, n, x);
        if x !in prev.entries {
          assert x !in Elems(prev.order);
          QueriesForAbsent(ids, invocations, n - 1, x);
        }
      }
    }
  }

  /** The output stored for a query is the one at the last zipped position
      with that (id, query): later writes overwrite earlier ones. */
  lemma {:induction false} MergeValues(ids: seq<CallId>, outputs: seq<SearchOutput>, invocations: seq<Invocation>, n: nat)
    requires n <= |ids| && n <= |outputs| && n <= |invocations|
    ensures var om := MergePrefix(ids, outputs, invocations, n);
      forall p :: 0 <= p < n && IsLastWrite(ids, invocations, n, p) ==>
        ids[p] in om.entries && invocations[p].toolInput in om.entries[ids[p]] &&
        om.entries[ids[p]][invocations[p].toolInput] == outputs[p]
  {
    if n > 0 {
      MergeValues(ids, outputs, invocations, n - 1);
      var om := MergePrefix(ids, outputs, invocations, n);
      var id, query := ids[n - 1], invocations[n - 1].toolInput;
      forall p | 0 <= p < n && IsLastWrite(ids, invocations, n, p)
        ensures ids[p] in om.entries && invocations[p].toolInput in om.entries[ids[p]]
        ensures om.entries[ids[p]][invocations[p].toolInput] == outputs[p]
      {
        if p < n - 1 {
          assert IsLastWrite(ids, invocations, n - 1, p);
          assert !(id == ids[p] && query == invocations[p].toolInput);
        }
      }
    }
  }

  // ---------------------------------------------------------------------
  // Properties of the emitted messages
  // ---------------------------------------------------------------------

  /** One message per key, each a tool message with its key as id: the ids
      are the listed keys, distinct when the keys are. */
  lemma ToMessagesIds(om: OutputMap)
    requires Elems(om.order) <= om.entries.Keys && NoDuplicates(om.order)
    ensures var msgs := ToMessages(om);
      |msgs| == |om.order| &&
      (forall k :: 0 <= k < |msgs| ==> msgs[k].Tool? && msgs[k].toolCallId == om.order[k]) &&
      (forall a, b :: 0 <= a < b < |msgs| ==> msgs[a].toolCallId != msgs[b].toolCallId) &&
      (set k | 0 <= k < |msgs| :: msgs[k].toolCallId) == Elems(om.order)
  {
    var msgs := ToMessages(om);
    forall x | x in Elems(om.order) ensures x in (set k | 0 <= k < |msgs| :: msgs[k].toolCallId) {
      var k :| 0 <= k < |om.order| && om.order[k] == x;
      assert msgs[k].toolCallId == x;
    }
  }

  /** Every emitted message is a tool message; no two share a
      `tool_call_id`; their ids are exactly the ids of the zipped prefix of
      the parallel lists (an invocation left without an output by a short
      batch contributes nothing), so there are as many messages as distinct
      ids in that prefix. */
  lemma DispatchIds(ids: seq<CallId>, outputs: seq<SearchOutput>, invocations: seq<Invocation>)
    ensures var msgs := DispatchMessages(ids, outputs, invocations);
      var n := ZipLength(ids, outputs, invocations);
      (forall k :: 0 <= k < |msgs| ==> msgs[k].Tool?) &&
      (forall a, b :: 0 <= a < b < |msgs| ==> msgs[a].toolCallId != msgs[b].toolCallId) &&
      (set k | 0 <= k < |msgs| :: msgs[k].toolCallId) == Elems(ids[..n]) &&
      |msgs| == |Elems(ids[..n])|
  {
    var n := ZipLength(ids, outputs, invocations);
    MergeKeys(ids, outputs, invocations, n);
    MergeDistinct(ids, outputs, invocations, n);
    var om := Merge(ids, outputs, invocations);
    NoDuplicatesCard(om.order);
    ToMessagesIds(om);
  }

  /** The messages come out in the order in which their ids first occur in
      the zipped prefix of `ids`. */
  lemma DispatchOrder(ids: seq<CallId>, outputs: seq<SearchOutput>, invocations: seq<Invocation>)
    ensures var msgs := DispatchMessages(ids, outputs, invocations);
      var n := ZipLength(ids, outputs, invocations);
      forall a, b :: 0 <= a < b < |msgs| ==>
        msgs[a].Tool? && msgs[b].Tool? &&
        msgs[a].toolCallId in ids[..n] && msgs[b].toolCallId in ids[..n] &&
        FirstIndex(ids[..n], msgs[a].toolCallId) < FirstIndex(ids[..n], msgs[b].toolCallId)
  {
    var n := ZipLength(ids, outputs, invocations);
    var om := MergePrefix(ids, outputs, invocations, n);
    MergeOrder(ids, outputs, invocations, n);
    var msgs := DispatchMessages(ids, outputs, invocations);
    assert msgs == ToMessages(om);
    forall a, b | 0 <= a < b < |msgs|
      ensures msgs[a].Tool? && msgs[b].Tool?
      ensures msgs[a].toolCallId in ids[..n] && msgs[b].toolCallId in ids[..n]
      ensures FirstIndex(ids[..n], msgs[a].toolCallId) < FirstIndex(ids[..n], msgs[b].toolCallId)
    {
      assert msgs[a].toolCallId == om.order[a];
      assert msgs[b].toolCallId == om.order[b];
    }
  }

  /** The mapping of each message holds exactly the queries zipped for its
      id, and each query's value is the output at the last zipped position
      with that id and query. */
  lemma DispatchContents(ids: seq<CallId>, outputs: seq<SearchOutput>, invocations: seq<Invocation>)
    ensures var msgs := DispatchMessages(ids, outputs, invocations);
      var n := ZipLength(ids, outputs, invocations);
      forall k :: 0 <= k < |msgs| ==>
        msgs[k].Tool? &&
        msgs[k].mappedOutput.Keys == QueriesFor(ids, invocations, n, msgs[k].toolCallId)
    ensures var msgs := DispatchMessages(ids, outputs, invocations);
      var n := ZipLength(ids, outputs, invocations);
      forall k, p :: 0 <= k < |msgs| && 0 <= p < n && msgs[k].Tool? && msgs[k].toolCallId == ids[p] &&
                     IsLastWrite(ids, invocations, n, p) ==>
        invocations[p].toolInput in msgs[k].mappedOutput &&
        msgs[k].mappedOutput[invocations[p].toolInput] == outputs[p]
  {
    MergeQueries(ids, outputs, invocations, ZipLength(ids, outputs, invocations));
    MergeValues(ids, outputs, invocations, ZipLength(ids, outputs, invocations));
  }

  /** When the batch returns an output for every invocation, there is one
      message for each distinct id among the calls with at least one query
      (calls sharing an id share one message), and none for a call with no
      queries. */
  lemma DispatchFullBatch(calls: seq<ParsedCall>, outputs: seq<SearchOutput>)
    requires |outputs| >= TotalQueries(calls)
    ensures var msgs := DispatchMessages(FlatIds(calls), outputs, FlatInvocations(calls));
      (forall k :: 0 <= k < |msgs| ==> msgs[k].Tool?) &&
      (set k | 0 <= k < |msgs| :: msgs[k].toolCallId)
        == IdsWithQueries(calls) &&
      |msgs| == |IdsWithQueries(calls)|
  {
    var ids := FlatIds(calls);
    FlattenLengths(calls);
    FlatIdsAreCallsWithQueries(calls);
    DispatchIds(ids, outputs, FlatInvocations(calls));
    assert ids[..ZipLength(ids, outputs, FlatInvocations(calls))] == ids;
  }

  // ---------------------------------------------------------------------
  // Properties of the node as a whole
  // ---------------------------------------------------------------------

  /** Only the last message of the log is read. */
  lemma OnlyLastMessageRead(state1: seq<Message>, state2: seq<Message>,
                            parse: Message -> Option<seq<ParsedCall>>,
                            batch: seq<Invocation> -> seq<SearchOutput>)
    requires |state1| > 0 && |state2| > 0 && state1[|state1| - 1] == state2[|state2| - 1]
    ensures ExecuteToolsSpec(state1, parse, batch) == ExecuteToolsSpec(state2, parse, batch)
  {
  }

  /** The node fails exactly when the log is empty, the parser fails, or some
      parsed call has no `search_queries`; otherwise it returns the merged
      messages of the parsed calls. */
  lemma ExecuteToolsOutcome(state: seq<Message>,
                            parse: Message -> Option<seq<ParsedCall>>,
                            batch: seq<Invocation> -> seq<SearchOutput>)
    ensures |state| == 0 ==> ExecuteToolsSpec(state, parse, batch) == Err(EmptyState)
    ensures |state| > 0 && parse(state[|state| - 1]).None? ==>
              ExecuteToolsSpec(state, parse, batch) == Err(ParserFailure)
    ensures |state| > 0 && parse(state[|state| - 1]).Some? && !AllHaveQueries(parse(state[|state| - 1]).value) ==>
              ExecuteToolsSpec(state, parse, batch) == Err(MissingSearchQueries)
    ensures ExecuteToolsSpec(state, parse, batch).Ok? <==>
              |state| > 0 && parse(state[|state| - 1]).Some? && AllHaveQueries(parse(state[|state| - 1]).value)
  {
  }

  /** A log whose last message parses to a single call with at least one
      query, and a batch that returns at least one output, yields exactly one
      tool message, for that call's id. */
  lemma SingleCallOneMessage(state: seq<Message>,
                             parse: Message -> Option<seq<ParsedCall>>,
                             batch: seq<Invocation> -> seq<SearchOutput>,
                             call: ParsedCall)
    requires |state| > 0 && parse(state[|state| - 1]) == Some([call])
    requires call.searchQueries.Some? && |call.searchQueries.value| > 0
    requires |batch(FlatInvocations([call]))| > 0
    ensures var r := ExecuteToolsSpec(state, parse, batch);
      r.Ok? && |r.value| == 1 && r.value[0].Tool? && r.value[0].toolCallId == call.id
  {
    var calls := [call];
    assert AllHaveQueries(calls);
    var ids := FlatIds(calls);
    var invocations := FlatInvocations(calls);
    var outputs := batch(invocations);
    assert calls[..|calls| - 1] == [];
    assert ids == FlatIds([]) + CallIds(call);
    var n := ZipLength(ids, outputs, invocations);
    FlattenLengths(calls);
    assert n > 0;
    DispatchIds(ids, outputs, invocations);
    var msgs := DispatchMessages(ids, outputs, invocations);
    assert Elems(ids[..n]) == {call.id} by {
      assert ids[..n][0] == call.id;
    }
    var sent := set k | 0 <= k < |msgs| :: msgs[k].toolCallId;
    assert sent == {call.id};
    assert msgs[0].toolCallId in sent;
    assert ExecuteToolsSpec(state, parse, batch) == Ok(msgs);
  }
}
