/** Adding a flow to the logical flow table as a transaction: all or nothing, and reversible. */
module FlowTransaction {
  import opened Prelude

  /** A flow table entry: its id, its counters and everything else. */
  datatype Flow = Flow(id: nat, byteCount: nat, packetCount: nat, rest: int)

  type FlowTable = map<nat, Flow>

  /** The two flags of a flow modification that decomposeAndAdd looks at. */
  datatype Flags = Flags(checkOverlap: bool, resetCounts: bool)

  datatype FlowError = DecompositionFailed | AdaptersNotReady

  /** What a successful add leaves for the goroutine that may have to revert it. */
  datatype Added = Added(flow: Flow, replaced: Option<Flow>)

  datatype Outcome = Outcome(changed: bool, updated: bool, error: Option<FlowError>, pending: Option<Added>)

  ghost predicate Keyed(table: FlowTable) {
    forall id {:trigger table[id]} :: id in table ==> table[id].id == id
  }

  /** The flow as it is stored: with the counters of the flow it replaces, when asked to reset them. */
  function Merged(flow: Flow, table: FlowTable, flags: Flags): Flow {
    if !flags.checkOverlap && flow.id in table && flags.resetCounts
    then flow.(byteCount := table[flow.id].byteCount, packetCount := table[flow.id].packetCount)
    else flow
  }

  /** The table after an add that found no error. */
  function AddedTo(table: FlowTable, flow: Flow, flags: Flags): FlowTable {
    if flags.checkOverlap && flow.id in table then table else table[flow.id := Merged(flow, table, flags)]
  }

  /** What a revert of that add will be told about the entry that was there. */
  function Replaced(table: FlowTable, flow: Flow, flags: Flags): Option<Flow> {
    if !flags.checkOverlap && flow.id in table then Some(table[flow.id]) else None
  }

  function RevertedFrom(table: FlowTable, added: Added): FlowTable {
    if added.flow.id !in table then table
    else if added.replaced.Some? then table[added.flow.id := added.replaced.value]
    else table - {added.flow.id}
  }

  /** Whether an add is sent to the devices, and so may have to be reverted. */
  predicate IsChange(table: FlowTable, flow: Flow, flags: Flags) {
    flags.checkOverlap || flow.id !in table || table[flow.id] != Merged(flow, table, flags)
  }

  /**
   An add that is reverted leaves every table as it was, if and only if it is not an add with the overlap
   flag over an entry that exists.
   */
  lemma RevertRestoresIff(table: FlowTable, flow: Flow, flags: Flags)
    requires IsChange(table, flow, flags)
    ensures var after := RevertedFrom(AddedTo(table, flow, flags), Added(Merged(flow, table, flags), Replaced(table, flow, flags)));
            && (after == table <==> !(flags.checkOverlap && flow.id in table))
            && (flags.checkOverlap && flow.id in table ==> after == table - {flow.id})
  {
    if flow.id in table {
      assert table[flow.id := table[flow.id]] == table;
    } else {
      assert table[flow.id := flow] - {flow.id} == table;
    }
  }

  /** The failing case: the entry that was there is lost, and was never replaced. */
  lemma OverlapFlagLosesEntry()
    ensures var old1, new1 := Flow(1, 5, 6, 7), Flow(1, 0, 0, 8);
            var table, flags := map[1 := old1], Flags(true, false);
            && AddedTo(table, new1, flags) == table
            && RevertedFrom(AddedTo(table, new1, flags), Added(Merged(new1, table, flags), Replaced(table, new1, flags))) == map[]
  {
    RevertRestoresIff(map[1 := Flow(1, 5, 6, 7)], Flow(1, 0, 0, 8), Flags(true, false));
  }

  // ---------------------------------------------------------------------------------------------
  // Requests between an add and its revert

  /** What another request does to the table. */
  datatype Edit = Put(flow: Flow) | Drop(dropped: nat)

  function IdOf(e: Edit): nat {
    if e.Put? then e.flow.id else e.dropped
  }

  function ApplyOne(table: FlowTable, e: Edit): FlowTable {
    if e.Put? then table[e.flow.id := e.flow] else table - {e.dropped}
  }

  function Apply(table: FlowTable, edits: seq<Edit>): FlowTable
    decreases |edits|
  {
    if edits == [] then table else ApplyOne(Apply(table, edits[..|edits| - 1]), edits[|edits| - 1])
  }

  /** The last edit of an id, if there is one. */
  function LastEdit(edits: seq<Edit>, id: nat): Option<Edit>
    decreases |edits|
  {
    if edits == [] then None
    else if IdOf(edits[|edits| - 1]) == id then Some(edits[|edits| - 1])
    else LastEdit(edits[..|edits| - 1], id)
  }

  function At(table: FlowTable, id: nat): Option<Flow> {
    if id in table then Some(table[id]) else None
  }

  lemma {:induction false} ApplyAt(table: FlowTable, edits: seq<Edit>, id: nat)
    ensures At(Apply(table, edits), id) ==
            match LastEdit(edits, id)
            case None => At(table, id)
            case Some(Put(f)) => Some(f)
            case Some(Drop(_)) => None
    decreases |edits|
  {
    if edits != [] {
      ApplyAt(table, edits[..|edits| - 1], id);
    }
  }

  lemma SameTable(a: FlowTable, b: FlowTable)
    ensures a == b <==> forall id :: At(a, id) == At(b, id)
  {
    if forall id :: At(a, id) == At(b, id) {
      forall id
        ensures id in a <==> id in b
        ensures id in a ==> a[id] == b[id]
      {
        assert At(a, id) == At(b, id);
      }
    }
  }

  /** Whether undoing an add after other edits leaves exactly what those edits alone would have left. */
  predicate RevertIsClean(table: FlowTable, flow: Flow, flags: Flags, edits: seq<Edit>) {
    match LastEdit(edits, flow.id)
    case None => !(flags.checkOverlap && flow.id in table)
    case Some(Put(f)) => Replaced(table, flow, flags) == Some(f)
    case Some(Drop(_)) => true
  }

  /**
   An add, any other edits, then the revert: it is as if the add had never been, if and only if no later
   edit touched the flow's id and the overlap flag was not set over an existing entry, or the last edit of
   that id deleted it, or put back what the add had replaced.  Otherwise the revert undoes that edit.
   */
  lemma RevertAfterEditsIff(table: FlowTable, flow: Flow, flags: Flags, edits: seq<Edit>)
    requires IsChange(table, flow, flags)
    ensures RevertedFrom(Apply(AddedTo(table, flow, flags), edits), Added(Merged(flow, table, flags), Replaced(table, flow, flags)))
            == Apply(table, edits)
            <==> RevertIsClean(table, flow, flags, edits)
  {
    var id, added := flow.id, AddedTo(table, flow, flags);
    var after := RevertedFrom(Apply(added, edits), Added(Merged(flow, table, flags), Replaced(table, flow, flags)));
    forall k | k != id
      ensures At(after, k) == At(Apply(table, edits), k)
    {
      ApplyAt(added, edits, k);
      ApplyAt(table, edits, k);
      assert At(added, k) == At(table, k);
      assert At(after, k) == At(Apply(added, edits), k);
    }
    ApplyAt(added, edits, id);
    ApplyAt(table, edits, id);
    SameTable(after, Apply(table, edits));
    assert At(after, id) == if At(Apply(added, edits), id).None? then None else Replaced(table, flow, flags);
  }

  class LogicalAgent {
    var flowCache: FlowTable

    constructor ()
      ensures flowCache == map[]
    {
      flowCache := map[];
    }

    /**
     decomposeAndAdd.  `rules` says how decomposing and the adapters' readiness turned out.  An error leaves
     the table exactly as it was; without an error the flow is in the table, except that with the overlap
     flag an entry that exists is not replaced.
     */
    method DecomposeAndAdd(newFlow: Flow, flags: Flags, rules: Result<(), FlowError>) returns (o: Outcome)
      requires Keyed(flowCache)
      modifies this
      ensures Keyed(flowCache)
      ensures o.error.Some? ==> flowCache == old(flowCache) && o.pending.None? && rules == Failure(o.error.value)
      ensures o.error.None? ==>
        && flowCache == AddedTo(old(flowCache), newFlow, flags)
        && (o.changed <==> IsChange(old(flowCache), newFlow, flags))
        && (o.updated <==> newFlow.id in old(flowCache) && flowCache != old(flowCache))
        && o.pending == if o.changed then Some(Added(Merged(newFlow, old(flowCache), flags), Replaced(old(flowCache), newFlow, flags))) else None
      ensures rules.Failure? ==> (o.error.Some? <==> IsChange(old(flowCache), newFlow, flags))
      ensures o.error == Some(AdaptersNotReady) ==> !o.changed && !o.updated
      ensures o.error == Some(DecompositionFailed) ==>
        o.changed && (o.updated <==> !flags.checkOverlap && newFlow.id in old(flowCache))
      // what that comes to
      ensures o.error.None? && !(flags.checkOverlap && newFlow.id in old(flowCache)) ==>
        && newFlow.id in flowCache
        && var stored := flowCache[newFlow.id];
           && stored.id == newFlow.id && stored.rest == newFlow.rest
           && (if !flags.checkOverlap && flags.resetCounts && newFlow.id in old(flowCache)
               then stored.byteCount == old(flowCache)[newFlow.id].byteCount && stored.packetCount == old(flowCache)[newFlow.id].packetCount
               else stored.byteCount == newFlow.byteCount && stored.packetCount == newFlow.packetCount)
      ensures flags.checkOverlap && newFlow.id in old(flowCache) ==> flowCache == old(flowCache)
      ensures forall id :: id != newFlow.id ==> (id in flowCache <==> id in old(flowCache)) && (id in flowCache ==> flowCache[id] == old(flowCache)[id])
      ensures o.error.None? ==> (o.changed <==> flags.checkOverlap || flowCache != old(flowCache))
      ensures o.error.None? ==> (o.pending.Some? <==> o.changed)
      ensures o.pending.Some? ==>
        && o.pending.value.flow.id == newFlow.id
        && o.pending.value.replaced == if !flags.checkOverlap && newFlow.id in old(flowCache) then Some(old(flowCache)[newFlow.id]) else None
    {
      var flow, changed, updated, flowToReplace := newFlow, false, false, None;
      // LockOrCreate
      var flowCreated := flow.id !in flowCache;
      if flowCreated {
        flowCache := flowCache[flow.id := flow];
      }
      if flags.checkOverlap {
        changed := true;  // the search for overlapping flows never finds any
      } else if !flowCreated {
        flowToReplace := Some(flowCache[flow.id]);
        if flags.resetCounts {
          flow := flow.(byteCount := flowToReplace.value.byteCount, packetCount := flowToReplace.value.packetCount);
        }
        if flowToReplace.value != flow {
          changed, updated := true, true;
        }
      } else {
        changed := true;
      }
      if !changed {
        return Outcome(false, false, None, None);
      }
      if rules.Failure? {
        if flowCreated {
          flowCache := flowCache - {flow.id};
        }
        var started := rules.error == DecompositionFailed;  // only this error reports what would have changed
        return Outcome(started && changed, started && updated, Some(rules.error), None);
      }
      if updated {
        flowCache := flowCache[flow.id := flow];
      }
      o := Outcome(changed, updated, None, Some(Added(flow, flowToReplace)));
    }

    /** What another request does to the table. */
    method Edit(e: Edit)
      modifies this
      ensures flowCache == ApplyOne(old(flowCache), e)
    {
      if e.Put? {
        flowCache := flowCache[e.flow.id := e.flow];
      } else {
        flowCache := flowCache - {e.dropped};
      }
    }

    /** revertAddedFlows */
    method RevertAddedFlows(added: Added)
      modifies this
      ensures flowCache == RevertedFrom(old(flowCache), added)
    {
      if added.flow.id !in flowCache {
        return;
      }
      if added.replaced.Some? {
        flowCache := flowCache[added.flow.id := added.replaced.value];
      } else {
        flowCache := flowCache - {added.flow.id};
      }
    }
  }

  /**
   A successful add, the edits of other requests once its handle is unlocked, then the revert that failed
   responses lead to.
   */
  method AddThenRevert(agent: LogicalAgent, flow: Flow, flags: Flags, edits: seq<Edit>) returns (o: Outcome)
    requires Keyed(agent.flowCache)
    modifies agent
    ensures o.error.None?
    ensures o.changed ==>
      (agent.flowCache == Apply(old(agent.flowCache), edits) <==> RevertIsClean(old(agent.flowCache), flow, flags, edits))
    ensures !o.changed ==> agent.flowCache == Apply(old(agent.flowCache), edits)
  {
    ghost var before := agent.flowCache;
    o := agent.DecomposeAndAdd(flow, flags, Success(()));
    ghost var added := agent.flowCache;
    for i := 0 to |edits|
      invariant agent.flowCache == Apply(added, edits[..i])
    {
      assert edits[..i + 1][..i] == edits[..i];
      agent.Edit(edits[i]);
    }
    assert edits[..|edits|] == edits;
    if o.pending.Some? {
      RevertAfterEditsIff(before, flow, flags, edits);
      agent.RevertAddedFlows(o.pending.value);
    }
  }
}
