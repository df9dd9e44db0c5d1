/** Flow changes that a device agent makes to its cache and sends to the device adapter, in bulk or as a delta. */
module FlowUpdates {
  import opened Prelude

  datatype Flow = Flow(id: nat, content: int)

  type FlowTable = map<nat, Flow>

  /** What is sent to the adapter, if anything. */
  datatype Message =
    | Nothing
    | Bulk(items: seq<Flow>)
    | Incremental(toAdd: seq<Flow>, toRemove: seq<Flow>)

  datatype FlowError = DeviceNotFound | DeletionOrReconcilingInProgress | InvalidDeviceStates | NoDeviceType

  // ---------------------------------------------------------------------------------------------
  // The adapter's side

  /** Adds flows in order; a later flow replaces an earlier one with its id. */
  ghost function AddAll(table: FlowTable, flows: seq<Flow>): FlowTable
    decreases |flows|
  {
    if flows == [] then table
    else AddAll(table, flows[..|flows| - 1])[flows[|flows| - 1].id := flows[|flows| - 1]]
  }

  ghost function Ids(flows: seq<Flow>): set<nat> {
    set i | 0 <= i < |flows| :: flows[i].id
  }

  ghost function RemoveAll(table: FlowTable, flows: seq<Flow>): FlowTable {
    table - Ids(flows)
  }

  /** The adapter's table after a message. */
  ghost function Receive(table: FlowTable, m: Message): FlowTable {
    match m
    case Nothing => table
    case Bulk(items) => AddAll(map[], items)
    case Incremental(toAdd, toRemove) => AddAll(RemoveAll(table, toRemove), toAdd)
  }

  ghost predicate Keyed(table: FlowTable) {
    forall id {:trigger table[id]} :: id in table ==> table[id].id == id
  }

  lemma AddOne(table: FlowTable, flows: seq<Flow>, f: Flow)
    ensures AddAll(table, flows + [f]) == AddAll(table, flows)[f.id := f]
  {
    assert (flows + [f])[..|flows|] == flows;
  }

  lemma RemoveOne(table: FlowTable, flows: seq<Flow>, f: Flow)
    ensures Ids(flows + [f]) == Ids(flows) + {f.id}
    ensures RemoveAll(table, flows + [f]) == RemoveAll(table, flows) - {f.id}
  {
    var more := flows + [f];
    assert more[|flows|] == f;
    forall id | id in Ids(flows)
      ensures id in Ids(more)
    {
      var i :| 0 <= i < |flows| && flows[i].id == id;
      assert more[i].id == id;
    }
  }

  /** Removing an id before adding does not matter for the other ids. */
  lemma {:induction false} RemovedElsewhere(table: FlowTable, id: nat, flows: seq<Flow>)
    ensures AddAll(table - {id}, flows) - {id} == AddAll(table, flows) - {id}
    decreases |flows|
  {
    if flows != [] {
      var front, f := flows[..|flows| - 1], flows[|flows| - 1];
      RemovedElsewhere(table, id, front);
      var a, b := AddAll(table - {id}, front), AddAll(table, front);
      assert forall k :: k in a - {id} <==> k in b - {id};
      forall k | k != id
        ensures k in a <==> k in b
        ensures k in a ==> a[k] == b[k]
      {
        assert k in a - {id} <==> k in b - {id};
        assert k in a ==> (a - {id})[k] == a[k];
        assert k in b ==> (b - {id})[k] == b[k];
      }
    }
  }

  /** Replacing a flow: its old form joins the removals, its new form the additions. */
  lemma ReplaceOne(table: FlowTable, toRemove: seq<Flow>, toAdd: seq<Flow>, g: Flow, f: Flow)
    requires g.id == f.id
    ensures Receive(table, Incremental(toAdd + [f], toRemove + [g])) == Receive(table, Incremental(toAdd, toRemove))[f.id := f]
  {
    RemoveOne(table, toRemove, g);
    var t := RemoveAll(table, toRemove);
    AddOne(t - {g.id}, toAdd, f);
    RemovedElsewhere(t, g.id, toAdd);
    var a, b := AddAll(t - {g.id}, toAdd), AddAll(t, toAdd);
    assert a - {f.id} == b - {f.id};
    assert a[f.id := f] == (a - {f.id})[f.id := f] && b[f.id := f] == (b - {f.id})[f.id := f];
  }

  // ---------------------------------------------------------------------------------------------
  // What the operations do to the cache

  /** Only the flows whose id is in the table. */
  ghost function Known(table: FlowTable, flows: seq<Flow>): seq<Flow>
    decreases |flows|
  {
    if flows == [] then []
    else Known(table, flows[..|flows| - 1]) + if flows[|flows| - 1].id in table then [flows[|flows| - 1]] else []
  }

  lemma RemovalsOnly(table: FlowTable, flows: seq<Flow>)
    ensures Receive(table, Incremental([], flows)) == RemoveAll(table, flows)
    ensures Keyed(table) ==> Keyed(RemoveAll(table, flows))
  {
  }

  /** The table already has exactly this flow. */
  ghost predicate Present(table: FlowTable, f: Flow) {
    f.id in table && table[f.id] == f
  }

  ghost predicate AllPresent(table: FlowTable, flows: seq<Flow>) {
    forall i :: 0 <= i < |flows| ==> Present(table, flows[i])
  }

  /** The delta accounts for every flow: what was there and is added is what is there now and is removed. */
  ghost predicate Balanced(before: FlowTable, after: FlowTable, toAdd: seq<Flow>, toRemove: seq<Flow>) {
    multiset(before.Values) + multiset(toAdd) == multiset(after.Values) + multiset(toRemove)
  }

  lemma ValuesCreate(table: FlowTable, f: Flow)
    requires Keyed(table) && f.id !in table
    ensures multiset(table[f.id := f].Values) == multiset(table.Values) + multiset{f}
  {
    var more := table[f.id := f];
    assert f !in table.Values;
    forall g | g in more.Values
      ensures g in table.Values + {f}
    {
      var id :| id in more && more[id] == g;
      assert id != f.id ==> id in table && table[id] == g;
    }
    forall g | g in table.Values
      ensures g in more.Values
    {
      var id :| id in table && table[id] == g;
      assert id in more && more[id] == g;
    }
    assert f.id in more && more[f.id] == f;
    assert more.Values == table.Values + {f};
  }

  lemma ValuesReplace(table: FlowTable, f: Flow)
    requires Keyed(table) && f.id in table
    ensures multiset(table[f.id := f].Values) + multiset{table[f.id]} == multiset(table.Values) + multiset{f}
  {
    var rest := table - {f.id};
    assert Keyed(rest);
    ValuesCreate(rest, f);
    ValuesCreate(rest, table[f.id]);
    assert rest[f.id := f] == table[f.id := f] && rest[f.id := table[f.id]] == table;
  }

  lemma BothSides(a: multiset<Flow>, b: multiset<Flow>, c: multiset<Flow>, d: multiset<Flow>, c': multiset<Flow>, x: multiset<Flow>, y: multiset<Flow>)
    requires a + b == c + d && c' + y == c + x
    ensures a + (b + x) == c' + (d + y)
  {
    forall h: Flow
      ensures (a + (b + x))[h] == (c' + (d + y))[h]
    {
      assert (a + b)[h] == (c + d)[h] && (c' + y)[h] == (c + x)[h];
    }
  }

  lemma BalanceCreates(before: FlowTable, after: FlowTable, toAdd: seq<Flow>, toRemove: seq<Flow>, f: Flow)
    requires Balanced(before, after, toAdd, toRemove) && Keyed(after) && f.id !in after
    ensures Balanced(before, after[f.id := f], toAdd + [f], toRemove)
  {
    ValuesCreate(after, f);
    assert multiset(toAdd + [f]) == multiset(toAdd) + multiset{f};
    var left := multiset(before.Values);
    BothSides(left, multiset(toAdd), multiset(after.Values), multiset(toRemove), multiset(after[f.id := f].Values), multiset{f}, multiset{});
    assert multiset(toRemove) + multiset{} == multiset(toRemove);
  }

  lemma BalanceReplaces(before: FlowTable, after: FlowTable, toAdd: seq<Flow>, toRemove: seq<Flow>, f: Flow)
    requires Balanced(before, after, toAdd, toRemove) && Keyed(after) && f.id in after
    ensures Balanced(before, after[f.id := f], toAdd + [f], toRemove + [after[f.id]])
  {
    ValuesReplace(after, f);
    var left, g := multiset(before.Values), after[f.id];
    assert multiset(toAdd + [f]) == multiset(toAdd) + multiset{f};
    assert multiset(toRemove + [g]) == multiset(toRemove) + multiset{g};
    BothSides(left, multiset(toAdd), multiset(after.Values), multiset(toRemove), multiset(after[f.id := f].Values), multiset{f}, multiset{g});
  }

  /** When its turn came, flow i of the list was not what the table had. */
  ghost predicate IsChange(before: FlowTable, flows: seq<Flow>, i: int) {
    0 <= i < |flows| && !Present(AddAll(before, flows[..i]), flows[i])
  }

  ghost predicate OnlyChanges(before: FlowTable, flows: seq<Flow>, toAdd: seq<Flow>) {
    forall f <- toAdd :: exists i :: IsChange(before, flows, i) && flows[i] == f
  }

  lemma ChangesGrow(before: FlowTable, flows: seq<Flow>, toAdd: seq<Flow>, f: Flow)
    requires OnlyChanges(before, flows, toAdd)
    ensures OnlyChanges(before, flows + [f], toAdd)
    ensures !Present(AddAll(before, flows), f) ==> OnlyChanges(before, flows + [f], toAdd + [f])
  {
    var more := flows + [f];
    forall g | g in toAdd
      ensures exists i :: IsChange(before, more, i) && more[i] == g
    {
      var i :| IsChange(before, flows, i) && flows[i] == g;
      assert more[..i] == flows[..i];
      assert IsChange(before, more, i);
    }
    assert more[..|flows|] == flows && more[|flows|] == f;
    assert !Present(AddAll(before, flows), f) ==> IsChange(before, more, |flows|);
  }

  /** After adding `flows` to a table, the new table and the delta that leads to it, empty only if nothing was new. */
  ghost predicate IsDelta(before: FlowTable, flows: seq<Flow>, after: FlowTable, toAdd: seq<Flow>, toRemove: seq<Flow>) {
    && Keyed(after) && after == AddAll(before, flows)
    && Receive(before, Incremental(toAdd, toRemove)) == after
    && (toAdd == [] ==> toRemove == [] && after == before)
    && (toAdd == [] <==> AllPresent(before, flows))
    && Balanced(before, after, toAdd, toRemove) && OnlyChanges(before, flows, toAdd)
  }

  lemma NoDelta(before: FlowTable)
    requires Keyed(before)
    ensures IsDelta(before, [], before, [], [])
  {
  }

  lemma OneMorePresent(table: FlowTable, flows: seq<Flow>, f: Flow)
    ensures AllPresent(table, flows + [f]) <==> AllPresent(table, flows) && Present(table, f)
  {
    var more := flows + [f];
    assert more[|flows|] == f;
    assert forall i :: 0 <= i < |flows| ==> more[i] == flows[i];
  }

  lemma DeltaCreates(before: FlowTable, flows: seq<Flow>, after: FlowTable, toAdd: seq<Flow>, toRemove: seq<Flow>, f: Flow)
    requires IsDelta(before, flows, after, toAdd, toRemove) && f.id !in after
    ensures IsDelta(before, flows + [f], after[f.id := f], toAdd + [f], toRemove)
  {
    AddOne(before, flows, f);
    AddOne(RemoveAll(before, toRemove), toAdd, f);
    OneMorePresent(before, flows, f);
    BalanceCreates(before, after, toAdd, toRemove, f);
    ChangesGrow(before, flows, toAdd, f);
  }

  lemma DeltaReplaces(before: FlowTable, flows: seq<Flow>, after: FlowTable, toAdd: seq<Flow>, toRemove: seq<Flow>, f: Flow)
    requires IsDelta(before, flows, after, toAdd, toRemove) && f.id in after && after[f.id] != f
    ensures IsDelta(before, flows + [f], after[f.id := f], toAdd + [f], toRemove + [after[f.id]])
  {
    AddOne(before, flows, f);
    ReplaceOne(before, toRemove, toAdd, after[f.id], f);
    OneMorePresent(before, flows, f);
    BalanceReplaces(before, after, toAdd, toRemove, f);
    ChangesGrow(before, flows, toAdd, f);
  }

  lemma DeltaSkips(before: FlowTable, flows: seq<Flow>, after: FlowTable, toAdd: seq<Flow>, toRemove: seq<Flow>, f: Flow)
    requires IsDelta(before, flows, after, toAdd, toRemove) && f.id in after && after[f.id] == f
    ensures IsDelta(before, flows + [f], after, toAdd, toRemove)
  {
    AddOne(before, flows, f);
    OneMorePresent(before, flows, f);
    ChangesGrow(before, flows, toAdd, f);
    assert after[f.id := f] == after;
  }

  // ---------------------------------------------------------------------------------------------
  // The same, without saying how it is computed

  ghost predicate Mentions(flows: seq<Flow>, id: nat) {
    exists i :: 0 <= i < |flows| && flows[i].id == id
  }

  /** Flow i is the last of the list with its id. */
  ghost predicate IsLastOf(flows: seq<Flow>, id: nat, i: int) {
    0 <= i < |flows| && flows[i].id == id && forall j :: i < j < |flows| ==> flows[j].id != id
  }

  /** At this id, the result has the last flow of the list with that id, or what the table had if there is none. */
  ghost predicate HoldsLast(table: FlowTable, flows: seq<Flow>, result: FlowTable, id: nat) {
    && (forall i :: IsLastOf(flows, id, i) ==> id in result && result[id] == flows[i])
    && (!Mentions(flows, id) ==> (id in result <==> id in table) && (id in table ==> result[id] == table[id]))
  }

  lemma LastGrows(flows: seq<Flow>, f: Flow, id: nat, i: int)
    ensures IsLastOf(flows + [f], id, i) <==> if f.id == id then i == |flows| else IsLastOf(flows, id, i)
    ensures Mentions(flows + [f], id) <==> Mentions(flows, id) || f.id == id
  {
    var more := flows + [f];
    assert more[|flows|] == f;
    assert forall j :: 0 <= j < |flows| ==> more[j] == flows[j];
    if Mentions(flows, id) {
      var j :| 0 <= j < |flows| && flows[j].id == id;
      assert more[j].id == id;
    }
  }

  lemma HoldsLastGrows(table: FlowTable, flows: seq<Flow>, result: FlowTable, f: Flow, id: nat)
    requires HoldsLast(table, flows, result, id)
    ensures HoldsLast(table, flows + [f], result[f.id := f], id)
    ensures f.id != id ==> HoldsLast(table, flows + [f], result, id)
  {
    var more := flows + [f];
    forall i
      ensures IsLastOf(more, id, i) <==> if f.id == id then i == |flows| else IsLastOf(flows, id, i)
      ensures Mentions(more, id) <==> Mentions(flows, id) || f.id == id
    {
      LastGrows(flows, f, id, i);
    }
    assert more[|flows|] == f;
    assert forall i :: 0 <= i < |flows| ==> more[i] == flows[i];
  }

  /** Adding flows in order leaves the last flow of every id. */
  lemma {:induction false} AddAllHoldsLast(table: FlowTable, flows: seq<Flow>, id: nat)
    ensures HoldsLast(table, flows, AddAll(table, flows), id)
    decreases |flows|
  {
    if flows != [] {
      var front, f := flows[..|flows| - 1], flows[|flows| - 1];
      AddAllHoldsLast(table, front, id);
      HoldsLastGrows(table, front, AddAll(table, front), f, id);
      assert flows == front + [f];
    }
  }

  lemma KnownOne(table: FlowTable, flows: seq<Flow>, f: Flow)
    ensures Known(table, flows + [f]) == if f.id in table then Known(table, flows) + [f] else Known(table, flows)
  {
    assert (flows + [f])[..|flows|] == flows;
    assert Known(table, flows) + [] == Known(table, flows);
  }

  lemma UpdateOne(table: FlowTable, flows: seq<Flow>, f: Flow)
    ensures var before, after := AddAll(table, Known(table, flows)), AddAll(table, Known(table, flows + [f]));
            after == if f.id in table then before[f.id := f] else before
  {
    KnownOne(table, flows, f);
    AddOne(table, Known(table, flows), f);
  }

  /** Adding only the known flows leaves the keys as they were, and the last flow of every id that was there. */
  lemma {:induction false} AddKnownHoldsLast(table: FlowTable, flows: seq<Flow>, id: nat)
    ensures AddAll(table, Known(table, flows)).Keys == table.Keys
    ensures id in table ==> HoldsLast(table, flows, AddAll(table, Known(table, flows)), id)
    decreases |flows|
  {
    if flows != [] {
      var front, f := flows[..|flows| - 1], flows[|flows| - 1];
      AddKnownHoldsLast(table, front, id);
      assert flows == front + [f];
      UpdateOne(table, front, f);
      if id in table {
        HoldsLastGrows(table, front, AddAll(table, Known(table, front)), f, id);
      }
    }
  }

  lemma {:induction false} NoneKnown(table: FlowTable, flows: seq<Flow>)
    ensures Known(table, flows) == [] <==> forall i :: 0 <= i < |flows| ==> flows[i].id !in table
    decreases |flows|
  {
    if flows != [] {
      var front, f := flows[..|flows| - 1], flows[|flows| - 1];
      NoneKnown(table, front);
      assert flows == front + [f];
      KnownOne(table, front, f);
      assert forall i :: 0 <= i < |front| ==> flows[i] == front[i];
    }
  }

  lemma RemoveAllDrops(table: FlowTable, flows: seq<Flow>, id: nat)
    ensures id in RemoveAll(table, flows) <==> id in table && !Mentions(flows, id)
    ensures id in RemoveAll(table, flows) ==> RemoveAll(table, flows)[id] == table[id]
  {
    assert id in Ids(flows) <==> Mentions(flows, id);
  }

  lemma UpdatesHoldLast(table: FlowTable, flows: seq<Flow>)
    ensures var result := AddAll(table, Known(table, flows));
            && result.Keys == table.Keys
            && (forall id :: id in table ==> HoldsLast(table, flows, result, id))
            && (Known(table, flows) == [] <==> forall i :: 0 <= i < |flows| ==> flows[i].id !in table)
  {
    AddKnownHoldsLast(table, flows, 0);
    NoneKnown(table, flows);
    forall id: nat | id in table
      ensures HoldsLast(table, flows, AddAll(table, Known(table, flows)), id)
    {
      AddKnownHoldsLast(table, flows, id);
    }
  }

  /** After updating a table with `flows`, the new table and the delta that leads to it. */
  ghost predicate IsUpdate(before: FlowTable, flows: seq<Flow>, after: FlowTable, toAdd: seq<Flow>, toRemove: seq<Flow>) {
    && Keyed(after) && after == AddAll(before, Known(before, flows)) && after.Keys == before.Keys
    && Receive(before, Incremental(toAdd, toRemove)) == after
    && toAdd == Known(before, flows) && |toRemove| == |toAdd|
  }

  lemma UpdateReplaces(before: FlowTable, flows: seq<Flow>, after: FlowTable, toAdd: seq<Flow>, toRemove: seq<Flow>, f: Flow)
    requires IsUpdate(before, flows, after, toAdd, toRemove) && f.id in after
    ensures IsUpdate(before, flows + [f], after[f.id := f], toAdd + [f], toRemove + [after[f.id]])
  {
    KnownOne(before, flows, f);
    AddOne(before, toAdd, f);
    ReplaceOne(before, toRemove, toAdd, after[f.id], f);
  }

  lemma UpdateSkips(before: FlowTable, flows: seq<Flow>, after: FlowTable, toAdd: seq<Flow>, toRemove: seq<Flow>, f: Flow)
    requires IsUpdate(before, flows, after, toAdd, toRemove) && f.id !in after
    ensures IsUpdate(before, flows + [f], after, toAdd, toRemove)
  {
    KnownOne(before, flows, f);
  }

  class Agent {
    var flowCache: FlowTable

    constructor ()
      ensures flowCache == map[]
    {
      flowCache := map[];
    }

    /** listDeviceFlows as the list sent in bulk, in any order: it rebuilds the cache. */
    method ListDeviceFlows() returns (flows: seq<Flow>)
      requires Keyed(flowCache)
      ensures AddAll(map[], flows) == flowCache && |flows| == |flowCache|
    {
      flows := [];
      var todo := flowCache.Keys;
      ghost var done: FlowTable := map[];
      while todo != {}
        invariant todo <= flowCache.Keys && done.Keys == flowCache.Keys - todo
        invariant forall id :: id in done ==> done[id] == flowCache[id]
        invariant AddAll(map[], flows) == done && |flows| + |todo| == |flowCache.Keys|
        decreases todo
      {
        var id :| id in todo;
        todo := todo - {id};
        AddOne(map[], flows, flowCache[id]);
        flows := flows + [flowCache[id]];
        done := done[id := flowCache[id]];
      }
      assert done == flowCache;
    }

    /**
     addFlowsToAdapter.  `ready` is the outcome of the checks before the loop, with whether the device type
     accepts deltas.  An adapter that held the old cache holds the new one after the message.
     */
    method AddFlows(newFlows: seq<Flow>, ready: Result<bool, FlowError>) returns (r: Result<Message, FlowError>)
      requires Keyed(flowCache)
      modifies this
      ensures Keyed(flowCache)
      ensures newFlows != [] && ready.Failure? ==> r == Failure(ready.error) && flowCache == old(flowCache)
      ensures newFlows == [] || ready.Success? ==>
        && r.Success?
        && flowCache == AddAll(old(flowCache), newFlows)
        && (forall id :: HoldsLast(old(flowCache), newFlows, flowCache, id))
        && Receive(old(flowCache), r.value) == flowCache
        && (r.value == Nothing <==> AllPresent(old(flowCache), newFlows))
        && (r.value.Bulk? ==> !ready.value)
        && (r.value.Incremental? ==>
              && ready.value && OnlyChanges(old(flowCache), newFlows, r.value.toAdd)
              && Balanced(old(flowCache), flowCache, r.value.toAdd, r.value.toRemove))
    {
      forall id: nat
        ensures HoldsLast(old(flowCache), newFlows, AddAll(old(flowCache), newFlows), id)
      {
        AddAllHoldsLast(old(flowCache), newFlows, id);
      }
      if newFlows == [] {
        return Success(Nothing);
      }
      if ready.Failure? {
        return Failure(ready.error);
      }
      var flowsToAdd, flowsToDelete := StoreFlows(newFlows);
      if |flowsToAdd| == 0 {
        return Success(Nothing);
      }
      if !ready.value {
        var all := ListDeviceFlows();
        return Success(Bulk(all));
      }
      r := Success(Incremental(flowsToAdd, flowsToDelete));
    }

    /** The loop of addFlowsToAdapter. */
    method StoreFlows(newFlows: seq<Flow>) returns (toAdd: seq<Flow>, toRemove: seq<Flow>)
      requires Keyed(flowCache)
      modifies this
      ensures IsDelta(old(flowCache), newFlows, flowCache, toAdd, toRemove)
    {
      toAdd, toRemove := [], [];
      NoDelta(flowCache);
      for i := 0 to |newFlows|
        invariant IsDelta(old(flowCache), newFlows[..i], flowCache, toAdd, toRemove)
      {
        var flow := newFlows[i];
        assert newFlows[..i + 1] == newFlows[..i] + [flow];
        if flow.id !in flowCache {
          DeltaCreates(old(flowCache), newFlows[..i], flowCache, toAdd, toRemove, flow);
          flowCache := flowCache[flow.id := flow];
          toAdd := toAdd + [flow];
        } else {
          var flowToReplace := flowCache[flow.id];
          if flowToReplace != flow {
            DeltaReplaces(old(flowCache), newFlows[..i], flowCache, toAdd, toRemove, flow);
            flowCache := flowCache[flow.id := flow];
            toRemove, toAdd := toRemove + [flowToReplace], toAdd + [flow];
          } else {
            DeltaSkips(old(flowCache), newFlows[..i], flowCache, toAdd, toRemove, flow);
          }
        }
      }
      assert newFlows[..|newFlows|] == newFlows;
    }

    /** updateFlowsToAdapter: flows that are not cached are ignored. */
    method UpdateFlows(updatedFlows: seq<Flow>, ready: Result<bool, FlowError>) returns (r: Result<Message, FlowError>)
      requires Keyed(flowCache)
      modifies this
      ensures Keyed(flowCache)
      ensures updatedFlows != [] && ready.Failure? ==> r == Failure(ready.error) && flowCache == old(flowCache)
      ensures updatedFlows == [] || ready.Success? ==>
        && r.Success?
        && flowCache == AddAll(old(flowCache), Known(old(flowCache), updatedFlows))
        && Receive(old(flowCache), r.value) == flowCache
        && flowCache.Keys == old(flowCache).Keys
        && (forall id :: id in old(flowCache) ==> HoldsLast(old(flowCache), updatedFlows, flowCache, id))
        && (r.value.Bulk? <==> updatedFlows != [] && !ready.value)
        && (r.value == Nothing <==>
              updatedFlows == [] || (ready.value && forall i :: 0 <= i < |updatedFlows| ==> updatedFlows[i].id !in old(flowCache)))
        && (r.value.Incremental? ==>
              && r.value.toAdd == Known(old(flowCache), updatedFlows)
              && Balanced(old(flowCache), flowCache, r.value.toAdd, r.value.toRemove))
    {
      UpdatesHoldLast(flowCache, updatedFlows);
      if updatedFlows == [] {
        return Success(Nothing);
      }
      if ready.Failure? {
        return Failure(ready.error);
      }
      var flowsToAdd, flowsToDelete := ReplaceFlows(updatedFlows);
      if !ready.value {
        var all := ListDeviceFlows();
        return Success(Bulk(all));
      }
      if |flowsToAdd| == 0 && |flowsToDelete| == 0 {
        return Success(Nothing);
      }
      r := Success(Incremental(flowsToAdd, flowsToDelete));
    }

    /** The loop of updateFlowsToAdapter. */
    method ReplaceFlows(updatedFlows: seq<Flow>) returns (toAdd: seq<Flow>, toRemove: seq<Flow>)
      requires Keyed(flowCache)
      modifies this
      ensures IsUpdate(old(flowCache), updatedFlows, flowCache, toAdd, toRemove)
      ensures Balanced(old(flowCache), flowCache, toAdd, toRemove)
    {
      toAdd, toRemove := [], [];
      for i := 0 to |updatedFlows|
        invariant IsUpdate(old(flowCache), updatedFlows[..i], flowCache, toAdd, toRemove)
        invariant Balanced(old(flowCache), flowCache, toAdd, toRemove)
      {
        var flow := updatedFlows[i];
        assert updatedFlows[..i + 1] == updatedFlows[..i] + [flow];
        if flow.id in flowCache {
          var flowToDelete := flowCache[flow.id];
          UpdateReplaces(old(flowCache), updatedFlows[..i], flowCache, toAdd, toRemove, flow);
          BalanceReplaces(old(flowCache), flowCache, toAdd, toRemove, flow);
          flowCache := flowCache[flow.id := flow];
          toRemove, toAdd := toRemove + [flowToDelete], toAdd + [flow];
        } else {
          UpdateSkips(old(flowCache), updatedFlows[..i], flowCache, toAdd, toRemove, flow);
        }
      }
      assert updatedFlows[..|updatedFlows|] == updatedFlows;
    }

    /** deleteFlowsFromAdapter: flows are deleted by id, and ids that are not cached are ignored. */
    method DeleteFlows(flowsToDel: seq<Flow>, ready: Result<bool, FlowError>) returns (r: Result<Message, FlowError>)
      requires Keyed(flowCache)
      modifies this
      ensures Keyed(flowCache)
      ensures flowsToDel != [] && ready.Failure? ==> r == Failure(ready.error) && flowCache == old(flowCache)
      ensures flowsToDel == [] || ready.Success? ==>
        && r.Success?
        && flowCache == RemoveAll(old(flowCache), flowsToDel)
        && (forall id :: id in flowCache <==> id in old(flowCache) && !Mentions(flowsToDel, id))
        && (forall id :: id in flowCache ==> flowCache[id] == old(flowCache)[id])
        && Receive(old(flowCache), r.value) == flowCache
        && (r.value == Nothing <==> flowsToDel == []) && (r.value.Bulk? ==> !ready.value)
        && (r.value.Incremental? ==> r.value == Incremental([], flowsToDel))
    {
      forall id: nat
        ensures id in RemoveAll(old(flowCache), flowsToDel) <==> id in old(flowCache) && !Mentions(flowsToDel, id)
      {
        RemoveAllDrops(old(flowCache), flowsToDel, id);
      }
      if flowsToDel == [] {
        return Success(Nothing);
      }
      if ready.Failure? {
        return Failure(ready.error);
      }
      RemoveFlows(flowsToDel);
      RemovalsOnly(old(flowCache), flowsToDel);
      if !ready.value {
        var all := ListDeviceFlows();
        return Success(Bulk(all));
      }
      r := Success(Incremental([], flowsToDel));
    }

    /** The loop of deleteFlowsFromAdapter. */
    method RemoveFlows(flowsToDel: seq<Flow>)
      modifies this
      ensures flowCache == RemoveAll(old(flowCache), flowsToDel)
    {
      for i := 0 to |flowsToDel|
        invariant flowCache == RemoveAll(old(flowCache), flowsToDel[..i])
      {
        var flow := flowsToDel[i];
        assert flowsToDel[..i + 1] == flowsToDel[..i] + [flow];
        RemoveOne(old(flowCache), flowsToDel[..i], flow);
        if flow.id in flowCache {
          flowCache := flowCache - {flow.id};
        }
      }
      assert flowsToDel[..|flowsToDel|] == flowsToDel;
    }
  }

  /** A request to the agent, and whether the checks before it pass. */
  datatype Request =
    | Add(flows: seq<Flow>, ready: Result<bool, FlowError>)
    | Update(flows: seq<Flow>, ready: Result<bool, FlowError>)
    | Delete(flows: seq<Flow>, ready: Result<bool, FlowError>)

  /** Any run of requests over adapters of any kind: an adapter that gets every message holds the cache throughout. */
  method Serve(agent: Agent, requests: seq<Request>) returns (sent: seq<Message>, ghost adapter: FlowTable)
    requires Keyed(agent.flowCache)
    modifies agent
    ensures adapter == ReceiveAll(old(agent.flowCache), sent) == agent.flowCache == Served(old(agent.flowCache), requests)
    ensures |sent| == |requests|
  {
    sent := [];
    adapter := agent.flowCache;
    for i := 0 to |requests|
      invariant Keyed(agent.flowCache) && |sent| == i && agent.flowCache == Served(old(agent.flowCache), requests[..i])
      invariant adapter == ReceiveAll(old(agent.flowCache), sent) == agent.flowCache
    {
      var r: Result<Message, FlowError>;
      match requests[i] {
        case Add(flows, ready) => r := agent.AddFlows(flows, ready);
        case Update(flows, ready) => r := agent.UpdateFlows(flows, ready);
        case Delete(flows, ready) => r := agent.DeleteFlows(flows, ready);
      }
      var m := if r.Success? then r.value else Nothing;
      assert (sent + [m])[..i] == sent;
      sent := sent + [m];
      adapter := Receive(adapter, m);
      assert requests[..i + 1][..i] == requests[..i];
    }
    assert requests[..|requests|] == requests;
  }

  /** What a request does to a table: nothing if the checks before it fail. */
  ghost function ServedOne(table: FlowTable, r: Request): FlowTable {
    if r.ready.Failure? then table
    else
      match r
      case Add(flows, _) => AddAll(table, flows)
      case Update(flows, _) => AddAll(table, Known(table, flows))
      case Delete(flows, _) => RemoveAll(table, flows)
  }

  ghost function Served(table: FlowTable, requests: seq<Request>): FlowTable
    decreases |requests|
  {
    if requests == [] then table else ServedOne(Served(table, requests[..|requests| - 1]), requests[|requests| - 1])
  }

  ghost function ReceiveAll(table: FlowTable, ms: seq<Message>): FlowTable
    decreases |ms|
  {
    if ms == [] then table else Receive(ReceiveAll(table, ms[..|ms| - 1]), ms[|ms| - 1])
  }
}
