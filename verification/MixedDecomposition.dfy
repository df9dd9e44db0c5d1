/**
 Trap flows and two-table flows installed together.  Both leave flows in the OLT's one table, where they
 compete for the packets that ONUs pass on.
 */
module MixedDecomposition {
  import opened Prelude
  import opened PonTopology
  import opened RouteSpec
  import opened OpenFlowSemantics
  import opened FlowDecomposition
  import opened DecompositionLemmas
  import opened LogicalAgentRoutes
  import opened UpstreamDecomposition
  import opened TrapDecomposition

  /** A trap in table 0. */
  ghost predicate IsTrapFlow(net: Net, f: Flow) {
    IsTrap(net, f) && f.tableId == 0 && f.gotoTable == 0
  }

  ghost predicate IsMixed(net: Net, f: Flow) {
    IsFirst(net, f) || IsSecond(net, f) || IsTrapFlow(net, f)
  }

  /** Flows of all three kinds, of any UNIs and in any order, with the NNI that the agent picked for each trap. */
  ghost predicate AreMixed(net: Net, flows: seq<Flow>, via: seq<nat>) {
    |via| == |flows| && forall i :: 0 <= i < |flows| ==> IsMixed(net, flows[i]) && IsNni(net.ports, via[i])
  }

  ghost function MixedPath(net: Net, f: Flow, n: nat): Route
    requires IsMixed(net, f) && IsNni(net.ports, n)
  {
    if IsTrapFlow(net, f) then [OnuHop(net, GetInPort(f.fields)), OltHop(net, GetInPort(f.fields), n)] else PathOf(net, f)
  }

  /** What one flow contributes to device d. */
  ghost function MixedRules(net: Net, f: Flow, n: nat, d: string): seq<Flow>
    requires IsNet(net) && IsMixed(net, f) && IsNni(net.ports, n)
  {
    assert GetInPort(f.fields) in net.ports;
    RulesFor(MixedPath(net, f, n), RootsOf(net.ports), net.root, f, d)
  }

  ghost function AllRules(net: Net, flows: seq<Flow>, via: seq<nat>, d: string): seq<seq<Flow>>
    requires IsNet(net) && AreMixed(net, flows, via)
  {
    seq(|flows|, i requires 0 <= i < |flows| => MixedRules(net, flows[i], via[i], d))
  }

  /** The flows of device d once all flows are decomposed. */
  ghost function MixedInstalled(net: Net, flows: seq<Flow>, via: seq<nat>, d: string): seq<Flow>
    requires IsNet(net) && AreMixed(net, flows, via)
  {
    Concat(AllRules(net, flows, via, d))
  }

  // ---------------------------------------------------------------------------------------------
  // The OLT's view of a flow

  /** The OLT part of a trap, as a flow of table 1 would say it. */
  ghost function TrapView(f: Flow, n: nat): Flow {
    Flow(1, f.priority, f.cookie,
         [InPort(GetInPort(f.fields))] + TrapRest(f), [Output(n)], 0, OltMeter(f), f.writeMetadata)
  }

  ghost function TrapRest(f: Flow): seq<Field> {
    GetOfbFields(f.fields, {InPortType, VlanVidType, VlanPcpType})
    + (if SetVid(f).Some? then [VlanVid(SetVid(f).value)] else [])
    + (if SetVid(f).Some? && SetPcp(f).Some? then [VlanPcp(SetPcp(f).value)] else [])
  }

  ghost function View(net: Net, f: Flow, n: nat): Flow {
    if IsTrapFlow(net, f) then TrapView(f, n) else f
  }

  ghost function Views(net: Net, flows: seq<Flow>, via: seq<nat>): seq<Flow>
    requires |via| == |flows|
  {
    seq(|flows|, i requires 0 <= i < |flows| => View(net, flows[i], via[i]))
  }

  lemma {:induction false} FieldsConcat(a: seq<Field>, b: seq<Field>, exclude: set<FieldType>)
    ensures GetOfbFields(a + b, exclude) == GetOfbFields(a, exclude) + GetOfbFields(b, exclude)
    decreases |a|
  {
    if a == [] {
      assert a + b == b;
    } else {
      assert (a + b)[0] == a[0] && (a + b)[1..] == a[1..] + b;
      FieldsConcat(a[1..], b, exclude);
    }
  }

  lemma {:induction false} NothingToExclude(fields: seq<Field>, exclude: set<FieldType>)
    requires forall f <- fields :: TypeOf(f) !in exclude
    ensures GetOfbFields(fields, exclude) == fields
    decreases |fields|
  {
    if fields != [] {
      NothingToExclude(fields[1..], exclude);
      assert [fields[0]] + fields[1..] == fields;
    }
  }

  lemma {:induction false} FieldsAreFrom(fields: seq<Field>, exclude: set<FieldType>)
    ensures forall f <- GetOfbFields(fields, exclude) :: f in fields && TypeOf(f) !in exclude
    decreases |fields|
  {
    if fields != [] {
      FieldsAreFrom(fields[1..], exclude);
      assert fields == [fields[0]] + fields[1..];
    }
  }

  lemma TrapRestFields(f: Flow)
    requires IsLogical(f)
    ensures forall g <- TrapRest(f) :: !g.InPort? && !g.TunnelId?
  {
    var exclude := {InPortType, VlanVidType, VlanPcpType};
    FieldsAreFrom(f.fields, exclude);
    forall g | g in TrapRest(f)
      ensures !g.InPort? && !g.TunnelId?
    {
      if g in GetOfbFields(f.fields, exclude) {
        var i :| 0 <= i < |f.fields| && f.fields[i] == g;
      }
    }
  }

  lemma TrapViewIsLogical(f: Flow, n: nat)
    requires IsLogical(f)
    ensures IsLogical(TrapView(f, n)) && GetInPort(TrapView(f, n).fields) == GetInPort(f.fields)
  {
    var u, v, rest := GetInPort(f.fields), TrapView(f, n), TrapRest(f);
    TrapRestFields(f);
    forall i | 0 <= i < |v.fields|
      ensures !v.fields[i].TunnelId? && (v.fields[i].InPort? ==> v.fields[i].portNo == u)
    {
      assert i > 0 ==> v.fields[i] == rest[i - 1] && rest[i - 1] in rest;
    }
  }

  /** The OLT flow of the view is the trap's. */
  lemma TrapViewCompiles(f: Flow, n: nat, hop: Hop)
    requires IsLogical(f)
    ensures OltFlow(TrapView(f, n), hop, GetInPort(f.fields)) == TrapOltFlow(f, hop, GetInPort(f.fields))
  {
    var u, v := GetInPort(f.fields), TrapView(f, n);
    TrapViewFields(f, n);
    assert WithoutOutputs(v.actions) == [] by {
      assert v.actions[1..] == [];
    }
    assert OltFlow(v, hop, u).actions == TrapOltFlow(f, hop, u).actions;
    assert OltFlow(v, hop, u).fields == TrapOltFlow(f, hop, u).fields;
  }

  /** The view of a trap is a flow of table 1. */
  lemma TrapViewIsSecond(net: Net, f: Flow, n: nat)
    requires IsNet(net) && IsTrapFlow(net, f) && IsNni(net.ports, n)
    ensures IsSecond(net, TrapView(f, n)) && GetInPort(TrapView(f, n).fields) == GetInPort(f.fields)
  {
    TrapViewIsLogical(f, n);
    assert Body(TrapView(f, n).actions) == [];
  }

  lemma OneExcluded(f: Field, exclude: set<FieldType>)
    requires TypeOf(f) in exclude
    ensures GetOfbFields([f], exclude) == []
  {
    assert [f][1..] == [];
  }

  lemma TrapViewFields(f: Flow, n: nat)
    requires IsLogical(f)
    ensures GetOfbFields(TrapView(f, n).fields, {InPortType}) == TrapRest(f)
  {
    var u, rest := GetInPort(f.fields), TrapRest(f);
    TrapRestFields(f);
    FieldsConcat([InPort(u)], rest, {InPortType});
    OneExcluded(InPort(u), {InPortType});
    RestHasNoInPort(rest);
    assert GetOfbFields([InPort(u)] + rest, {InPortType}) == [] + rest;
  }

  lemma RestHasNoInPort(fields: seq<Field>)
    requires forall g <- fields :: !g.InPort?
    ensures GetOfbFields(fields, {InPortType}) == fields
  {
    forall g | g in fields
      ensures TypeOf(g) !in {InPortType}
    {
    }
    NothingToExclude(fields, {InPortType});
  }

  lemma TrapViewTrapField(f: Flow, n: nat)
    ensures HasTrapField(TrapView(f, n).fields) <==> HasTrapField(f.fields)
  {
    var exclude := {InPortType, VlanVidType, VlanPcpType};
    var front, rest := [InPort(GetInPort(f.fields))], GetOfbFields(f.fields, exclude);
    var vid := if SetVid(f).Some? then [VlanVid(SetVid(f).value)] else [];
    var pcp := if SetVid(f).Some? && SetPcp(f).Some? then [VlanPcp(SetPcp(f).value)] else [];
    HasTrapConcat(rest, vid);
    HasTrapConcat(rest + vid, pcp);
    HasTrapConcat(front, TrapRest(f));
    TrapFieldsStay(f.fields, exclude);
    assert !HasTrapField(front) && !HasTrapField(vid) && !HasTrapField(pcp);
  }

  lemma TrapRulesAt(net: Net, f: Flow, n: nat, d: string)
    requires IsNet(net) && IsTrapFlow(net, f) && IsNni(net.ports, n)
    ensures var u := GetInPort(f.fields);
            MixedRules(net, f, n, d) ==
            if d == Onu(net, u) then [TrapOnuFlow(f, OnuHop(net, u), u)]
            else if d == net.root then [Redirected(TrapOltFlow(f, OltHop(net, u, n), u))]
            else []
  {
    var u := GetInPort(f.fields);
    assert u in net.ports && u != 0;
    assert Onu(net, u) != net.root && net.ports[n].deviceId == net.root;
    assert u !in RootsOf(net.ports);
  }

  // ---------------------------------------------------------------------------------------------
  // Lookups

  /** To packets of UNI u, what a flow contributes to the ONU of u is its image in table 0. */
  lemma MixedOnuImage(net: Net, f: Flow, n: nat, u: nat, p: Packet)
    requires IsNet(net) && IsMixed(net, f) && IsNni(net.ports, n) && Reachable(net, u) && p.inPort == u
    ensures IsImage(f, 0, p, MixedRules(net, f, n, Onu(net, u)), Moved(p, OnuHop(net, u).ingress, u))
    ensures IsHit(f, 0, p) ==> !IsSecond(net, f) && GetInPort(f.fields) == u
    ensures IsHit(f, 0, p) && IsTrapFlow(net, f) ==> MixedRules(net, f, n, Onu(net, u)) == [TrapOnuFlow(f, OnuHop(net, u), u)]
    ensures IsHit(f, 0, p) && IsFirst(net, f) ==> MixedRules(net, f, n, Onu(net, u)) == [OnOnu(net, u, f)]
  {
    var v := GetInPort(f.fields);
    assert v in net.ports && v != 0;
    SplitInPort(f, p);
    if IsTrapFlow(net, f) {
      TrapRulesAt(net, f, n, Onu(net, u));
      CompiledMatch(f, OnuHop(net, v).ingress, p, OnuHop(net, u).ingress);
      assert Onu(net, u) != net.root;
    } else {
      OnuImage(net, f, u, p);
    }
  }

  /** To packets of UNI u, what a flow contributes to the OLT is the image of its view in table 1. */
  lemma MixedOltImage(net: Net, f: Flow, n: nat, u: nat, p: Packet)
    requires IsNet(net) && IsMixed(net, f) && IsNni(net.ports, n) && Reachable(net, u) && p.inPort == u
    ensures IsImage(View(net, f, n), 1, p, MixedRules(net, f, n, net.root), Moved(p, ParentPon(net.devices, net.root, Onu(net, u)), u))
    ensures IsHit(View(net, f, n), 1, p) ==>
      && IsSecond(net, View(net, f, n)) && GetInPort(View(net, f, n).fields) == u
      && MixedRules(net, f, n, net.root) == [OnOlt(net, u, View(net, f, n))]
  {
    var v, w := GetInPort(f.fields), View(net, f, n);
    assert v in net.ports && v != 0;
    if IsTrapFlow(net, f) {
      TrapViewIsSecond(net, f, n);
      TrapRulesAt(net, f, n, net.root);
      assert Onu(net, v) != net.root;
      TrapViewCompiles(f, n, OltHop(net, v, n));
      SecondRules(net, w, net.root);
    }
    OltImage(net, w, u, p);
    SplitInPort(w, p);
  }

  lemma MixedOnuLookup(net: Net, flows: seq<Flow>, via: seq<nat>, u: nat, p: Packet)
    requires IsNet(net) && AreMixed(net, flows, via) && Reachable(net, u) && p.inPort == u
    ensures var found := Lookup(flows, 0, p);
            var device := Lookup(MixedInstalled(net, flows, via, Onu(net, u)), 0, Moved(p, OnuHop(net, u).ingress, u));
            && (found.None? <==> device.None?)
            && (found.Some? ==>
                  && (IsFirst(net, found.value) || IsTrapFlow(net, found.value)) && GetInPort(found.value.fields) == u
                  && device.value == if IsTrapFlow(net, found.value) then TrapOnuFlow(found.value, OnuHop(net, u), u) else OnOnu(net, u, found.value))
  {
    var images, dp := AllRules(net, flows, via, Onu(net, u)), Moved(p, OnuHop(net, u).ingress, u);
    forall i | 0 <= i < |flows|
      ensures IsImage(flows[i], 0, p, images[i], dp)
    {
      MixedOnuImage(net, flows[i], via[i], u, p);
    }
    LookupSimulation(flows, images, 0, p, dp);
    var best := Best(flows, 0, p);
    if best.Some? {
      MixedOnuImage(net, flows[best.value], via[best.value], u, p);
    }
  }

  lemma MixedOltLookup(net: Net, flows: seq<Flow>, via: seq<nat>, u: nat, p: Packet)
    requires IsNet(net) && AreMixed(net, flows, via) && Reachable(net, u) && p.inPort == u
    ensures var found := Lookup(Views(net, flows, via), 1, p);
            && (found.Some? ==> IsSecond(net, found.value) && GetInPort(found.value.fields) == u)
            && Lookup(MixedInstalled(net, flows, via, net.root), 0, Moved(p, ParentPon(net.devices, net.root, Onu(net, u)), u)) ==
               (if found.None? then None else Some(OnOlt(net, u, found.value)))
  {
    var images, dp := AllRules(net, flows, via, net.root), Moved(p, ParentPon(net.devices, net.root, Onu(net, u)), u);
    var views := Views(net, flows, via);
    forall i | 0 <= i < |views|
      ensures IsImage(views[i], 1, p, images[i], dp)
    {
      MixedOltImage(net, flows[i], via[i], u, p);
    }
    LookupSimulation(views, images, 1, p, dp);
    var best := Best(views, 1, p);
    if best.Some? {
      MixedOltImage(net, flows[best.value], via[best.value], u, p);
    }
  }

  // ---------------------------------------------------------------------------------------------
  // What the devices send

  /** The headers with which the ONU passes a packet on that it found flow f for. */
  ghost function PassedOn(net: Net, f: Flow, p: Packet): Packet {
    Packet(p.inPort, p.tunnel, if IsTrapFlow(net, f) then Tagged(f, p.h) else After(f.actions, p).h)
  }

  /** What a flow of table 1 sends from the OLT. */
  ghost function FromOlt(w: Flow, q: Packet): seq<Sent>
    requires |w.actions| > 0 && w.actions[|w.actions| - 1].Output?
  {
    [Sent(if HasTrapField(w.fields) then OFPP_CONTROLLER else w.actions[|w.actions| - 1].port, After(Body(w.actions), q).h)]
  }

  lemma OnuPassesOn(net: Net, flows: seq<Flow>, via: seq<nat>, u: nat, p: Packet)
    requires IsNet(net) && AreMixed(net, flows, via) && Reachable(net, u) && p.inPort == u
    ensures var first := Lookup(flows, 0, p);
            Switch(MixedInstalled(net, flows, via, Onu(net, u)), 0, 0, Moved(p, OnuHop(net, u).ingress, u)) ==
            if first.None? then [] else [Sent(OnuHop(net, u).egress, PassedOn(net, first.value, p).h)]
  {
    var first, dp := Lookup(flows, 0, p), Moved(p, OnuHop(net, u).ingress, u);
    MixedOnuLookup(net, flows, via, u, p);
    OneTable(MixedInstalled(net, flows, via, Onu(net, u)), dp);
    if first.Some? {
      if IsTrapFlow(net, first.value) {
        OnuTags(first.value, OnuHop(net, u), u, dp);
      } else {
        OnuSends(net, u, first.value, p);
      }
    }
  }

  lemma OltPassesOn(net: Net, flows: seq<Flow>, via: seq<nat>, u: nat, q: Packet)
    requires IsNet(net) && AreMixed(net, flows, via) && Reachable(net, u) && q.inPort == u
    ensures var w := Lookup(Views(net, flows, via), 1, q);
            && (w.Some? ==> IsSecond(net, w.value))
            && Switch(MixedInstalled(net, flows, via, net.root), 0, 0, Packet(ParentPon(net.devices, net.root, Onu(net, u)), u, q.h)) ==
               if w.None? then [] else FromOlt(w.value, q)
  {
    var w := Lookup(Views(net, flows, via), 1, q);
    MixedOltLookup(net, flows, via, u, q);
    OneTable(MixedInstalled(net, flows, via, net.root), Packet(ParentPon(net.devices, net.root, Onu(net, u)), u, q.h));
    if w.Some? {
      OltSends(net, u, w.value, q);
    }
  }

  ghost function DevicesSend(net: Net, flows: seq<Flow>, via: seq<nat>, u: nat, h: Headers): seq<Sent>
    requires IsNet(net) && AreMixed(net, flows, via) && Reachable(net, u)
  {
    NetworkSends(net, MixedInstalled(net, flows, via, Onu(net, u)), MixedInstalled(net, flows, via, net.root), u, h)
  }

  /**
   What the devices send, for any mix of flows and any packet of any UNI: the ONU acts on the flow that the
   logical switch finds in table 0, and the OLT on the best of the table 1 flows and the OLT parts of all
   traps, for the packet that the ONU passes on.
   */
  lemma MixedSends(net: Net, flows: seq<Flow>, via: seq<nat>, u: nat, tunnel: nat, h: Headers)
    requires IsNet(net) && AreMixed(net, flows, via) && Reachable(net, u)
    ensures var p := Packet(u, tunnel, h);
            var first := Lookup(flows, 0, p);
            if first.None? then DevicesSend(net, flows, via, u, h) == []
            else
              var w := Lookup(Views(net, flows, via), 1, PassedOn(net, first.value, p));
              if w.None? then DevicesSend(net, flows, via, u, h) == []
              else IsSecond(net, w.value) && DevicesSend(net, flows, via, u, h) == FromOlt(w.value, PassedOn(net, first.value, p))
  {
    var p := Packet(u, tunnel, h);
    var first := Lookup(flows, 0, p);
    OnuPassesOn(net, flows, via, u, p);
    if first.Some? {
      var q := PassedOn(net, first.value, p);
      OneAcrossPon(net, u, MixedInstalled(net, flows, via, net.root), q.h);
      OltPassesOn(net, flows, via, u, q);
    }
  }

  // ---------------------------------------------------------------------------------------------
  // Who wins at the OLT

  /** Traps are for the four protocols, and the flows of table 1 are not. */
  ghost predicate TrapsAreProtocols(net: Net, flows: seq<Flow>) {
    forall i :: 0 <= i < |flows| ==>
      && (IsTrapFlow(net, flows[i]) ==> HasTrapField(flows[i].fields))
      && (IsSecond(net, flows[i]) ==> !HasTrapField(flows[i].fields))
  }

  /** Flow j is looked up before flow i. */
  predicate Outranks(flows: seq<Flow>, j: nat, i: nat)
    requires j < |flows| && i < |flows|
  {
    flows[j].priority > flows[i].priority || (flows[j].priority == flows[i].priority && j < i)
  }

  /** Flow j comes before every table 1 flow that matches q. */
  ghost predicate Before(flows: seq<Flow>, q: Packet, j: nat)
    requires j < |flows|
  {
    forall i: nat {:trigger flows[i]} :: i < |flows| && IsHit(flows[i], 1, q) ==> Outranks(flows, j, i)
  }

  /** Flow j is a trap whose OLT part matches q. */
  ghost predicate Traps(net: Net, flows: seq<Flow>, via: seq<nat>, q: Packet, j: nat)
    requires |via| == |flows|
  {
    j < |flows| && IsTrapFlow(net, flows[j]) && IsHit(TrapView(flows[j], via[j]), 1, q)
  }

  /** Some trap that sees the packet at the OLT comes before every table 1 flow that matches it. */
  ghost predicate TrapWins(net: Net, flows: seq<Flow>, via: seq<nat>, q: Packet)
    requires |via| == |flows|
  {
    exists j: nat :: Traps(net, flows, via, q, j) && Before(flows, q, j)
  }

  /** Two views of the same flows: what table 1 has, and what the OLT has because of the traps at `traps`. */
  ghost predicate AddsTraps(flows: seq<Flow>, views: seq<Flow>, traps: set<nat>, q: Packet) {
    |views| == |flows| && forall i {:trigger views[i]} :: 0 <= i < |flows| ==>
      && views[i].priority == flows[i].priority
      && (IsHit(views[i], 1, q) <==> IsHit(flows[i], 1, q) || (i in traps && IsHit(views[i], 1, q)))
      && (i in traps ==> !IsHit(flows[i], 1, q))
  }

  lemma BestOutranks(flows: seq<Flow>, views: seq<Flow>, traps: set<nat>, q: Packet, i: nat)
    requires AddsTraps(flows, views, traps, q) && i < |flows| && IsHit(views[i], 1, q)
    ensures var best := Best(views, 1, q); best.Some? && (i == best.value || Outranks(flows, best.value, i))
  {
    BestIsFirstOfHighestPriority(views, 1, q, i);
  }

  lemma PlainBestOutranks(flows: seq<Flow>, q: Packet, i: nat)
    requires i < |flows| && IsHit(flows[i], 1, q)
    ensures var best := Best(flows, 1, q); best.Some? && (i == best.value || Outranks(flows, best.value, i))
  {
    BestIsFirstOfHighestPriority(flows, 1, q, i);
  }

  lemma TrapIsBestIff(flows: seq<Flow>, views: seq<Flow>, traps: set<nat>, q: Packet)
    requires AddsTraps(flows, views, traps, q)
    ensures var best := Best(views, 1, q);
            && (best.Some? && best.value in traps ==> Before(flows, q, best.value))
            && (!(best.Some? && best.value in traps) ==>
                  forall j: nat :: j < |flows| && j in traps && IsHit(views[j], 1, q) ==> !Before(flows, q, j))
  {
    var best := Best(views, 1, q);
    if best.Some? && best.value in traps {
      forall i: nat | i < |flows| && IsHit(flows[i], 1, q)
        ensures Outranks(flows, best.value, i)
      {
        assert views[i].priority == flows[i].priority;
        BestOutranks(flows, views, traps, q, i);
      }
    } else {
      forall j: nat | j < |flows| && j in traps && IsHit(views[j], 1, q)
        ensures !Before(flows, q, j)
      {
        BestOutranks(flows, views, traps, q, j);
        assert IsHit(flows[best.value], 1, q) by {
          assert views[best.value].priority == flows[best.value].priority;
        }
      }
    }
  }

  lemma OtherwiseAsBefore(flows: seq<Flow>, views: seq<Flow>, traps: set<nat>, q: Packet)
    requires AddsTraps(flows, views, traps, q)
    ensures var best := Best(views, 1, q); (best.Some? && best.value in traps) || best == Best(flows, 1, q)
  {
    var best, plain := Best(views, 1, q), Best(flows, 1, q);
    if plain.Some? {
      assert views[plain.value].priority == flows[plain.value].priority;
      BestOutranks(flows, views, traps, q, plain.value);
    }
    if best.Some? && best.value !in traps {
      assert views[best.value].priority == flows[best.value].priority;
      PlainBestOutranks(flows, q, best.value);
    }
  }

  ghost function TrapsAt(net: Net, flows: seq<Flow>): set<nat> {
    set j | 0 <= j < |flows| && IsTrapFlow(net, flows[j])
  }

  lemma ViewsAddTraps(net: Net, flows: seq<Flow>, via: seq<nat>, q: Packet)
    requires AreMixed(net, flows, via)
    ensures AddsTraps(flows, Views(net, flows, via), TrapsAt(net, flows), q)
  {
  }

  /** The flow chosen at the OLT is a trap's exactly when a trap wins, and otherwise the one that table 1 would choose. */
  lemma WinnerIs(net: Net, flows: seq<Flow>, via: seq<nat>, q: Packet)
    requires AreMixed(net, flows, via)
    ensures var best := Best(Views(net, flows, via), 1, q);
            if TrapWins(net, flows, via, q) then best.Some? && IsTrapFlow(net, flows[best.value])
            else best == Best(flows, 1, q) && (best.Some? ==> IsSecond(net, flows[best.value]))
  {
    var views, traps := Views(net, flows, via), TrapsAt(net, flows);
    var best := Best(views, 1, q);
    ViewsAddTraps(net, flows, via, q);
    TrapIsBestIff(flows, views, traps, q);
    OtherwiseAsBefore(flows, views, traps, q);
    if best.Some? && best.value in traps {
      assert Traps(net, flows, via, q, best.value) && Before(flows, q, best.value);
    } else {
      forall j: nat | Traps(net, flows, via, q, j)
        ensures !Before(flows, q, j)
      {
        assert views[j] == TrapView(flows[j], via[j]);
      }
    }
  }

  lemma FromTrap(net: Net, flows: seq<Flow>, via: seq<nat>, k: nat, q: Packet)
    requires AreMixed(net, flows, via) && TrapsAreProtocols(net, flows) && k < |flows| && IsTrapFlow(net, flows[k])
    ensures FromOlt(TrapView(flows[k], via[k]), q) == [Sent(OFPP_CONTROLLER, q.h)]
  {
    TrapViewTrapField(flows[k], via[k]);
    assert Body(TrapView(flows[k], via[k]).actions) == [];
  }

  lemma FromSecond(net: Net, f: Flow, q: Packet)
    requires IsNet(net) && IsSecond(net, f) && !HasTrapField(f.fields)
    ensures FromOlt(f, q) == Emits(f.actions, q) && |FromOlt(f, q)| == 1 && FromOlt(f, q)[0].port != OFPP_CONTROLLER
  {
    var n := f.actions[|f.actions| - 1].port;
    assert f.actions == Body(f.actions) + [Output(n)];
    TrailingOutput(Body(f.actions), n, q);
    PortIsNotController(net, n);
  }

  /**
   A packet that the logical switch traps reaches the controller, tagged as the trap says, if and only if a
   trap comes before every table 1 flow that matches the packet the ONU passes on.
   */
  lemma TrappedIff(net: Net, flows: seq<Flow>, via: seq<nat>, u: nat, tunnel: nat, h: Headers)
    requires IsNet(net) && AreMixed(net, flows, via) && TrapsAreProtocols(net, flows) && Reachable(net, u)
    requires var f := Lookup(flows, 0, Packet(u, tunnel, h)); f.Some? && IsTrapFlow(net, f.value)
    ensures var f := Lookup(flows, 0, Packet(u, tunnel, h)).value;
            DevicesSend(net, flows, via, u, h) == [Sent(OFPP_CONTROLLER, Tagged(f, h))]
            <==> TrapWins(net, flows, via, Packet(u, tunnel, Tagged(f, h)))
  {
    var f := Lookup(flows, 0, Packet(u, tunnel, h)).value;
    var q := Packet(u, tunnel, Tagged(f, h));
    MixedSends(net, flows, via, u, tunnel, h);
    WinnerIs(net, flows, via, q);
    var best := Best(Views(net, flows, via), 1, q);
    if best.Some? {
      if IsTrapFlow(net, flows[best.value]) {
        FromTrap(net, flows, via, best.value, q);
      } else {
        FromSecond(net, flows[best.value], q);
      }
    }
  }

  /**
   For a packet that the logical switch sends on to table 1, the devices send exactly what the logical switch
   sends if and only if no trap comes before the table 1 flows that match it.
   */
  lemma ForwardedIff(net: Net, flows: seq<Flow>, via: seq<nat>, u: nat, tunnel: nat, h: Headers)
    requires IsNet(net) && AreMixed(net, flows, via) && TrapsAreProtocols(net, flows) && Reachable(net, u)
    requires var f := Lookup(flows, 0, Packet(u, tunnel, h)); f.Some? && IsFirst(net, f.value)
    ensures var p := Packet(u, tunnel, h);
            DevicesSend(net, flows, via, u, h) == Switch(flows, 0, 1, p)
            <==> !TrapWins(net, flows, via, After(Lookup(flows, 0, p).value.actions, p))
  {
    var p := Packet(u, tunnel, h);
    var f := Lookup(flows, 0, p).value;
    var q := After(f.actions, p);
    ActionsMove(f.actions, p, 0, 0);
    assert PassedOn(net, f, p) == q;
    MixedSends(net, flows, via, u, tunnel, h);
    WinnerIs(net, flows, via, q);
    SilentEmitsNothing(f.actions, p);
    assert Switch(flows, 0, 1, p) == [] + Switch(flows, 1, 1, q);
    TableOne(net, flows, via, q);
    var best := Best(Views(net, flows, via), 1, q);
    if TrapWins(net, flows, via, q) {
      FromTrap(net, flows, via, best.value, q);
      NotToController(Switch(flows, 1, 1, q), q.h);
    } else if best.Some? {
      FromSecond(net, flows[best.value], q);
    }
  }

  lemma NotToController(sent: seq<Sent>, h: Headers)
    requires forall x <- sent :: x.port != OFPP_CONTROLLER
    ensures sent != [Sent(OFPP_CONTROLLER, h)]
  {
    assert [Sent(OFPP_CONTROLLER, h)][0] in [Sent(OFPP_CONTROLLER, h)];
  }

  /** What table 1 of the logical switch sends: never to the controller. */
  lemma TableOne(net: Net, flows: seq<Flow>, via: seq<nat>, q: Packet)
    requires IsNet(net) && AreMixed(net, flows, via) && TrapsAreProtocols(net, flows)
    ensures var plain := Best(flows, 1, q);
            && Switch(flows, 1, 1, q) == (if plain.None? then [] else Emits(flows[plain.value].actions, q))
            && (plain.Some? ==> IsSecond(net, flows[plain.value]))
            && (forall x <- Switch(flows, 1, 1, q) :: x.port != OFPP_CONTROLLER)
  {
    var plain := Best(flows, 1, q);
    if plain.Some? {
      var f := flows[plain.value];
      assert IsMixed(net, f) && IsSecond(net, f);
      FromSecond(net, f, q);
      assert Switch(flows, 1, 1, q) == Emits(f.actions, q) + [];
    }
  }

  // ---------------------------------------------------------------------------------------------
  // The failing run

  /** A trap for EAPOL, and a table 1 flow of higher priority for VLAN 8. */
  function Eapol(u: nat): Flow {
    Flow(0, 1000, 0, [InPort(u), EthType(0x888e)], [Output(OFPP_CONTROLLER)], 0, 0, 0)
  }

  function Vlan8(u: nat, n: nat): Flow {
    Flow(1, 2000, 0, [InPort(u), VlanVid(8)], [Output(n)], 0, 0, 0)
  }

  lemma ConcreteFlows(net: Net, u: nat, n: nat)
    requires IsNet(net) && Reachable(net, u) && IsNni(net.ports, n) && u != 0
    ensures IsTrapFlow(net, Eapol(u)) && IsSecond(net, Vlan8(u, n)) && GetInPort(Eapol(u).fields) == u
    ensures SetVid(Eapol(u)).None? && HasTrapField(Eapol(u).fields) && !HasTrapField(Vlan8(u, n).fields)
  {
    var t, v := Eapol(u), Vlan8(u, n);
    assert IsController(OFPP_CONTROLLER);
    assert t.actions[1..] == [] && SetVid(t) == GetSetField([], VlanVidType);
    assert IsTrapField(t.fields[1]);
    assert Body(v.actions) == [];
  }

  /**
   An EAPOL packet in VLAN 8: the logical switch sends it to the controller, and the devices send it to the
   NNI, because in the OLT's one table the flow for VLAN 8 comes first.
   */
  lemma TrapIsOutranked(net: Net, u: nat, n: nat, tunnel: nat)
    requires IsNet(net) && Reachable(net, u) && IsNni(net.ports, n) && u != 0
    ensures var flows, via, h := [Eapol(u), Vlan8(u, n)], [n, n], Headers([Tag(0x8100, 8, 0)], 0x888e, 0, map[]);
            && AreMixed(net, flows, via)
            && Switch(flows, 0, 1, Packet(u, tunnel, h)) == [Sent(OFPP_CONTROLLER, h)]
            && DevicesSend(net, flows, via, u, h) == [Sent(n, h)]
  {
    var t, v := Eapol(u), Vlan8(u, n);
    var flows, via, h := [t, v], [n, n], Headers([Tag(0x8100, 8, 0)], 0x888e, 0, map[]);
    var p := Packet(u, tunnel, h);
    ConcreteFlows(net, u, n);
    assert IsHit(t, 0, p) && !IsHit(v, 0, p) && IsHit(v, 1, p) && !IsHit(t, 1, p);
    TwoFlows(t, v, 0, p);
    TwoFlows(t, v, 1, p);
    TrailingOutput([], OFPP_CONTROLLER, p);
    assert [] + [Output(OFPP_CONTROLLER)] == t.actions;
    OutrankedAtOlt(net, u, n, p, h);
  }

  lemma OutrankedAtOlt(net: Net, u: nat, n: nat, p: Packet, h: Headers)
    requires IsNet(net) && Reachable(net, u) && IsNni(net.ports, n) && u != 0
    requires AreMixed(net, [Eapol(u), Vlan8(u, n)], [n, n]) && p == Packet(u, p.tunnel, h)
    requires IsTrapFlow(net, Eapol(u)) && IsSecond(net, Vlan8(u, n)) && SetVid(Eapol(u)).None? && !HasTrapField(Vlan8(u, n).fields)
    requires Lookup([Eapol(u), Vlan8(u, n)], 0, p) == Some(Eapol(u)) && Best([Eapol(u), Vlan8(u, n)], 1, p) == Some(1)
    ensures DevicesSend(net, [Eapol(u), Vlan8(u, n)], [n, n], u, h) == [Sent(n, h)]
  {
    var t, v := Eapol(u), Vlan8(u, n);
    var flows, via := [t, v], [n, n];
    assert PassedOn(net, t, p) == p;
    MixedSends(net, flows, via, u, p.tunnel, h);
    WinnerIs(net, flows, via, p);
    HigherSecondWins(net, t, v, via, p);
    FromSecond(net, v, p);
    TrailingOutput([], n, p);
    assert [] + [Output(n)] == v.actions;
  }

  lemma HigherSecondWins(net: Net, t: Flow, v: Flow, via: seq<nat>, p: Packet)
    requires |via| == 2 && IsHit(v, 1, p) && v.priority > t.priority && !IsTrapFlow(net, v)
    ensures !TrapWins(net, [t, v], via, p)
  {
    var flows := [t, v];
    assert flows[1] == v && !Outranks(flows, 0, 1);
    assert !Before(flows, p, 0);
  }

  lemma TwoFlows(a: Flow, b: Flow, tableId: nat, p: Packet)
    requires IsHit(a, tableId, p) != IsHit(b, tableId, p)
    ensures Best([a, b], tableId, p) == Some(if IsHit(a, tableId, p) then 0 else 1)
  {
    BestOne([], a, tableId, p);
    BestOne([a], b, tableId, p);
    assert [] + [a] == [a] && [a] + [b] == [a, b];
  }
}
