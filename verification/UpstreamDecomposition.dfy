/**
 Compiling preserves meaning: what the ONU and the OLT do together, over the PON link between them, is
 what the logical switch does.
 */
module UpstreamDecomposition {
  import opened Prelude
  import opened PonTopology
  import opened RouteSpec
  import opened OpenFlowSemantics
  import opened FlowDecomposition
  import opened DecompositionLemmas
  import opened LogicalAgentRoutes

  /** The devices and the logical ports over them. */
  datatype Net = Net(devices: Devices, root: string, ports: LogicalPorts)

  ghost predicate IsNet(net: Net) {
    WellFormed(net.devices, net.root) && Registered(net.devices, net.root, net.ports) && AgentPorts(net.ports)
  }

  /** A UNI that routes lead to. */
  ghost predicate Reachable(net: Net, u: nat) {
    IsUni(net.ports, u) && Attached(net.devices, net.root, net.ports[u].deviceId)
  }

  ghost function Onu(net: Net, u: nat): string
    requires Reachable(net, u)
  {
    net.ports[u].deviceId
  }

  /** The first hop of every upstream route from u. */
  ghost function OnuHop(net: Net, u: nat): Hop
    requires Reachable(net, u)
  {
    Hop(Onu(net, u), net.ports[u].devicePortNo, ChildPon(net.devices, net.root, Onu(net, u)))
  }

  /** The last hop of the upstream route from u to NNI n. */
  ghost function OltHop(net: Net, u: nat, n: nat): Hop
    requires Reachable(net, u) && IsNni(net.ports, n)
  {
    Hop(net.ports[n].deviceId, ParentPon(net.devices, net.root, Onu(net, u)), net.ports[n].devicePortNo)
  }

  /** These are the hops of the routes in the table: the full route, and the half route of a flow without output. */
  lemma RoutesHaveTheseHops(net: Net, pairs: Pairs, routes: Table, u: nat, n: nat)
    requires IsTable(net.devices, net.root, net.ports, pairs, routes) && (n, u) in pairs
    ensures Reachable(net, u) && IsNni(net.ports, n)
    ensures routes[PathId(u, n)] == [OnuHop(net, u), OltHop(net, u, n)]
    ensures HalfOf(false, routes[PathId(u, n)]) == [OnuHop(net, u), EmptyHop]
  {
    var down := Downstream(net.devices, net.root, net.ports, n, u);
    assert routes[PathId(u, n)] == Reverse(down);
  }

  // ---------------------------------------------------------------------------------------------
  // The network of devices

  /** What the OLT sends for everything that the ONU sends on its PON port. */
  ghost function AcrossPon(net: Net, u: nat, olt: seq<Flow>, sent: seq<Sent>): seq<Sent>
    requires Reachable(net, u)
    decreases |sent|
  {
    if sent == [] then []
    else
      (if sent[0].port == OnuHop(net, u).egress
       then Switch(olt, 0, 0, Packet(ParentPon(net.devices, net.root, Onu(net, u)), u, sent[0].h))
       else [])
      + AcrossPon(net, u, olt, sent[1..])
  }

  /** What the network sends for a packet that enters at UNI u: through the ONU, over the PON link, through the OLT. */
  ghost function NetworkSends(net: Net, onu: seq<Flow>, olt: seq<Flow>, u: nat, h: Headers): seq<Sent>
    requires Reachable(net, u)
  {
    AcrossPon(net, u, olt, Switch(onu, 0, 0, Packet(OnuHop(net, u).ingress, u, h)))
  }

  // ---------------------------------------------------------------------------------------------
  // The flows

  /** A table 0 flow of a UNI that goes on to table 1. */
  ghost predicate IsFirst(net: Net, f: Flow) {
    f.tableId == 0 && f.gotoTable == 1 && NoOutput(f.actions) && IsLogical(f) && Reachable(net, GetInPort(f.fields))
  }

  /** A table 1 flow of a UNI that ends with its one output, to an NNI. */
  ghost predicate IsSecond(net: Net, f: Flow) {
    && f.tableId == 1 && f.gotoTable == 0 && IsLogical(f) && Reachable(net, GetInPort(f.fields))
    && EndsInNni(net, f.actions)
  }

  ghost predicate EndsInNni(net: Net, actions: seq<Action>) {
    && |actions| > 0 && actions[|actions| - 1].Output? && NoOutput(Body(actions))
    && IsNni(net.ports, actions[|actions| - 1].port)
  }

  function Body(actions: seq<Action>): seq<Action>
    requires |actions| > 0
  {
    actions[..|actions| - 1]
  }

  ghost predicate AreUpstream(net: Net, flows: seq<Flow>) {
    forall i :: 0 <= i < |flows| ==> IsFirst(net, flows[i]) || IsSecond(net, flows[i])
  }

  /** The path that the agent's routes give for a flow. */
  ghost function PathOf(net: Net, f: Flow): Route
    requires IsFirst(net, f) || IsSecond(net, f)
  {
    var u := GetInPort(f.fields);
    if IsFirst(net, f) then [OnuHop(net, u), EmptyHop]
    else [OnuHop(net, u), OltHop(net, u, f.actions[|f.actions| - 1].port)]
  }

  /** What one flow contributes to device d. */
  ghost function Contribution(net: Net, f: Flow, d: string): seq<Flow>
    requires IsNet(net) && (IsFirst(net, f) || IsSecond(net, f))
  {
    assert GetInPort(f.fields) in net.ports;
    RulesFor(PathOf(net, f), RootsOf(net.ports), net.root, f, d)
  }

  ghost function Contributions(net: Net, flows: seq<Flow>, d: string): seq<seq<Flow>>
    requires IsNet(net) && AreUpstream(net, flows)
  {
    seq(|flows|, i requires 0 <= i < |flows| => Contribution(net, flows[i], d))
  }

  /** The flows of device d once all flows are decomposed. */
  ghost function Installed(net: Net, flows: seq<Flow>, d: string): seq<Flow>
    requires IsNet(net) && AreUpstream(net, flows)
  {
    Concat(Contributions(net, flows, d))
  }

  // ---------------------------------------------------------------------------------------------
  // One flow

  lemma FirstRules(net: Net, f: Flow, d: string)
    requires IsNet(net) && IsFirst(net, f)
    ensures Contribution(net, f, d) ==
            if d == Onu(net, GetInPort(f.fields)) then [OnuFlow(f, OnuHop(net, GetInPort(f.fields)), GetInPort(f.fields))] else []
  {
    NoOutputNoPort(f.actions);
    assert Onu(net, GetInPort(f.fields)) != net.root;
  }

  lemma SecondRules(net: Net, f: Flow, d: string)
    requires IsNet(net) && IsSecond(net, f)
    ensures var u, n := GetInPort(f.fields), f.actions[|f.actions| - 1].port;
            Contribution(net, f, d) ==
            if d == net.root then [Redirected(OltFlow(f, OltHop(net, u, n), u))] else []
  {
    var n := f.actions[|f.actions| - 1].port;
    assert f.actions == Body(f.actions) + [Output(n)];
    OneTrailingOutput(Body(f.actions), n);
    assert net.ports[n].deviceId == net.root && n != 0 && !IsController(n);
  }

  // ---------------------------------------------------------------------------------------------
  // Whole tables

  /** The flow that the ONU of u has for a first flow of u. */
  ghost function OnOnu(net: Net, u: nat, f: Flow): Flow
    requires Reachable(net, u)
  {
    OnuFlow(f, OnuHop(net, u), u)
  }

  /** The flow that the OLT has for a second flow of u. */
  ghost function OnOlt(net: Net, u: nat, f: Flow): Flow
    requires Reachable(net, u) && EndsInNni(net, f.actions)
  {
    Redirected(OltFlow(f, OltHop(net, u, f.actions[|f.actions| - 1].port), u))
  }

  /** To packets of UNI u, what a flow contributes to the ONU of u is its image in table 0. */
  lemma OnuImage(net: Net, f: Flow, u: nat, p: Packet)
    requires IsNet(net) && (IsFirst(net, f) || IsSecond(net, f)) && Reachable(net, u) && p.inPort == u
    ensures IsImage(f, 0, p, Contribution(net, f, Onu(net, u)), Moved(p, OnuHop(net, u).ingress, u))
    ensures IsHit(f, 0, p) ==> Contribution(net, f, Onu(net, u)) == [OnOnu(net, u, f)]
  {
    var v := GetInPort(f.fields);
    assert v in net.ports && v != 0;
    if IsFirst(net, f) {
      FirstRules(net, f, Onu(net, u));
      CompiledMatch(f, OnuHop(net, v).ingress, p, OnuHop(net, u).ingress);
      SplitInPort(f, p);
    } else {
      SecondRules(net, f, Onu(net, u));
      assert Onu(net, u) != net.root;
    }
  }

  /** To packets of UNI u, what a flow contributes to the OLT is its image in table 1. */
  lemma OltImage(net: Net, f: Flow, u: nat, p: Packet)
    requires IsNet(net) && (IsFirst(net, f) || IsSecond(net, f)) && Reachable(net, u) && p.inPort == u
    ensures IsImage(f, 1, p, Contribution(net, f, net.root), Moved(p, ParentPon(net.devices, net.root, Onu(net, u)), u))
    ensures IsHit(f, 1, p) ==> IsSecond(net, f) && Contribution(net, f, net.root) == [OnOlt(net, u, f)]
  {
    var v, pon := GetInPort(f.fields), ParentPon(net.devices, net.root, Onu(net, u));
    assert v in net.ports && v != 0;
    if IsFirst(net, f) {
      FirstRules(net, f, net.root);
      assert Onu(net, v) != net.root;
    } else {
      SecondRules(net, f, net.root);
      CompiledMatch(f, OltHop(net, v, f.actions[|f.actions| - 1].port).ingress, p, pon);
      SplitInPort(f, p);
    }
  }

  /** Looking a packet of UNI u up in table 0 is looking it up at its ONU. */
  lemma OnuLookup(net: Net, flows: seq<Flow>, u: nat, p: Packet)
    requires IsNet(net) && AreUpstream(net, flows) && Reachable(net, u) && p.inPort == u
    ensures var found := Lookup(flows, 0, p);
            && Lookup(Installed(net, flows, Onu(net, u)), 0, Moved(p, OnuHop(net, u).ingress, u)) ==
               (if found.None? then None else Some(OnOnu(net, u, found.value)))
            && (found.Some? ==> IsFirst(net, found.value))
  {
    var images := Contributions(net, flows, Onu(net, u));
    forall i | 0 <= i < |flows|
      ensures IsImage(flows[i], 0, p, images[i], Moved(p, OnuHop(net, u).ingress, u))
    {
      OnuImage(net, flows[i], u, p);
    }
    LookupSimulation(flows, images, 0, p, Moved(p, OnuHop(net, u).ingress, u));
    var best := Best(flows, 0, p);
    if best.Some? {
      OnuImage(net, flows[best.value], u, p);
    }
  }

  /** Looking a packet of UNI u up in table 1 is looking it up at the OLT, where it enters at the ONU's PON port. */
  lemma OltLookup(net: Net, flows: seq<Flow>, u: nat, p: Packet)
    requires IsNet(net) && AreUpstream(net, flows) && Reachable(net, u) && p.inPort == u
    ensures var found := Lookup(flows, 1, p);
            && (found.Some? ==> IsSecond(net, found.value) && Matches(found.value.fields, p))
            && Lookup(Installed(net, flows, net.root), 0, Moved(p, ParentPon(net.devices, net.root, Onu(net, u)), u)) ==
               (if found.None? then None else Some(OnOlt(net, u, found.value)))
  {
    var images, dp := Contributions(net, flows, net.root), Moved(p, ParentPon(net.devices, net.root, Onu(net, u)), u);
    forall i | 0 <= i < |flows|
      ensures IsImage(flows[i], 1, p, images[i], dp)
    {
      OltImage(net, flows[i], u, p);
    }
    LookupSimulation(flows, images, 1, p, dp);
    var best := Best(flows, 1, p);
    if best.Some? {
      OltImage(net, flows[best.value], u, p);
    }
  }

  // ---------------------------------------------------------------------------------------------
  // The pipeline

  lemma OneTable(flows: seq<Flow>, p: Packet)
    ensures var f := Lookup(flows, 0, p);
            f.None? || f.value.gotoTable == 0 ==> Switch(flows, 0, 0, p) == if f.None? then [] else Emits(f.value.actions, p)
  {
  }

  /** What the OLT sends for a second flow: once, with the final headers, to the NNI or to the controller. */
  lemma OltSends(net: Net, u: nat, f: Flow, p: Packet)
    requires IsNet(net) && Reachable(net, u) && IsSecond(net, f) && GetInPort(f.fields) == u
    ensures var n := f.actions[|f.actions| - 1].port;
            var sent := if HasTrapField(f.fields) then OFPP_CONTROLLER else n;
            && Emits(f.actions, p) == [Sent(n, After(Body(f.actions), p).h)]
            && Emits(OnOlt(net, u, f).actions, Moved(p, OltHop(net, u, n).ingress, u)) == [Sent(sent, After(Body(f.actions), p).h)]
  {
    var n, body := f.actions[|f.actions| - 1].port, Body(f.actions);
    var hop := OltHop(net, u, n);
    assert f.actions == body + [Output(n)];
    TrailingOutput(body, n, p);
    OneTrailingOutput(body, n);
    RedirectedTrailingOutput(body, hop.egress);
    OltTrapField(f, hop, u);
    assert net.ports[n].devicePortNo == n;
    ActionsMove(body, p, hop.ingress, u);
    TrailingOutput(body, hop.egress, Moved(p, hop.ingress, u));
    TrailingOutput(body, OFPP_CONTROLLER, Moved(p, hop.ingress, u));
  }

  lemma OltTrapField(f: Flow, hop: Hop, u: nat)
    ensures HasTrapField(OltFlow(f, hop, u).fields) <==> HasTrapField(f.fields)
  {
    var front := [InPort(hop.ingress), TunnelId(u)];
    HasTrapConcat(front, GetOfbFields(f.fields, {InPortType}));
    TrapFieldsStay(f.fields, {InPortType});
    assert !HasTrapField(front);
  }

  /** What the ONU sends for a first flow: once, on its PON port, with the headers after the flow's actions. */
  lemma OnuSends(net: Net, u: nat, f: Flow, p: Packet)
    requires Reachable(net, u) && IsFirst(net, f)
    ensures Emits(f.actions, p) == []
    ensures Emits(OnOnu(net, u, f).actions, Moved(p, OnuHop(net, u).ingress, u)) == [Sent(OnuHop(net, u).egress, After(f.actions, p).h)]
  {
    var hop := OnuHop(net, u);
    SilentEmitsNothing(f.actions, p);
    ActionsMove(f.actions, p, hop.ingress, u);
    TrailingOutput(f.actions, hop.egress, Moved(p, hop.ingress, u));
  }

  lemma OneAcrossPon(net: Net, u: nat, olt: seq<Flow>, h: Headers)
    requires Reachable(net, u)
    ensures AcrossPon(net, u, olt, [Sent(OnuHop(net, u).egress, h)]) ==
            Switch(olt, 0, 0, Packet(ParentPon(net.devices, net.root, Onu(net, u)), u, h))
  {
    var sent := [Sent(OnuHop(net, u).egress, h)];
    assert sent[1..] == [];
  }

  /** The flow of table 1 that a packet from UNI u meets in the logical switch, if it gets that far. */
  ghost function Second(flows: seq<Flow>, p: Packet): Option<Flow> {
    var first := Lookup(flows, 0, p);
    if first.None? then None else Lookup(flows, 1, After(first.value.actions, p))
  }

  /**
   Upstream compilation preserves meaning.  For any flows of the two kinds, of any UNIs and in any order, and
   any packet that enters at any UNI: the logical switch sends nothing and neither do the devices, or it
   sends one packet to an NNI and the devices send one packet with the same headers, to the same NNI unless
   every packet that the flow of table 1 matches is EAPOL, PPPoE discovery, IGMP or UDP, and then to the controller.
   */
  lemma UpstreamPreservesMeaning(net: Net, flows: seq<Flow>, u: nat, tunnel: nat, h: Headers)
    requires IsNet(net) && AreUpstream(net, flows) && Reachable(net, u)
    ensures var p := Packet(u, tunnel, h);
            var logical := Switch(flows, 0, 1, p);
            var devices := NetworkSends(net, Installed(net, flows, Onu(net, u)), Installed(net, flows, net.root), u, h);
            var second := Second(flows, p);
            if second.None? then logical == [] && devices == []
            else
              && |logical| == 1 && IsNni(net.ports, logical[0].port)
              && devices == [Sent(if ForTrapPackets(second.value.fields) then OFPP_CONTROLLER else logical[0].port, logical[0].h)]
  {
    var p := Packet(u, tunnel, h);
    var onu, olt := Installed(net, flows, Onu(net, u)), Installed(net, flows, net.root);
    var first := Lookup(flows, 0, p);
    var dp := Moved(p, OnuHop(net, u).ingress, u);
    OnuLookup(net, flows, u, p);
    OneTable(onu, dp);
    if first.Some? {
      OnuSends(net, u, first.value, p);
      ActionsMove(first.value.actions, p, 0, 0);
      var q := After(first.value.actions, p);
      OneAcrossPon(net, u, olt, q.h);
      AtOlt(net, flows, u, q);
      OltLookup(net, flows, u, q);
      if Second(flows, p).Some? {
        TrapFieldMeansTrapPackets(Second(flows, p).value.fields, q);
      }
      assert Switch(flows, 0, 1, p) == [] + Switch(flows, 1, 1, q);
    }
  }

  lemma AtOlt(net: Net, flows: seq<Flow>, u: nat, q: Packet)
    requires IsNet(net) && AreUpstream(net, flows) && Reachable(net, u) && q.inPort == u
    ensures var logical := Switch(flows, 1, 1, q);
            var devices := Switch(Installed(net, flows, net.root), 0, 0, Packet(ParentPon(net.devices, net.root, Onu(net, u)), u, q.h));
            var second := Lookup(flows, 1, q);
            if second.None? then logical == [] && devices == []
            else
              && |logical| == 1 && IsNni(net.ports, logical[0].port)
              && devices == [Sent(if HasTrapField(second.value.fields) then OFPP_CONTROLLER else logical[0].port, logical[0].h)]
  {
    var second := Lookup(flows, 1, q);
    OltLookup(net, flows, u, q);
    OneTable(Installed(net, flows, net.root), Packet(ParentPon(net.devices, net.root, Onu(net, u)), u, q.h));
    if second.Some? {
      SplitInPort(second.value, q);
      OltSends(net, u, second.value, q);
    }
  }

  /** So the devices send exactly what the logical switch sends, if and only if no such flow is met. */
  lemma UpstreamIsExactIff(net: Net, flows: seq<Flow>, u: nat, tunnel: nat, h: Headers)
    requires IsNet(net) && AreUpstream(net, flows) && Reachable(net, u)
    ensures var second := Second(flows, Packet(u, tunnel, h));
            NetworkSends(net, Installed(net, flows, Onu(net, u)), Installed(net, flows, net.root), u, h) == Switch(flows, 0, 1, Packet(u, tunnel, h))
            <==> second.None? || !ForTrapPackets(second.value.fields)
  {
    UpstreamPreservesMeaning(net, flows, u, tunnel, h);
    var logical := Switch(flows, 0, 1, Packet(u, tunnel, h));
    if |logical| == 1 {
      PortIsNotController(net, logical[0].port);
    }
    SameSentIff(logical, NetworkSends(net, Installed(net, flows, Onu(net, u)), Installed(net, flows, net.root), u, h),
                Second(flows, Packet(u, tunnel, h)));
  }

  lemma SameSentIff(logical: seq<Sent>, devices: seq<Sent>, second: Option<Flow>)
    requires second.None? ==> logical == [] && devices == []
    requires second.Some? ==>
      && |logical| == 1 && logical[0].port != OFPP_CONTROLLER
      && devices == [Sent(if ForTrapPackets(second.value.fields) then OFPP_CONTROLLER else logical[0].port, logical[0].h)]
    ensures devices == logical <==> second.None? || !ForTrapPackets(second.value.fields)
  {
    if second.Some? {
      assert logical == [Sent(logical[0].port, logical[0].h)];
      assert devices[0].port == if ForTrapPackets(second.value.fields) then OFPP_CONTROLLER else logical[0].port;
    }
  }

  lemma PortIsNotController(net: Net, n: nat)
    requires IsNet(net)
    ensures n in net.ports ==> n != OFPP_CONTROLLER
  {
    assert IsController(OFPP_CONTROLLER);
    if n in net.ports {
      assert net.ports[n].portNo == n;
    }
  }
}
