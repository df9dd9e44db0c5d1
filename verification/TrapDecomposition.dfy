/** Trapping packets of a UNI: what the ONU hands to the OLT, and what the OLT hands to the controller. */
module TrapDecomposition {
  import opened Prelude
  import opened PonTopology
  import opened RouteSpec
  import opened OpenFlowSemantics
  import opened FlowDecomposition
  import opened DecompositionLemmas
  import opened LogicalAgentRoutes
  import opened UpstreamDecomposition

  /** A flow of a UNI to the controller. */
  ghost predicate IsTrap(net: Net, f: Flow) {
    IsLogical(f) && Reachable(net, GetInPort(f.fields)) && IsController(GetOutPort(f.actions))
  }

  function SetVid(f: Flow): Option<nat> {
    GetSetField(f.actions, VlanVidType)
  }

  function SetPcp(f: Flow): Option<nat> {
    GetSetField(f.actions, VlanPcpType)
  }

  /** The priority that a tag pushed now would have. */
  function OuterPcp(h: Headers): nat {
    if h.vlans == [] then 0 else h.vlans[0].pcp
  }

  /** The headers with which the ONU passes the packet on. */
  function Tagged(f: Flow, h: Headers): Headers {
    if SetVid(f).None? then h else h.(vlans := [Tag(0x8100, SetVid(f).value, OuterPcp(h))] + h.vlans)
  }

  /** The priority the OLT expects is the one that the packet has when the ONU sends it. */
  predicate PcpAgrees(f: Flow, h: Headers) {
    SetVid(f).None? || SetPcp(f).None? || OuterPcp(h) == SetPcp(f).value
  }

  lemma TrapRules(net: Net, f: Flow, n: nat)
    requires IsNet(net) && IsTrap(net, f) && IsNni(net.ports, n) && GetInPort(f.fields) != 0
    ensures var u := GetInPort(f.fields);
            var path := [OnuHop(net, u), OltHop(net, u, n)];
            && RulesFor(path, RootsOf(net.ports), net.root, f, Onu(net, u)) == [TrapOnuFlow(f, OnuHop(net, u), u)]
            && RulesFor(path, RootsOf(net.ports), net.root, f, net.root) == [Redirected(TrapOltFlow(f, OltHop(net, u, n), u))]
  {
    var u := GetInPort(f.fields);
    assert Onu(net, u) != net.root && net.ports[n].deviceId == net.root;
    assert u !in RootsOf(net.ports);
  }

  lemma TwoThenOutput(a0: Action, a1: Action, port: nat, tail: seq<Action>, p: Packet)
    requires !a0.Output? && !a1.Output? && NoOutput(tail)
    ensures Emits([a0, a1, Output(port)] + tail, p) == [Sent(port, Step(a1, Step(a0, p)).h)]
  {
    var q := Step(a1, Step(a0, p));
    OneStep(a0, [a1, Output(port)] + tail, p);
    OneStep(a1, [Output(port)] + tail, Step(a0, p));
    OneStep(Output(port), tail, q);
    SilentEmitsNothing(tail, q);
    assert [a0, a1, Output(port)] + tail == [a0] + ([a1, Output(port)] + tail);
    assert [a1, Output(port)] + tail == [a1] + ([Output(port)] + tail);
  }

  lemma OneStep(a: Action, rest: seq<Action>, p: Packet)
    ensures Emits([a] + rest, p) == (if a.Output? then [Sent(a.port, p.h)] else []) + Emits(rest, Step(a, p))
  {
    assert ([a] + rest)[1..] == rest;
  }

  /** The ONU sends the packet once, on its PON port, with the tag of the flow. */
  lemma OnuTags(f: Flow, hop: Hop, u: nat, p: Packet)
    ensures Emits(TrapOnuFlow(f, hop, u).actions, p) == [Sent(hop.egress, Tagged(f, p.h))]
  {
    if SetVid(f).None? {
      OneStep(Output(hop.egress), [], p);
      assert [Output(hop.egress)] + [] == [Output(hop.egress)];
    } else {
      var push, set1 := PushVlan(0x8100), SetField(VlanVid(SetVid(f).value));
      var tail := if SetPcp(f).Some? then [SetField(VlanPcp(SetPcp(f).value))] else [];
      TwoThenOutput(push, set1, hop.egress, tail, p);
      assert Step(set1, Step(push, p)).h == Tagged(f, p.h);
    }
  }

  lemma RestIgnoresVlans(fields: seq<Field>, p: Packet, vlans: seq<Tag>)
    ensures var exclude := {InPortType, VlanVidType, VlanPcpType};
            Matches(GetOfbFields(fields, exclude), p) <==> Matches(GetOfbFields(fields, exclude), p.(h := p.h.(vlans := vlans)))
  {
    var exclude := {InPortType, VlanVidType, VlanPcpType};
    var q := p.(h := p.h.(vlans := vlans));
    RestMatches(fields, exclude, p);
    RestMatches(fields, exclude, q);
    forall g | g in fields && TypeOf(g) !in exclude
      ensures FieldMatches(g, p) <==> FieldMatches(g, q)
    {
    }
  }

  /** The OLT's flow matches what the ONU passed on, exactly when the priorities agree. */
  lemma OltMatches(f: Flow, hop: Hop, p: Packet)
    requires IsLogical(f) && GetInPort(f.fields) != 0 && Matches(f.fields, p)
    ensures Matches(TrapOltFlow(f, hop, p.inPort).fields, Packet(hop.ingress, p.inPort, Tagged(f, p.h))) <==> PcpAgrees(f, p.h)
  {
    var q := Packet(hop.ingress, p.inPort, Tagged(f, p.h));
    var exclude := {InPortType, VlanVidType, VlanPcpType};
    var front, rest := [InPort(hop.ingress), TunnelId(p.inPort)], GetOfbFields(f.fields, exclude);
    var vid := if SetVid(f).Some? then [VlanVid(SetVid(f).value)] else [];
    var pcp := if SetVid(f).Some? && SetPcp(f).Some? then [VlanPcp(SetPcp(f).value)] else [];
    MatchesConcat(front, rest, q);
    MatchesConcat(front + rest, vid, q);
    MatchesConcat(front + rest + vid, pcp, q);
    assert Matches(front, q);
    MatchesAll(f.fields, p);
    RestMatches(f.fields, exclude, p);
    RestMoves(f, exclude, p, hop.ingress, p.inPort);
    RestIgnoresVlans(f.fields, Moved(p, hop.ingress, p.inPort), Tagged(f, p.h).vlans);
    assert q == Moved(p, hop.ingress, p.inPort).(h := p.h.(vlans := Tagged(f, p.h).vlans));
    assert Matches(vid, q);
    assert pcp != [] ==> (Matches(pcp, q) <==> FieldMatches(pcp[0], q));
  }

  lemma TrapOltField(f: Flow, hop: Hop, u: nat)
    ensures HasTrapField(TrapOltFlow(f, hop, u).fields) <==> HasTrapField(f.fields)
  {
    var exclude := {InPortType, VlanVidType, VlanPcpType};
    var front, rest := [InPort(hop.ingress), TunnelId(u)], GetOfbFields(f.fields, exclude);
    var vid := if SetVid(f).Some? then [VlanVid(SetVid(f).value)] else [];
    var pcp := if SetVid(f).Some? && SetPcp(f).Some? then [VlanPcp(SetPcp(f).value)] else [];
    HasTrapConcat(front, rest);
    HasTrapConcat(front + rest, vid);
    HasTrapConcat(front + rest + vid, pcp);
    TrapFieldsStay(f.fields, exclude);
    assert !HasTrapField(front) && !HasTrapField(vid) && !HasTrapField(pcp);
  }

  lemma SingleFlow(f: Flow, p: Packet)
    requires f.tableId == 0 && f.gotoTable == 0
    ensures Switch([f], 0, 0, p) == if Matches(f.fields, p) then Emits(f.actions, p) else []
  {
    assert [f][..0] == [];
    assert Lookup([f], 0, p) == if Matches(f.fields, p) then Some(f) else None;
  }

  /** What the OLT sends for a packet that matches its flow. */
  lemma OltTraps(net: Net, f: Flow, u: nat, n: nat, p: Packet)
    requires IsNet(net) && Reachable(net, u) && IsNni(net.ports, n)
    ensures var flow := Redirected(TrapOltFlow(f, OltHop(net, u, n), u));
            Emits(flow.actions, p) == [Sent(if HasTrapField(f.fields) then OFPP_CONTROLLER else n, p.h)]
  {
    var hop := OltHop(net, u, n);
    TrapOltField(f, hop, u);
    RedirectedTrailingOutput([], hop.egress);
    assert [] + [Output(hop.egress)] == [Output(hop.egress)] && [] + [Output(OFPP_CONTROLLER)] == [Output(OFPP_CONTROLLER)];
    TrailingOutput([], hop.egress, p);
    TrailingOutput([], OFPP_CONTROLLER, p);
    assert net.ports[n].devicePortNo == n;
  }

  /**
   Trap hand-off, for any trap flow of any UNI and any packet that enters there.  A packet that the logical
   flow does not match goes nowhere.  One that it matches goes through the ONU and matches the OLT's flow if
   and only if the flow does not set both VLAN id and priority or the packet already has that priority; it
   then leaves with the flow's tag, to the controller if and only if every packet that the flow matches is
   EAPOL, PPPoE discovery, IGMP or UDP, and to the NNI otherwise.
   */
  lemma TrapHandOff(net: Net, f: Flow, n: nat, tunnel: nat, h: Headers)
    requires IsNet(net) && IsTrap(net, f) && IsNni(net.ports, n) && GetInPort(f.fields) != 0
    ensures var u := GetInPort(f.fields);
            var path := [OnuHop(net, u), OltHop(net, u, n)];
            var onu := RulesFor(path, RootsOf(net.ports), net.root, f, Onu(net, u));
            var olt := RulesFor(path, RootsOf(net.ports), net.root, f, net.root);
            NetworkSends(net, onu, olt, u, h) ==
            if Matches(f.fields, Packet(u, tunnel, h)) && PcpAgrees(f, h)
            then [Sent(if ForTrapPackets(f.fields) then OFPP_CONTROLLER else n, Tagged(f, h))]
            else []
  {
    var u := GetInPort(f.fields);
    var hop, oltHop := OnuHop(net, u), OltHop(net, u, n);
    var p := Packet(u, tunnel, h);
    var dp, q := Packet(hop.ingress, u, h), Packet(oltHop.ingress, u, Tagged(f, h));
    var onuFlow, oltFlow := TrapOnuFlow(f, hop, u), Redirected(TrapOltFlow(f, oltHop, u));
    TrapRules(net, f, n);
    SingleFlow(onuFlow, dp);
    CompiledMatch(f, hop.ingress, p, hop.ingress);
    assert dp == Moved(p, hop.ingress, p.inPort);
    if Matches(f.fields, p) {
      TrapFieldMeansTrapPackets(f.fields, p);
      OnuTags(f, hop, u, dp);
      OneAcrossPon(net, u, [oltFlow], Tagged(f, h));
      SingleFlow(oltFlow, q);
      OltMatches(f, oltHop, p);
      OltTraps(net, f, u, n, q);
    }
  }

  /** The same packets, all to the controller. */
  function ToControllerSent(sent: seq<Sent>): (r: seq<Sent>)
    ensures |r| == |sent| && forall i :: 0 <= i < |r| ==> r[i] == Sent(OFPP_CONTROLLER, sent[i].h)
  {
    seq(|sent|, i requires 0 <= i < |sent| => Sent(OFPP_CONTROLLER, sent[i].h))
  }

  lemma {:induction false} RedirectedEmits(actions: seq<Action>, p: Packet)
    ensures Emits(ToController(actions), p) == ToControllerSent(Emits(actions, p))
    decreases |actions|
  {
    var r := ToController(actions);
    if actions != [] {
      assert r[1..] == ToController(actions[1..]);
      assert Step(r[0], p) == Step(actions[0], p);
      RedirectedEmits(actions[1..], Step(actions[0], p));
    }
  }

  /**
   A trap on an NNI stays on the OLT, whatever its actions: for a packet that came in there it sends what the
   logical flow's actions send, all of it to the controller if the flow is for the four protocols only.
   */
  lemma NniTrapSends(net: Net, f: Flow, path: Route, tunnel: nat, h: Headers)
    requires IsNet(net) && IsLogical(f) && IsNni(net.ports, GetInPort(f.fields)) && GetInPort(f.fields) != 0
    requires IsController(GetOutPort(f.actions))
    requires |path| == 2 && path[0].deviceId == net.root && path[0].ingress == GetInPort(f.fields)
    ensures var p := Packet(GetInPort(f.fields), tunnel, h);
            Switch(RulesFor(path, RootsOf(net.ports), net.root, f, net.root), 0, 0, p) ==
            if !Matches(f.fields, p) then []
            else if ForTrapPackets(f.fields) then ToControllerSent(Emits(f.actions, p)) else Emits(f.actions, p)
  {
    var n := GetInPort(f.fields);
    var p, rest := Packet(n, tunnel, h), GetOfbFields(f.fields, {InPortType});
    var g := Flow(0, f.priority, f.cookie, [InPort(n)] + rest, f.actions, 0, 0, 0);
    assert n in RootsOf(net.ports);
    assert RulesFor(path, RootsOf(net.ports), net.root, f, net.root) == [Redirected(g)];
    SingleFlow(Redirected(g), p);
    MatchesConcat([InPort(n)], rest, p);
    assert Matches([InPort(n)], p);
    SplitInPort(f, p);
    HasTrapConcat([InPort(n)], rest);
    TrapFieldsStay(f.fields, {InPortType});
    assert !HasTrapField([InPort(n)]);
    RedirectedEmits(f.actions, p);
    if Matches(f.fields, p) {
      TrapFieldMeansTrapPackets(f.fields, p);
    }
  }

  /** A trap flow that sets VLAN id and priority. */
  function EapolTrap(u: nat): Flow {
    Flow(0, 1000, 0, [InPort(u), EthType(0x888e)],
         [PushVlan(0x8100), SetField(VlanVid(4101)), SetField(VlanPcp(3)), Output(OFPP_CONTROLLER)], 0, 0, 0)
  }

  lemma EapolTrapReads(u: nat)
    ensures GetInPort(EapolTrap(u).fields) == u && IsLogical(EapolTrap(u)) && GetOutPort(EapolTrap(u).actions) == OFPP_CONTROLLER
    ensures SetVid(EapolTrap(u)) == Some(4101) && SetPcp(EapolTrap(u)) == Some(3)
  {
    var f := EapolTrap(u);
    var a1, a2, a3 := f.actions[1..], f.actions[2..], f.actions[3..];
    assert a1[1..] == a2 && a2[1..] == a3;
    assert GetOutPort(a3) == OFPP_CONTROLLER && GetOutPort(a2) == GetOutPort(a3) && GetOutPort(a1) == GetOutPort(a2);
    assert SetVid(f) == GetSetField(a1, VlanVidType) == Some(4101);
    assert SetPcp(f) == GetSetField(a1, VlanPcpType) == GetSetField(a2, VlanPcpType) == Some(3);
  }

  /** That flow loses every packet of another priority: here, an untagged one. */
  lemma PcpLosesPackets(net: Net, u: nat, n: nat)
    requires IsNet(net) && Reachable(net, u) && IsNni(net.ports, n) && u != 0
    ensures var f, h := EapolTrap(u), Headers([], 0x888e, 0, map[]);
            var path := [OnuHop(net, u), OltHop(net, u, n)];
            && GetInPort(f.fields) == u
            && Matches(f.fields, Packet(u, 0, h))
            && NetworkSends(net, RulesFor(path, RootsOf(net.ports), net.root, f, Onu(net, u)),
                            RulesFor(path, RootsOf(net.ports), net.root, f, net.root), u, h) == []
  {
    EapolTrapReads(u);
    assert IsController(OFPP_CONTROLLER);
    TrapHandOff(net, EapolTrap(u), n, 0, Headers([], 0x888e, 0, map[]));
  }
}
