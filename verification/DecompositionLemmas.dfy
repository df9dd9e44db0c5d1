/** How the match fields and actions of a compiled flow relate to those of the logical flow. */
module DecompositionLemmas {
  import opened Prelude
  import opened OpenFlowSemantics
  import opened RouteSpec
  import opened FlowDecomposition
  import opened LogicalAgentRoutes

  /** EAPOL, PPPoE discovery, IGMP or UDP, told from the packet. */
  predicate IsTrapPacket(h: Headers) {
    h.ethType == 0x888e || h.ethType == 0x8863 || h.ipProto == 2 || h.ipProto == 17
  }

  /** The match is for packets of those protocols only. */
  ghost predicate ForTrapPackets(fields: seq<Field>) {
    forall q: Packet :: Matches(fields, q) ==> IsTrapPacket(q.h)
  }

  predicate NamesEthType(fields: seq<Field>) {
    exists i :: 0 <= i < |fields| && fields[i].EthType?
  }

  predicate NamesIpProto(fields: seq<Field>) {
    exists i :: 0 <= i < |fields| && fields[i].IpProto?
  }

  /** A packet with the same headers, except that types the match does not name are zero. */
  function Plain(fields: seq<Field>, p: Packet): Packet {
    p.(h := p.h.(ethType := if NamesEthType(fields) then p.h.ethType else 0,
                 ipProto := if NamesIpProto(fields) then p.h.ipProto else 0))
  }

  lemma PlainMatches(fields: seq<Field>, p: Packet)
    requires Matches(fields, p)
    ensures Matches(fields, Plain(fields, p))
  {
    forall i | 0 <= i < |fields|
      ensures FieldMatches(fields[i], Plain(fields, p))
    {
      assert FieldMatches(fields[i], p);
    }
  }

  /** For a match that some packet meets, the fields that the OLT looks for mean that every packet it matches is of those protocols. */
  lemma TrapFieldMeansTrapPackets(fields: seq<Field>, p: Packet)
    requires Matches(fields, p)
    ensures HasTrapField(fields) <==> ForTrapPackets(fields)
  {
    if HasTrapField(fields) {
      var i :| 0 <= i < |fields| && IsTrapField(fields[i]);
      forall q: Packet | Matches(fields, q)
        ensures IsTrapPacket(q.h)
      {
        assert FieldMatches(fields[i], q);
      }
    } else {
      var q := Plain(fields, p);
      PlainMatches(fields, p);
      assert !IsTrapPacket(q.h) by {
        if NamesEthType(fields) {
          var i :| 0 <= i < |fields| && fields[i].EthType?;
          assert FieldMatches(fields[i], p) && !IsTrapField(fields[i]);
        }
        if NamesIpProto(fields) {
          var i :| 0 <= i < |fields| && fields[i].IpProto?;
          assert FieldMatches(fields[i], p) && !IsTrapField(fields[i]);
        }
      }
    }
  }

  /** A flow of the logical switch: it knows nothing of tunnels, and names at most one in-port. */
  ghost predicate IsLogical(f: Flow) {
    && KeepsTunnel(f.actions)
    && (forall i :: 0 <= i < |f.fields| ==> !f.fields[i].TunnelId?)
    && InPortsAre(f.fields, GetInPort(f.fields))
  }

  ghost predicate InPortsAre(fields: seq<Field>, n: nat) {
    forall i :: 0 <= i < |fields| && fields[i].InPort? ==> fields[i].portNo == n
  }

  lemma {:induction false} GetInPortIsThere(fields: seq<Field>)
    requires GetInPort(fields) != 0
    ensures InPort(GetInPort(fields)) in fields
    decreases |fields|
  {
    if !fields[0].InPort? {
      GetInPortIsThere(fields[1..]);
    }
  }

  /** Excluded types do not matter to the rest of a match. */
  lemma {:induction false} RestMatches(fields: seq<Field>, exclude: set<FieldType>, p: Packet)
    ensures Matches(GetOfbFields(fields, exclude), p)
            <==> forall f <- fields :: TypeOf(f) !in exclude ==> FieldMatches(f, p)
    decreases |fields|
  {
    if fields != [] {
      var head, tail := fields[0], fields[1..];
      RestMatches(tail, exclude, p);
      MatchesConcat(if TypeOf(head) in exclude then [] else [head], GetOfbFields(tail, exclude), p);
      assert fields == [head] + tail;
      assert TypeOf(head) !in exclude ==> Matches([head], p) == FieldMatches([head][0], p);
    }
  }

  lemma MatchesAll(fields: seq<Field>, p: Packet)
    ensures Matches(fields, p) <==> forall f <- fields :: FieldMatches(f, p)
  {
    if Matches(fields, p) {
      forall f | f in fields
        ensures FieldMatches(f, p)
      {
        var i :| 0 <= i < |fields| && fields[i] == f;
      }
    }
  }

  /** A logical flow with an in-port matches a packet when the port and the rest of the match do. */
  lemma SplitInPort(f: Flow, p: Packet)
    requires IsLogical(f) && GetInPort(f.fields) != 0
    ensures Matches(f.fields, p) <==> p.inPort == GetInPort(f.fields) && Matches(GetOfbFields(f.fields, {InPortType}), p)
  {
    GetInPortIsThere(f.fields);
    MatchesAll(f.fields, p);
    RestMatches(f.fields, {InPortType}, p);
    forall g | g in f.fields && TypeOf(g) == InPortType
      ensures g == InPort(GetInPort(f.fields))
    {
    }
  }

  /** Where a packet came in matters only to in-port and tunnel fields. */
  lemma RestMoves(f: Flow, exclude: set<FieldType>, p: Packet, inPort: nat, tunnel: nat)
    requires IsLogical(f) && InPortType in exclude
    ensures Matches(GetOfbFields(f.fields, exclude), Moved(p, inPort, tunnel)) <==> Matches(GetOfbFields(f.fields, exclude), p)
  {
    RestMatches(f.fields, exclude, p);
    RestMatches(f.fields, exclude, Moved(p, inPort, tunnel));
    forall g | g in f.fields && TypeOf(g) !in exclude
      ensures FieldMatches(g, Moved(p, inPort, tunnel)) <==> FieldMatches(g, p)
    {
    }
  }

  /**
   A compiled match, on a packet that enters the device at `inPort` with the number of the UNI it came from
   as its tunnel, is the logical match, provided the flow's own UNI enters at the flow's port.
   */
  lemma CompiledMatch(f: Flow, port: nat, p: Packet, inPort: nat)
    requires IsLogical(f) && GetInPort(f.fields) != 0
    requires p.inPort == GetInPort(f.fields) ==> port == inPort
    ensures Matches([InPort(port), TunnelId(GetInPort(f.fields))] + GetOfbFields(f.fields, {InPortType}), Moved(p, inPort, p.inPort))
            <==> Matches(f.fields, p)
  {
    var u := GetInPort(f.fields);
    var front, dp := [InPort(port), TunnelId(u)], Moved(p, inPort, p.inPort);
    MatchesConcat(front, GetOfbFields(f.fields, {InPortType}), dp);
    assert Matches(front, dp) <==> port == inPort && p.inPort == u by {
      if port == inPort && p.inPort == u {
        assert forall i :: 0 <= i < |front| ==> FieldMatches(front[i], dp);
      } else {
        assert !FieldMatches(front[0], dp) || !FieldMatches(front[1], dp);
      }
    }
    RestMoves(f, {InPortType}, p, inPort, p.inPort);
    SplitInPort(f, p);
  }

  /**
   Isolation: whatever packet reaches a device, a flow compiled for it matches only what entered at the port
   of the flow's own path, and only with the tunnel of its own UNI unless it is a trap of an NNI.
   */
  lemma FlowsMatchOnlyTheirPath(path: Route, rootPorts: set<nat>, root: string, f: Flow, d: string, g: Flow, q: Packet)
    requires |path| == 2 && GetInPort(f.fields) != 0
    requires path[0].deviceId != path[1].deviceId
    requires g in RulesFor(path, rootPorts, root, f, d) && Matches(g.fields, q)
    ensures exists hop <- path :: hop.deviceId == d && q.inPort == hop.ingress
    ensures q.tunnel == GetInPort(f.fields) || (IsController(GetOutPort(f.actions)) && GetInPort(f.fields) in rootPorts)
  {
    var rules: DeviceRules := CompiledRules(path, rootPorts, f);
    assert |rules[d]| == 1 && g.fields == rules[d][0].fields;
    assert FieldMatches(g.fields[0], q) && (|g.fields| > 1 ==> FieldMatches(g.fields[1], q));
    var hop := if d == path[0].deviceId then path[0] else path[1];
    assert hop in path;
    assert g.fields[0] == InPort(hop.ingress);
  }

  lemma {:induction false} NoOutputNoPort(actions: seq<Action>)
    requires NoOutput(actions)
    ensures GetOutPort(actions) == 0 && WithoutOutputs(actions) == actions
    decreases |actions|
  {
    if actions != [] {
      NoOutputNoPort(actions[1..]);
      assert [actions[0]] + actions[1..] == actions;
    }
  }

  lemma {:induction false} OneTrailingOutput(actions: seq<Action>, port: nat)
    requires NoOutput(actions)
    ensures GetOutPort(actions + [Output(port)]) == port && WithoutOutputs(actions + [Output(port)]) == actions
    decreases |actions|
  {
    var all := actions + [Output(port)];
    if actions == [] {
      assert all[1..] == [];
    } else {
      assert all[0] == actions[0] && all[1..] == actions[1..] + [Output(port)];
      OneTrailingOutput(actions[1..], port);
      assert [actions[0]] + actions[1..] == actions;
    }
  }

  lemma {:induction false} AfterSequence(a: seq<Action>, b: seq<Action>, p: Packet)
    ensures After(a + b, p) == After(b, After(a, p))
    decreases |a|
  {
    if a == [] {
      assert a + b == b;
    } else {
      assert (a + b)[0] == a[0] && (a + b)[1..] == a[1..] + b;
      AfterSequence(a[1..], b, Step(a[0], p));
    }
  }

  lemma {:induction false} EmitsSequence(a: seq<Action>, b: seq<Action>, p: Packet)
    ensures Emits(a + b, p) == Emits(a, p) + Emits(b, After(a, p))
    decreases |a|
  {
    if a == [] {
      assert a + b == b;
    } else {
      assert (a + b)[0] == a[0] && (a + b)[1..] == a[1..] + b;
      EmitsSequence(a[1..], b, Step(a[0], p));
    }
  }

  lemma {:induction false} WithoutOutputsSequence(a: seq<Action>, b: seq<Action>)
    ensures WithoutOutputs(a + b) == WithoutOutputs(a) + WithoutOutputs(b)
    decreases |a|
  {
    if a == [] {
      assert a + b == b;
    } else {
      assert (a + b)[0] == a[0] && (a + b)[1..] == a[1..] + b;
      WithoutOutputsSequence(a[1..], b);
    }
  }

  /**
   Moving the one output of a flow to its end, as the OLT flow does, sends the same packet if and only if
   the actions after the output leave the headers as they are.
   */
  lemma MovedOutputAgreesIff(a: seq<Action>, port: nat, b: seq<Action>, p: Packet)
    requires NoOutput(a) && NoOutput(b)
    ensures var actions := a + [Output(port)] + b;
            Emits(WithoutOutputs(actions) + [Output(port)], p) == Emits(actions, p)
            <==> After(b, After(a, p)).h == After(a, p).h
  {
    OutputInTheMiddle(a, port, b, p);
  }

  lemma OutputInTheMiddle(a: seq<Action>, port: nat, b: seq<Action>, p: Packet)
    requires NoOutput(a) && NoOutput(b)
    ensures var actions := a + [Output(port)] + b;
            && Emits(actions, p) == [Sent(port, After(a, p).h)]
            && Emits(WithoutOutputs(actions) + [Output(port)], p) == [Sent(port, After(b, After(a, p)).h)]
  {
    OneTrailingOutput(a, port);
    TrailingOutput(a, port, p);
    EmitsSequence(a + [Output(port)], b, p);
    WithoutOutputsSequence(a + [Output(port)], b);
    NoOutputNoPort(b);
    SilentEmitsNothing(b, After(a, p));
    assert WithoutOutputs(a + [Output(port)] + b) == a + b;
    AfterSequence(a, b, p);
    TrailingOutput(a + b, port, p);
  }

  /** The action leaves the headers of every packet alone. */
  predicate IsNeutral(a: Action) {
    a.Output? || (a.SetField? && (a.field.InPort? || a.field.TunnelId?))
  }

  predicate AreNeutral(actions: seq<Action>) {
    forall i :: 0 <= i < |actions| ==> IsNeutral(actions[i])
  }

  predicate NoPop(actions: seq<Action>) {
    forall i :: 0 <= i < |actions| ==> !actions[i].PopVlan?
  }

  lemma {:induction false} NeutralKeepsHeaders(actions: seq<Action>, p: Packet)
    requires AreNeutral(actions)
    ensures After(actions, p).h == p.h
    decreases |actions|
  {
    if actions != [] {
      NeutralKeepsHeaders(actions[1..], Step(actions[0], p));
    }
  }

  /** Without a pop a packet never has fewer tags. */
  lemma {:induction false} NoPopKeepsTags(actions: seq<Action>, p: Packet)
    requires NoPop(actions)
    ensures |After(actions, p).h.vlans| >= |p.h.vlans|
    ensures (exists i :: 0 <= i < |actions| && actions[i].PushVlan?) ==> |After(actions, p).h.vlans| > |p.h.vlans|
    decreases |actions|
  {
    if actions != [] {
      NoPopKeepsTags(actions[1..], Step(actions[0], p));
    }
  }

  /** A tagged packet on which setting this field makes a difference. */
  function Differs(f: Field): Packet {
    match f
    case EthType(n) => Packet(0, 0, Headers([Tag(0, 0, 0)], n + 1, 0, map[]))
    case IpProto(n) => Packet(0, 0, Headers([Tag(0, 0, 0)], 0, n + 1, map[]))
    case VlanVid(n) => Packet(0, 0, Headers([Tag(0, n + 1, 0)], 0, 0, map[]))
    case VlanPcp(n) => Packet(0, 0, Headers([Tag(0, 0, n + 1)], 0, 0, map[]))
    case _ => Packet(0, 0, Headers([Tag(0, 0, 0)], 0, 0, map[]))
  }

  lemma LastSetShows(front: seq<Action>, f: Field)
    requires NoPop(front) && !f.InPort? && !f.TunnelId?
    ensures After(front + [SetField(f)], Differs(f)).h != Differs(f).h
  {
    var p := Differs(f);
    AfterSequence(front, [SetField(f)], p);
    NoPopKeepsTags(front, p);
    var q := After(front, p);
    assert [SetField(f)][1..] == [];
    assert After([SetField(f)], q) == Step(SetField(f), q);
    var r := SetHeader(f, q);
    assert q.h.vlans != [];
    assert f.VlanVid? ==> r.h.vlans[0].vid == f.vid && p.h.vlans[0].vid == f.vid + 1;
    assert f.VlanPcp? ==> r.h.vlans[0].pcp == f.pcp && p.h.vlans[0].pcp == f.pcp + 1;
    assert f.Other? ==> f.kind in r.h.other && f.kind !in p.h.other;
  }

  /** Some packet shows that the actions are not neutral. */
  lemma {:induction false} NotNeutralShows(actions: seq<Action>) returns (p: Packet)
    requires NoPop(actions) && !AreNeutral(actions)
    ensures After(actions, p).h != p.h
    decreases |actions|
  {
    var front, a := actions[..|actions| - 1], actions[|actions| - 1];
    assert actions == front + [a];
    if IsNeutral(a) {
      p := NotNeutralShows(front);
      AfterSequence(front, [a], p);
      NeutralKeepsHeaders([a], After(front, p));
    } else if a.PushVlan? {
      p := Differs(InPort(0));
      NoPopKeepsTags(actions, p);
    } else {
      p := Differs(a.field);
      LastSetShows(front, a.field);
    }
  }

  /**
   What a caller can read off the flow: if nothing after the output pops a tag, moving the output to the end
   is harmless for every packet if and only if every action after it leaves headers alone.
   */
  lemma MovedOutputIsHarmlessIff(port: nat, b: seq<Action>)
    requires NoOutput(b) && NoPop(b)
    ensures (forall p: Packet :: Emits(WithoutOutputs([Output(port)] + b) + [Output(port)], p) == Emits([Output(port)] + b, p))
            <==> AreNeutral(b)
  {
    var actions := [Output(port)] + b;
    assert [] + [Output(port)] + b == actions;
    if AreNeutral(b) {
      forall p: Packet
        ensures Emits(WithoutOutputs(actions) + [Output(port)], p) == Emits(actions, p)
      {
        MovedOutputAgreesIff([], port, b, p);
        NeutralKeepsHeaders(b, p);
      }
    } else {
      var p := NotNeutralShows(b);
      MovedOutputAgreesIff([], port, b, p);
    }
  }

  /** A table 1 flow that sends the packet as it is and then pushes a tag: its OLT flow sends a tagged packet. */
  lemma MovedOutputTagsPacket(p: Packet)
    ensures var actions := [Output(2), PushVlan(0x8100)];
            && Emits(actions, p) == [Sent(2, p.h)]
            && Emits(WithoutOutputs(actions) + [Output(2)], p) == [Sent(2, Pushed(p.h, 0x8100))]
  {
    var b := [PushVlan(0x8100)];
    OutputInTheMiddle([], 2, b, p);
    assert [] + [Output(2)] + b == [Output(2), PushVlan(0x8100)];
    assert b[1..] == [];
  }

  /** Redirecting keeps the match, and sends to the controller instead. */
  lemma RedirectedTrailingOutput(actions: seq<Action>, port: nat)
    requires NoOutput(actions)
    ensures ToController(actions + [Output(port)]) == actions + [Output(OFPP_CONTROLLER)]
  {
  }

  lemma {:induction false} TrapFieldsStay(fields: seq<Field>, exclude: set<FieldType>)
    requires EthTypeType !in exclude && IpProtoType !in exclude
    ensures HasTrapField(GetOfbFields(fields, exclude)) <==> HasTrapField(fields)
    decreases |fields|
  {
    if fields != [] {
      var head, tail := fields[0], fields[1..];
      TrapFieldsStay(tail, exclude);
      HasTrapConcat([head], tail);
      assert fields == [head] + tail;
      HasTrapConcat(if TypeOf(head) in exclude then [] else [head], GetOfbFields(tail, exclude));
      assert HasTrapField([head]) <==> IsTrapField([head][0]);
    }
  }

  lemma HasTrapConcat(a: seq<Field>, b: seq<Field>)
    ensures HasTrapField(a + b) <==> HasTrapField(a) || HasTrapField(b)
  {
    if HasTrapField(a) {
      var i :| 0 <= i < |a| && IsTrapField(a[i]);
      assert (a + b)[i] == a[i];
    }
    if HasTrapField(b) {
      var i :| 0 <= i < |b| && IsTrapField(b[i]);
      assert (a + b)[|a| + i] == b[i];
    }
    if HasTrapField(a + b) {
      var i :| 0 <= i < |a + b| && IsTrapField((a + b)[i]);
      assert i < |a| || (a + b)[i] == b[i - |a|];
    }
  }
}
