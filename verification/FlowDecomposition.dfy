/** Compiling a flow of the logical switch into flows for the ONU and the OLT on its path. */
module FlowDecomposition {
  import opened Prelude
  import opened RouteSpec
  import opened OpenFlowSemantics
  import opened LogicalAgentRoutes

  type DeviceRules = map<string, seq<Flow>>

  datatype DecompositionError = NoRoute | InvalidRouteLength

  datatype FieldType = InPortType | TunnelIdType | EthTypeType | IpProtoType | VlanVidType | VlanPcpType | OtherType

  function TypeOf(f: Field): FieldType {
    match f
    case InPort(_) => InPortType
    case TunnelId(_) => TunnelIdType
    case EthType(_) => EthTypeType
    case IpProto(_) => IpProtoType
    case VlanVid(_) => VlanVidType
    case VlanPcp(_) => VlanPcpType
    case Other(_, _) => OtherType
  }

  // ---------------------------------------------------------------------------------------------
  // Reading flows

  /** The match fields whose type is not excluded, in order. */
  function GetOfbFields(fields: seq<Field>, exclude: set<FieldType>): seq<Field>
    decreases |fields|
  {
    if fields == [] then []
    else (if TypeOf(fields[0]) in exclude then [] else [fields[0]]) + GetOfbFields(fields[1..], exclude)
  }

  /** The first in-port field, or zero. */
  function GetInPort(fields: seq<Field>): nat
    decreases |fields|
  {
    if fields == [] then 0 else if fields[0].InPort? then fields[0].portNo else GetInPort(fields[1..])
  }

  /** The port of the first output action, or zero. */
  function GetOutPort(actions: seq<Action>): nat
    decreases |actions|
  {
    if actions == [] then 0 else if actions[0].Output? then actions[0].port else GetOutPort(actions[1..])
  }

  /** The actions without outputs, in order. */
  function WithoutOutputs(actions: seq<Action>): seq<Action>
    decreases |actions|
  {
    if actions == [] then []
    else (if actions[0].Output? then [] else [actions[0]]) + WithoutOutputs(actions[1..])
  }

  /** The value that the first set-field action gives to the outer VLAN id or priority. */
  function GetSetField(actions: seq<Action>, t: FieldType): Option<nat>
    requires t == VlanVidType || t == VlanPcpType
    decreases |actions|
  {
    if actions == [] then None
    else if actions[0].SetField? && TypeOf(actions[0].field) == t
    then Some(if t == VlanVidType then actions[0].field.vid else actions[0].field.pcp)
    else GetSetField(actions[1..], t)
  }

  /** A device flow that takes its priority, cookie and metadata from a logical flow. */
  function DeviceFlow(f: Flow, meterId: nat, fields: seq<Field>, actions: seq<Action>): Flow {
    Flow(0, f.priority, f.cookie, fields, actions, 0, meterId, f.writeMetadata)
  }

  // ---------------------------------------------------------------------------------------------
  // Upstream

  function OnuFlow(f: Flow, hop: Hop, inPortNo: nat): Flow {
    DeviceFlow(f, f.meterId, [InPort(hop.ingress), TunnelId(inPortNo)] + GetOfbFields(f.fields, {InPortType}),
               f.actions + [Output(hop.egress)])
  }

  function OltFlow(f: Flow, hop: Hop, inPortNo: nat): Flow {
    DeviceFlow(f, f.meterId, [InPort(hop.ingress), TunnelId(inPortNo)] + GetOfbFields(f.fields, {InPortType}),
               WithoutOutputs(f.actions) + [Output(hop.egress)])
  }

  /** processUpstreamNonControllerBoundFlow */
  function ProcessUpstream(path: Route, inPortNo: nat, outPortNo: nat, f: Flow): DeviceRules
    requires |path| == 2
  {
    if f.tableId == 0 && f.gotoTable != 0 then
      if outPortNo != 0 then map[] else map[path[0].deviceId := [OnuFlow(f, path[0], inPortNo)]]
    else if f.tableId == 1 && outPortNo != 0 then map[path[1].deviceId := [OltFlow(f, path[1], inPortNo)]]
    else map[]
  }

  // ---------------------------------------------------------------------------------------------
  // To the controller

  /** The meter for the OLT: the low half of the metadata to write, or the flow's own. */
  function OltMeter(f: Flow): nat {
    var fromMetadata := f.writeMetadata % 0x1_0000_0000;
    if fromMetadata == 0 then f.meterId else fromMetadata
  }

  function TrapOltFlow(f: Flow, hop: Hop, inPortNo: nat): Flow {
    var vid, pcp := GetSetField(f.actions, VlanVidType), GetSetField(f.actions, VlanPcpType);
    DeviceFlow(f, OltMeter(f),
               [InPort(hop.ingress), TunnelId(inPortNo)]
               + GetOfbFields(f.fields, {InPortType, VlanVidType, VlanPcpType})
               + (if vid.Some? then [VlanVid(vid.value)] else [])
               + (if vid.Some? && pcp.Some? then [VlanPcp(pcp.value)] else []),
               [Output(hop.egress)])
  }

  function TrapOnuFlow(f: Flow, hop: Hop, inPortNo: nat): Flow {
    var vid, pcp := GetSetField(f.actions, VlanVidType), GetSetField(f.actions, VlanPcpType);
    DeviceFlow(f, f.meterId, [InPort(hop.ingress), TunnelId(inPortNo)] + GetOfbFields(f.fields, {InPortType}),
               if vid.None? then [Output(hop.egress)]
               else [PushVlan(0x8100), SetField(VlanVid(vid.value)), Output(hop.egress)]
                    + if pcp.Some? then [SetField(VlanPcp(pcp.value))] else [])
  }

  /** processControllerBoundFlow, for an NNI or one UNI. */
  function ProcessControllerBound(path: Route, rootPorts: set<nat>, inPortNo: nat, f: Flow): DeviceRules
    requires |path| == 2 && inPortNo != 0
  {
    if inPortNo in rootPorts then
      map[path[0].deviceId := [Flow(0, f.priority, f.cookie, [InPort(path[0].ingress)] + GetOfbFields(f.fields, {InPortType}), f.actions, 0, 0, 0)]]
    else map[path[1].deviceId := [TrapOltFlow(f, path[1], inPortNo)]][path[0].deviceId := [TrapOnuFlow(f, path[0], inPortNo)]]
  }

  // ---------------------------------------------------------------------------------------------
  // The output port of trapped protocols

  /** EAPOL, PPPoE discovery, IGMP or UDP. */
  predicate IsTrapField(f: Field) {
    f == EthType(0x888e) || f == EthType(0x8863) || f == IpProto(2) || f == IpProto(17)
  }

  ghost predicate HasTrapField(fields: seq<Field>) {
    exists i :: 0 <= i < |fields| && IsTrapField(fields[i])
  }

  function ToController(actions: seq<Action>): (r: seq<Action>)
    ensures |r| == |actions|
    ensures forall i :: 0 <= i < |r| ==> r[i] == if actions[i].Output? then Output(OFPP_CONTROLLER) else actions[i]
  {
    seq(|actions|, i requires 0 <= i < |actions| => if actions[i].Output? then Output(OFPP_CONTROLLER) else actions[i])
  }

  /** A flow of the OLT after the pass over output ports. */
  ghost function Redirected(f: Flow): Flow {
    if HasTrapField(f.fields) then f.(actions := ToController(f.actions)) else f
  }

  ghost predicate AreRedirected(flows: seq<Flow>, result: seq<Flow>) {
    |result| == |flows| && forall i :: 0 <= i < |flows| ==> result[i] == Redirected(flows[i])
  }

  /** The inner loops of the pass: the flows of the OLT, one by one. */
  method RedirectFlows(flows: seq<Flow>) returns (result: seq<Flow>)
    ensures AreRedirected(flows, result)
  {
    result := [];
    for i := 0 to |flows|
      invariant |result| == i && forall j :: 0 <= j < i ==> result[j] == Redirected(flows[j])
    {
      var f := flows[i];
      var update := false;
      for k := 0 to |f.fields|
        invariant !update && forall j :: 0 <= j < k ==> !IsTrapField(f.fields[j])
      {
        update := IsTrapField(f.fields[k]);
        if update {
          break;
        }
      }
      result := result + [if update then f.(actions := ToController(f.actions)) else f];
    }
  }

  /** updateOutputPortForControllerBoundFlowForParentDevice: only the flows of the root device change, if it can be looked up. */
  method UpdateOutputPort(rules: DeviceRules, root: string, rootFound: bool) returns (r: DeviceRules)
    ensures r.Keys == rules.Keys
    ensures forall d :: d in rules && (d != root || !rootFound) ==> r[d] == rules[d]
    ensures root in rules && rootFound ==> AreRedirected(rules[root], r[root])
  {
    r := rules;
    var todo := rules.Keys;
    while todo != {}
      invariant todo <= rules.Keys && r.Keys == rules.Keys
      invariant forall d :: d in rules && (d != root || d in todo || !rootFound) ==> r[d] == rules[d]
      invariant root in rules && root !in todo && rootFound ==> AreRedirected(rules[root], r[root])
      decreases todo
    {
      var d :| d in todo;
      todo := todo - {d};
      if d == root && rootFound {
        var flows := RedirectFlows(rules[d]);
        r := r[d := flows];
      }
    }
  }

  /** What the rules for device d come to, for a flow with the given path. */
  ghost function RulesFor(path: Route, rootPorts: set<nat>, root: string, f: Flow, d: string): seq<Flow>
    requires |path| == 2 && GetInPort(f.fields) != 0
  {
    var rules := CompiledRules(path, rootPorts, f);
    if d !in rules then [] else if d == root then RedirectedAll(rules[d]) else rules[d]
  }

  ghost function RedirectedAll(flows: seq<Flow>): (r: seq<Flow>)
    ensures AreRedirected(flows, r)
  {
    seq(|flows|, i requires 0 <= i < |flows| => Redirected(flows[i]))
  }

  function CompiledRules(path: Route, rootPorts: set<nat>, f: Flow): DeviceRules
    requires |path| == 2 && GetInPort(f.fields) != 0
  {
    if IsController(GetOutPort(f.actions)) then ProcessControllerBound(path, rootPorts, GetInPort(f.fields), f)
    else ProcessUpstream(path, GetInPort(f.fields), GetOutPort(f.actions), f)
  }

  /** The rules for a device, none if it has no entry. */
  function RulesAt(rules: DeviceRules, d: string): seq<Flow> {
    if d in rules then rules[d] else []
  }

  /**
   decomposeFlow, for a flow with an in-port that is bound for the controller or whose path starts at an ONU.
   `route` is the agent's answer for its ports, and `found` are the devices that can be looked up.
   */
  method DecomposeFlow(route: Result<Route, DecompositionError>, rootPorts: set<nat>, root: string, found: set<string>, f: Flow)
    returns (r: Result<DeviceRules, DecompositionError>)
    requires GetInPort(f.fields) != 0
    requires route.Success? && |route.value| == 2 ==> IsController(GetOutPort(f.actions)) || route.value[0].deviceId != root
    ensures r.Success? <==>
      route.Success? && |route.value| == 2 && (IsController(GetOutPort(f.actions)) || route.value[0].deviceId in found)
    ensures r.Failure? ==>
      r.error == if route.Failure? then route.error else if |route.value| == 0 || |route.value| == 2 then NoRoute else InvalidRouteLength
    ensures r.Success? && root in found ==> forall d :: RulesAt(r.value, d) == RulesFor(route.value, rootPorts, root, f, d)
    ensures r.Success? && root !in found ==> r.value == CompiledRules(route.value, rootPorts, f)
  {
    if route.Failure? {
      return Failure(route.error);
    }
    var path := route.value;
    if |path| == 0 {
      return Failure(NoRoute);
    } else if |path| != 2 {
      return Failure(InvalidRouteLength);
    }
    var inPortNo, outPortNo := GetInPort(f.fields), GetOutPort(f.actions);
    var deviceRules;
    if IsController(outPortNo) {
      deviceRules := ProcessControllerBound(path, rootPorts, inPortNo, f);
    } else {
      if path[0].deviceId !in found {
        return Failure(NoRoute);
      }
      deviceRules := ProcessUpstream(path, inPortNo, outPortNo, f);
    }
    assert deviceRules == CompiledRules(path, rootPorts, f);
    var updated := UpdateOutputPort(deviceRules, root, root in found);
    r := Success(updated);
  }

  /** The meter of the flow for device d: the OLT's trap flow takes the one that the metadata to write names, if any. */
  ghost predicate HasMeter(path: Route, f: Flow, d: string, g: Flow)
    requires |path| == 2
  {
    var named := f.writeMetadata % 0x1_0000_0000;
    if IsController(GetOutPort(f.actions)) && d == path[1].deviceId != path[0].deviceId && named != 0 then g.meterId == named
    else g.meterId == f.meterId
  }

  /**
   Whatever device a flow is compiled for, there is at most one flow for it, in the device's only table,
   with the logical flow's priority and cookie; from a UNI also with its metadata and the right meter, and
   a trap of an NNI has neither.
   */
  lemma RulesKeepAttributes(path: Route, rootPorts: set<nat>, root: string, f: Flow, d: string)
    requires |path| == 2 && GetInPort(f.fields) != 0
    ensures var flows := RulesFor(path, rootPorts, root, f, d);
            && |flows| <= 1
            && forall g <- flows ::
                 && g.tableId == 0 && g.gotoTable == 0 && g.priority == f.priority && g.cookie == f.cookie
                 && if GetInPort(f.fields) in rootPorts && IsController(GetOutPort(f.actions)) then g.writeMetadata == g.meterId == 0
                    else g.writeMetadata == f.writeMetadata && HasMeter(path, f, d, g)
  {
    var rules := CompiledRules(path, rootPorts, f);
    if d in rules {
      assert |rules[d]| == 1;
    }
  }

  /** The first output of the actions is to this port. */
  ghost predicate FirstOutputIs(actions: seq<Action>, port: nat) {
    exists i :: 0 <= i < |actions| && actions[i] == Output(port) && forall j :: 0 <= j < i ==> !actions[j].Output?
  }

  lemma {:induction false} OutPortIsFirst(actions: seq<Action>, port: nat)
    requires port != 0
    ensures GetOutPort(actions) == port <==> FirstOutputIs(actions, port)
    decreases |actions|
  {
    if actions != [] && !actions[0].Output? {
      var rest := actions[1..];
      OutPortIsFirst(rest, port);
      if FirstOutputIs(rest, port) {
        var i :| 0 <= i < |rest| && rest[i] == Output(port) && forall j :: 0 <= j < i ==> !rest[j].Output?;
        assert actions[i + 1] == Output(port);
        assert forall j :: 0 < j < i + 1 ==> actions[j] == rest[j - 1];
      }
      if FirstOutputIs(actions, port) {
        var i :| 0 <= i < |actions| && actions[i] == Output(port) && forall j :: 0 <= j < i ==> !actions[j].Output?;
        assert rest[i - 1] == Output(port);
        assert forall j :: 0 <= j < i - 1 ==> rest[j] == actions[j + 1];
      }
    }
  }

  /**
   Which devices get a flow at all.  A flow for the controller: the OLT for an NNI, both devices for a UNI.
   Any other upstream flow: the ONU in table 0 if it goes to another table and names no output port, the OLT
   in table 1 if it does name one; nothing else is compiled.
   */
  lemma DevicesWithFlows(path: Route, rootPorts: set<nat>, root: string, f: Flow, d: string)
    requires |path| == 2 && GetInPort(f.fields) != 0
    ensures RulesFor(path, rootPorts, root, f, d) != [] <==>
      if exists p :: IsController(p) && FirstOutputIs(f.actions, p)
      then d == path[0].deviceId || (d == path[1].deviceId && GetInPort(f.fields) !in rootPorts)
      else if exists p :: p != 0 && FirstOutputIs(f.actions, p) then f.tableId == 1 && d == path[1].deviceId
      else f.tableId == 0 && f.gotoTable != 0 && d == path[0].deviceId
  {
    forall p: nat | p != 0
      ensures GetOutPort(f.actions) == p <==> FirstOutputIs(f.actions, p)
    {
      OutPortIsFirst(f.actions, p);
    }
    var out := GetOutPort(f.actions);
    assert out != 0 ==> FirstOutputIs(f.actions, out);
    assert IsController(out) <==> exists p :: IsController(p) && FirstOutputIs(f.actions, p);
    var rules := CompiledRules(path, rootPorts, f);
    assert d in rules ==> |rules[d]| == 1;
  }
}
