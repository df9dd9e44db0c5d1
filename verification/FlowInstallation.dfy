/** From logical flows to device tables: asking for each flow's route, compiling it, and merging the rules. */
module FlowInstallation {
  import opened Prelude
  import opened PonTopology
  import opened RouteSpec
  import opened DeviceRoutes
  import opened OpenFlowSemantics
  import opened FlowDecomposition
  import opened DecompositionLemmas
  import opened LogicalAgentRoutes
  import opened UpstreamDecomposition
  import opened TrapDecomposition
  import opened MixedDecomposition

  ghost function NetOf(g: Graph, ports: LogicalPorts): Net {
    Net(g.devices, g.rootDeviceID, ports)
  }

  lemma ServesNet(g: Graph, ports: LogicalPorts, pairs: Pairs)
    requires Serves(g, ports, pairs)
    ensures IsNet(NetOf(g, ports))
  {
  }

  lemma UpIsPath(g: Graph, ports: LogicalPorts, u: nat, n: nat, r: Route)
    requires ports == g.registry && IsUni(ports, u) && IsNni(ports, n) && Up(g, u, n, r)
    ensures var net := NetOf(g, ports);
            Reachable(net, u) && r == [OnuHop(net, u), OltHop(net, u, n)]
  {
    var down := Downstream(g.devices, g.rootDeviceID, ports, n, u);
    assert r[0] == Back(down[1]) && r[1] == Back(down[0]);
  }

  /** The half route of a UNI is its ONU hop, and it has one because the UNI is paired with an NNI. */
  lemma StartIsPath(g: Graph, ports: LogicalPorts, pairs: Pairs, u: nat, y: nat, r: Route)
    requires Serves(g, ports, pairs) && IsUni(ports, u) && StartsFrom(g, pairs, u, y, r)
    ensures var net := NetOf(g, ports);
            IsNni(ports, y) && (y, u) in pairs && Reachable(net, u) && r == [OnuHop(net, u), EmptyHop]
  {
    assert (u, y) !in pairs;
    assert Routable(g.devices, g.rootDeviceID, ports, y, u);
    UpIsPath(g, ports, u, y, g.Routes[PathId(u, y)]);
  }

  /** For a UNI's flow, root ports recorded or not do not change the rules. */
  lemma SameRules(path: Route, a: set<nat>, b: set<nat>, root: string, f: Flow, d: string)
    requires |path| == 2 && GetInPort(f.fields) != 0 && GetInPort(f.fields) !in a && GetInPort(f.fields) !in b
    ensures RulesFor(path, a, root, f, d) == RulesFor(path, b, root, f, d)
  {
  }

  lemma AnswerUp(g: Graph, ports: LogicalPorts, pairs: Pairs, u: nat, n: nat, r: Result<Route, RouteError>)
    requires ports == g.registry && AgentPorts(ports) && Reachable(NetOf(g, ports), u) && IsNni(ports, n)
    requires Answers(g, ports, pairs, u, n, r)
    ensures r.Success? ==> Serves(g, ports, pairs + {(n, u)}) && r.value == [OnuHop(NetOf(g, ports), u), OltHop(NetOf(g, ports), u, n)]
    ensures r.Failure? ==> Serves(g, ports, pairs) && !Answerable(g, ports, pairs, n, u)
  {
    assert ports[u].devicePortNo == u && ports[n].devicePortNo == n;
    if r.Success? {
      UpIsPath(g, ports, u, n, r.value);
    }
  }

  lemma AnswerStart(g: Graph, ports: LogicalPorts, pairs: Pairs, u: nat, r: Result<Route, RouteError>) returns (n: nat)
    requires ports == g.registry && AgentPorts(ports) && Reachable(NetOf(g, ports), u)
    requires Answers(g, ports, pairs, u, 0, r)
    ensures Serves(g, ports, pairs)
    ensures r.Success? ==> IsNni(ports, n) && r.value == [OnuHop(NetOf(g, ports), u), EmptyHop]
    ensures r.Failure? ==> forall y :: (y, u) !in pairs
  {
    n := 0;
    assert ports[u].devicePortNo == u;
    if r.Success? {
      var y :| StartsFrom(g, pairs, u, y, r.value);
      n := y;
      StartIsPath(g, ports, pairs, u, y, r.value);
    }
  }

  /** The ports that flow f asks about. */
  lemma PortsOf(net: Net, f: Flow)
    requires IsNet(net) && IsMixed(net, f)
    ensures Reachable(net, GetInPort(f.fields)) && GetInPort(f.fields) != 0
    ensures IsFirst(net, f) ==> GetOutPort(f.actions) == 0
    ensures IsSecond(net, f) ==> GetOutPort(f.actions) == f.actions[|f.actions| - 1].port && !IsController(GetOutPort(f.actions))
  {
    var u := GetInPort(f.fields);
    assert net.ports[u].devicePortNo == u;
    if IsFirst(net, f) {
      NoOutputNoPort(f.actions);
    } else if IsSecond(net, f) {
      var n := f.actions[|f.actions| - 1].port;
      assert f.actions == Body(f.actions) + [Output(n)];
      OneTrailingOutput(Body(f.actions), n);
      assert net.ports[n].devicePortNo == n;
    }
  }

  /** The agent will answer for this flow: a first flow needs a cached pair, the others a cached or recorded one. */
  ghost predicate WillAnswer(g: Graph, ports: LogicalPorts, pairs: Pairs, f: Flow)
    reads g`logicalPorts
  {
    var net, u := NetOf(g, ports), GetInPort(f.fields);
    && u in ports
    && (IsFirst(net, f) ==> exists n :: (n, u) in pairs)
    && (IsSecond(net, f) ==> Answerable(g, ports, pairs, f.actions[|f.actions| - 1].port, u))
    && (IsTrapFlow(net, f) ==> RootsOf(ports) != {} && forall n :: IsNni(ports, n) ==> Answerable(g, ports, pairs, n, u))
  }

  /** The agent's answer for the ports of flow f is its path. */
  method PathFor(g: Graph, ports: LogicalPorts, f: Flow, ghost pairs: Pairs)
    returns (r: Result<Route, DecompositionError>, ghost n: nat, ghost known: Pairs)
    requires Serves(g, ports, pairs) && IsMixed(NetOf(g, ports), f)
    modifies g`Routes, g`devicesPonPorts, g`childConnectionPort
    ensures Serves(g, ports, known) && pairs <= known
    ensures r.Success? ==> IsNni(ports, n) && r.value == MixedPath(NetOf(g, ports), f, n)
    ensures WillAnswer(g, ports, pairs, f) ==> r.Success?
  {
    ghost var net, u := NetOf(g, ports), GetInPort(f.fields);
    ServesNet(g, ports, pairs);
    PortsOf(net, f);
    ghost var to;
    var answer;
    answer, to := LogicalAgentRoutes.GetRoute(g, ports, GetInPort(f.fields), GetOutPort(f.actions), pairs);
    r := if answer.Success? then Success(answer.value) else Failure(FlowDecomposition.NoRoute);
    n, known := to, pairs;
    if IsFirst(net, f) {
      n := AnswerStart(g, ports, pairs, u, answer);
    } else if IsSecond(net, f) || RootsOf(ports) != {} {
      AnswerUp(g, ports, pairs, u, to, answer);
      known := if answer.Success? then pairs + {(to, u)} else pairs;
    }
  }

  /** One flow: its path, then its rules. */
  method DecomposeOne(g: Graph, ports: LogicalPorts, found: set<string>, f: Flow, ghost pairs: Pairs)
    returns (r: Result<DeviceRules, DecompositionError>, ghost n: nat, ghost known: Pairs)
    requires Serves(g, ports, pairs) && IsMixed(NetOf(g, ports), f) && g.rootDeviceID in found
    modifies g`Routes, g`devicesPonPorts, g`childConnectionPort
    ensures Serves(g, ports, known) && pairs <= known && IsNet(NetOf(g, ports))
    ensures r.Success? ==> IsNni(ports, n) && forall d :: RulesAt(r.value, d) == MixedRules(NetOf(g, ports), f, n, d)
    ensures WillAnswer(g, ports, pairs, f) && Reachable(NetOf(g, ports), GetInPort(f.fields)) && ports[GetInPort(f.fields)].deviceId in found ==> r.Success?
  {
    ghost var net := NetOf(g, ports);
    ServesNet(g, ports, pairs);
    PortsOf(net, f);
    var path;
    path, n, known := PathFor(g, ports, f, pairs);
    if path.Success? {
      PathStartsAtOnu(net, f, n);
    }
    r := DecomposeFlow(path, g.RootPorts.Keys, g.rootDeviceID, found, f);
    if r.Success? {
      forall d
        ensures RulesAt(r.value, d) == MixedRules(net, f, n, d)
      {
        SameRules(path.value, g.RootPorts.Keys, RootsOf(ports), g.rootDeviceID, f, d);
      }
    }
  }

  lemma PathStartsAtOnu(net: Net, f: Flow, n: nat)
    requires IsNet(net) && IsMixed(net, f) && IsNni(net.ports, n)
    ensures var path := MixedPath(net, f, n);
            |path| == 2 && path[0].deviceId == net.ports[GetInPort(f.fields)].deviceId != net.root
  {
    var u := GetInPort(f.fields);
    assert net.ports[u].deviceId != net.root;
  }

  /** Rules merged device by device. */
  method Merge(all: DeviceRules, more: DeviceRules) returns (r: DeviceRules)
    ensures forall d :: RulesAt(r, d) == RulesAt(all, d) + RulesAt(more, d)
  {
    r := all;
    var todo := more.Keys;
    while todo != {}
      invariant todo <= more.Keys
      invariant forall d :: RulesAt(r, d) == RulesAt(all, d) + if d in todo then [] else RulesAt(more, d)
      decreases todo
    {
      var d :| d in todo;
      todo := todo - {d};
      r := r[d := RulesAt(r, d) + more[d]];
    }
  }

  ghost predicate AllMixed(net: Net, flows: seq<Flow>) {
    forall i :: 0 <= i < |flows| ==> IsMixed(net, flows[i])
  }

  /** The rules are what the flows contribute, device by device. */
  ghost predicate AreInstalled(net: Net, flows: seq<Flow>, via: seq<nat>, rules: DeviceRules) {
    && IsNet(net) && AreMixed(net, flows, via)
    && forall d {:trigger RulesAt(rules, d)} :: RulesAt(rules, d) == MixedInstalled(net, flows, via, d)
  }

  lemma NothingInstalled(net: Net)
    requires IsNet(net)
    ensures AreInstalled(net, [], [], map[])
  {
    forall d
      ensures MixedInstalled(net, [], [], d) == []
    {
      assert AllRules(net, [], [], d) == [];
    }
  }

  lemma MixedGrows(net: Net, flows: seq<Flow>, via: seq<nat>, f: Flow, n: nat)
    requires AreMixed(net, flows, via) && IsMixed(net, f) && IsNni(net.ports, n)
    ensures AreMixed(net, flows + [f], via + [n])
  {
    var all, w := flows + [f], via + [n];
    forall i | 0 <= i < |all|
      ensures IsMixed(net, all[i]) && IsNni(net.ports, w[i])
    {
      assert i < |flows| ==> all[i] == flows[i] && w[i] == via[i];
    }
  }

  lemma ConcatOne(lists: seq<seq<Flow>>, list: seq<Flow>)
    ensures Concat(lists + [list]) == Concat(lists) + list
  {
    assert (lists + [list])[..|lists|] == lists;
  }

  lemma AllRulesOne(net: Net, flows: seq<Flow>, via: seq<nat>, f: Flow, n: nat, d: string)
    requires IsNet(net) && AreMixed(net, flows, via) && IsMixed(net, f) && IsNni(net.ports, n)
    requires AreMixed(net, flows + [f], via + [n])
    ensures AllRules(net, flows + [f], via + [n], d) == AllRules(net, flows, via, d) + [MixedRules(net, f, n, d)]
  {
    var lists, before := AllRules(net, flows + [f], via + [n], d), AllRules(net, flows, via, d);
    forall i | 0 <= i < |lists|
      ensures lists[i] == (before + [MixedRules(net, f, n, d)])[i]
    {
      assert (flows + [f])[i] == (if i < |flows| then flows[i] else f) && (via + [n])[i] == if i < |flows| then via[i] else n;
    }
  }

  lemma InstalledOne(net: Net, flows: seq<Flow>, via: seq<nat>, f: Flow, n: nat, d: string)
    requires IsNet(net) && AreMixed(net, flows, via) && IsMixed(net, f) && IsNni(net.ports, n)
    requires AreMixed(net, flows + [f], via + [n])
    ensures MixedInstalled(net, flows + [f], via + [n], d) == MixedInstalled(net, flows, via, d) + MixedRules(net, f, n, d)
  {
    AllRulesOne(net, flows, via, f, n, d);
    ConcatOne(AllRules(net, flows, via, d), MixedRules(net, f, n, d));
  }

  lemma InstalledGrows(net: Net, flows: seq<Flow>, via: seq<nat>, f: Flow, n: nat, rules: DeviceRules, more: DeviceRules, merged: DeviceRules)
    requires AreInstalled(net, flows, via, rules) && IsMixed(net, f) && IsNni(net.ports, n)
    requires forall d :: RulesAt(more, d) == MixedRules(net, f, n, d)
    requires forall d :: RulesAt(merged, d) == RulesAt(rules, d) + RulesAt(more, d)
    ensures AreInstalled(net, flows + [f], via + [n], merged)
  {
    MixedGrows(net, flows, via, f, n);
    forall d
      ensures RulesAt(merged, d) == MixedInstalled(net, flows + [f], via + [n], d)
    {
      InstalledOne(net, flows, via, f, n, d);
    }
  }

  /** One step of the loop of DecomposeRules. */
  method AddFlow(g: Graph, ports: LogicalPorts, found: set<string>, f: Flow, rules: DeviceRules,
                 ghost flows: seq<Flow>, ghost via: seq<nat>, ghost known: Pairs, ghost pairs: Pairs)
    returns (r: Result<DeviceRules, DecompositionError>, ghost n: nat, ghost known': Pairs)
    requires Serves(g, ports, known) && pairs <= known && IsMixed(NetOf(g, ports), f) && g.rootDeviceID in found
    requires AreInstalled(NetOf(g, ports), flows, via, rules)
    modifies g`Routes, g`devicesPonPorts, g`childConnectionPort
    ensures Serves(g, ports, known') && pairs <= known'
    ensures r.Success? ==> AreInstalled(NetOf(g, ports), flows + [f], via + [n], r.value)
    ensures IsReady(g, ports, found, pairs, f) ==> r.Success?
  {
    AnswersGrow(g, ports, found, pairs, known, f);
    var one;
    one, n, known' := DecomposeOne(g, ports, found, f, known);
    if one.Failure? {
      return Failure(one.error), n, known';
    }
    var merged := Merge(rules, one.value);
    InstalledGrows(NetOf(g, ports), flows, via, f, n, rules, one.value, merged);
    r := Success(merged);
  }

  /** The ONU of the flow's UNI can be looked up. */
  predicate OnuFound(ports: LogicalPorts, found: set<string>, f: Flow) {
    GetInPort(f.fields) in ports && ports[GetInPort(f.fields)].deviceId in found
  }

  /** The agent answers for the flow, and its ONU can be looked up. */
  ghost predicate IsReady(g: Graph, ports: LogicalPorts, found: set<string>, pairs: Pairs, f: Flow)
    reads g`logicalPorts
  {
    WillAnswer(g, ports, pairs, f) && OnuFound(ports, found, f)
  }

  lemma AnswersGrow(g: Graph, ports: LogicalPorts, found: set<string>, pairs: Pairs, known: Pairs, f: Flow)
    requires pairs <= known
    ensures IsReady(g, ports, found, pairs, f) ==> IsReady(g, ports, found, known, f)
  {
  }

  lemma PrefixGrows(flows: seq<Flow>, i: nat)
    requires i < |flows|
    ensures flows[..i + 1] == flows[..i] + [flows[i]]
  {
  }

  lemma WholePrefix(flows: seq<Flow>)
    ensures flows[..|flows|] == flows
  {
  }

  /**
   DecomposeRules over the agent's own routes, with the flows in any order: every device gets exactly what
   the flows contribute to it.  It fails only on a flow for which the agent does not answer or whose ONU cannot
   be looked up.
   */
  method DecomposeRules(g: Graph, ports: LogicalPorts, found: set<string>, flows: seq<Flow>, ghost pairs: Pairs)
    returns (r: Result<DeviceRules, DecompositionError>, ghost via: seq<nat>, ghost known: Pairs, ghost failed: nat)
    requires Serves(g, ports, pairs) && AllMixed(NetOf(g, ports), flows) && g.rootDeviceID in found
    modifies g`Routes, g`devicesPonPorts, g`childConnectionPort
    ensures Serves(g, ports, known) && pairs <= known
    ensures r.Success? ==> AreInstalled(NetOf(g, ports), flows, via, r.value)
    ensures r.Failure? ==> failed < |flows| && !IsReady(g, ports, found, pairs, flows[failed])
  {
    ghost var net, done := NetOf(g, ports), [];
    ServesNet(g, ports, pairs);
    NothingInstalled(net);
    var rules: DeviceRules := map[];
    via, known, failed := [], pairs, 0;
    for i := 0 to |flows|
      invariant Serves(g, ports, known) && pairs <= known
      invariant done == flows[..i] && AreInstalled(net, done, via, rules)
    {
      ghost var n;
      var one;
      one, n, known := AddFlow(g, ports, found, flows[i], rules, done, via, known, pairs);
      if one.Failure? {
        return Failure(one.error), via, known, i;
      }
      rules := one.value;
      PrefixGrows(flows, i);
      done, via := done + [flows[i]], via + [n];
    }
    WholePrefix(flows);
    r := Success(rules);
  }
}
