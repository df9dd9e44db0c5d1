/** How the logical agent answers route questions: full routes, half routes and routes to the controller. */
module LogicalAgentRoutes {
  import opened Prelude
  import opened PonTopology
  import opened RouteSpec
  import opened DeviceRoutes
  import RouteTheorems

  const OFPP_CONTROLLER: nat := 2147483645

  /** A port number that means the controller, whatever its top bit.  Zero stands for no port. */
  predicate IsController(portNo: nat) {
    portNo != 0 && portNo % 0x8000_0000 == OFPP_CONTROLLER
  }

  lemma MaskedWords(x: bv32)
    ensures x & 0x7fffffff == 0x7ffffffd <==> x == 0x7ffffffd || x == 0xfffffffd
  {
  }

  lemma RoundTrip(x: bv32)
    ensures (x as nat) as bv32 == x && x as nat < 0x1_0000_0000
  {
  }

  lemma LowWord(x: bv32)
    ensures x as nat == 0x7ffffffd <==> x == 0x7ffffffd
  {
    var y: bv32 := 0x7ffffffd;
    assert y as nat == 0x7ffffffd;
    RoundTrip(x);
    RoundTrip(y);
  }

  lemma HighWord(x: bv32)
    ensures x as nat == 0xfffffffd <==> x == 0xfffffffd
  {
    var y: bv32 := 0xfffffffd;
    assert y as nat == 0xfffffffd;
    RoundTrip(x);
    RoundTrip(y);
  }

  lemma TwoNumbers(n: nat)
    requires n < 0x1_0000_0000
    ensures IsController(n) <==> n == 0x7ffffffd || n == 0xfffffffd
  {
  }

  /** It is the test of the source, which masks the top bit of a 32-bit number. */
  lemma IsControllerMasks(x: bv32)
    ensures IsController(x as nat) <==> x & 0x7fffffff == 0x7ffffffd
  {
    RoundTrip(x);
    MaskedWords(x);
    LowWord(x);
    HighWord(x);
    TwoNumbers(x as nat);
  }

  /** The agent's ports: none is zero or the controller, and each is numbered as its device port. */
  ghost predicate AgentPorts(ports: LogicalPorts) {
    0 !in ports && forall n {:trigger ports[n]} :: n in ports ==> n != 0 && !IsController(n) && ports[n].devicePortNo == n
  }

  /** The route table has recorded some of the agent's ports and holds the routes of some pairs of them. */
  ghost predicate Serves(g: Graph, ports: LogicalPorts, pairs: Pairs)
    reads g
  {
    g.Valid() && g.Exactly(pairs) && ports == g.registry && g.RootPorts.Keys <= RootsOf(ports) && AgentPorts(ports)
  }

  /** NNI n and UNI u are routed already, or recorded with the ONU attached. */
  ghost predicate Answerable(g: Graph, ports: LogicalPorts, pairs: Pairs, n: nat, u: nat)
    requires u in ports
    reads g`logicalPorts
  {
    (n, u) in pairs || (n in g.logicalPorts && u in g.logicalPorts && Attached(g.devices, g.rootDeviceID, ports[u].deviceId))
  }

  predicate IsNni(ports: LogicalPorts, n: nat) {
    n in ports && ports[n].rootPort
  }

  predicate IsUni(ports: LogicalPorts, u: nat) {
    u in ports && !ports[u].rootPort
  }

  /** r is the route downstream from n to u. */
  ghost predicate Down(g: Graph, n: nat, u: nat, r: Route) {
    Routable(g.devices, g.rootDeviceID, g.registry, n, u) && r == Downstream(g.devices, g.rootDeviceID, g.registry, n, u)
  }

  /** r is the route upstream from u to n. */
  ghost predicate Up(g: Graph, u: nat, n: nat, r: Route) {
    Routable(g.devices, g.rootDeviceID, g.registry, n, u) && r == Reverse(Downstream(g.devices, g.rootDeviceID, g.registry, n, u))
  }

  /** A downstream question is answered exactly when the route is cached or can be built from recorded ports. */
  method RouteDown(g: Graph, n: nat, u: nat, ghost ports: LogicalPorts, ghost pairs: Pairs) returns (r: Result<Route, RouteError>)
    requires Serves(g, ports, pairs) && IsNni(ports, n) && IsUni(ports, u)
    modifies g`Routes, g`devicesPonPorts, g`childConnectionPort
    ensures r.Success? <==> Answerable(g, ports, pairs, n, u)
    ensures r.Success? ==> Serves(g, ports, pairs + {(n, u)})
    ensures r.Failure? ==> Serves(g, ports, pairs)
    ensures r.Success? ==> Down(g, n, u, r.value)
  {
    CachedIff(g, ports, pairs, n, u);
    BuiltOnDemand(g, ports, pairs, n, u);
    r := g.GetRoute(n, u);
  }

  /** An upstream question is answered exactly when the route is cached or can be built from recorded ports. */
  method RouteUp(g: Graph, u: nat, n: nat, ghost ports: LogicalPorts, ghost pairs: Pairs) returns (r: Result<Route, RouteError>)
    requires Serves(g, ports, pairs) && IsNni(ports, n) && IsUni(ports, u)
    modifies g`Routes, g`devicesPonPorts, g`childConnectionPort
    ensures r.Success? <==> Answerable(g, ports, pairs, n, u)
    ensures r.Success? ==> Serves(g, ports, pairs + {(n, u)})
    ensures r.Failure? ==> Serves(g, ports, pairs)
    ensures r.Success? ==> Up(g, u, n, r.value)
  {
    CachedIff(g, ports, pairs, n, u);
    BuiltOnDemand(g, ports, pairs, n, u);
    r := g.GetRoute(u, n);
  }

  lemma CachedIff(g: Graph, ports: LogicalPorts, pairs: Pairs, n: nat, u: nat)
    requires Serves(g, ports, pairs) && IsNni(ports, n) && IsUni(ports, u)
    ensures PathId(n, u) in g.Routes <==> (n, u) in pairs
    ensures PathId(u, n) in g.Routes <==> (n, u) in pairs
    ensures (n, u) in pairs ==> Down(g, n, u, g.Routes[PathId(n, u)]) && Up(g, u, n, g.Routes[PathId(u, n)])
  {
    assert (u, n) !in pairs by {
      assert (u, n) in pairs ==> Routable(g.devices, g.rootDeviceID, ports, u, n);
    }
  }

  lemma BuiltOnDemand(g: Graph, ports: LogicalPorts, pairs: Pairs, n: nat, u: nat)
    requires Serves(g, ports, pairs) && IsNni(ports, n) && IsUni(ports, u)
    ensures (n, u) in pairs ==> pairs + {(n, u)} == pairs
    ensures Attached(g.devices, g.rootDeviceID, ports[u].deviceId) && (n, u) !in pairs ==>
      var after := OnDemand(g.devices, g.rootDeviceID, g.Routes, ports[n], ports[u]);
      && IsTable(g.devices, g.rootDeviceID, ports, pairs + {(n, u)}, after)
      && Down(g, n, u, Answer(after, n, u)) && Up(g, u, n, Answer(after, u, n))
  {
    if Attached(g.devices, g.rootDeviceID, ports[u].deviceId) && (n, u) !in pairs {
      RouteTheorems.OnDemandAgreesIff(g.devices, g.rootDeviceID, ports, pairs, g.Routes, n, u);
    }
  }

  lemma CachedRoute(g: Graph, ports: LogicalPorts, pairs: Pairs, k: PathId)
    requires Serves(g, ports, pairs) && k in g.Routes
    ensures |g.Routes[k]| == 2
    ensures if (k.ingress, k.egress) in pairs then IsNni(ports, k.ingress) && Down(g, k.ingress, k.egress, g.Routes[k])
            else (k.egress, k.ingress) in pairs && IsNni(ports, k.egress) && Up(g, k.ingress, k.egress, g.Routes[k])
  {
    assert k == PathId(k.ingress, k.egress);
  }

  /** r starts a cached route from x: the first hop of it, then an empty hop. */
  ghost predicate StartsFrom(g: Graph, pairs: Pairs, x: nat, y: nat, r: Route)
    reads g`Routes
  {
    && PathId(x, y) in g.Routes && |g.Routes[PathId(x, y)]| == 2 && r == [g.Routes[PathId(x, y)][0], EmptyHop]
    && (if (x, y) in pairs then Down(g, x, y, g.Routes[PathId(x, y)]) else (y, x) in pairs && Up(g, x, y, g.Routes[PathId(x, y)]))
  }

  /** r ends a cached upstream route into NNI n: an empty hop, then the last hop of it. */
  ghost predicate EndsAt(g: Graph, pairs: Pairs, u: nat, n: nat, r: Route)
    reads g`Routes
  {
    && (n, u) in pairs && PathId(u, n) in g.Routes && |g.Routes[PathId(u, n)]| == 2
    && Up(g, u, n, g.Routes[PathId(u, n)]) && r == [EmptyHop, g.Routes[PathId(u, n)][1]]
  }

  /** The half route from x exists exactly when x is routed with some port. */
  method HalfRouteFrom(g: Graph, x: nat, egress: nat, ghost ports: LogicalPorts, ghost pairs: Pairs) returns (r: Result<Route, RouteError>)
    requires Serves(g, ports, pairs)
    ensures r.Success? ==> exists y :: StartsFrom(g, pairs, x, y, r.value)
    ensures r.Failure? ==> forall y :: (x, y) !in pairs && (y, x) !in pairs
  {
    AllTwoHops(g, ports, pairs);
    r := g.GetHalfRoute(false, x, egress);
    if r.Success? {
      ghost var k: PathId :| k in g.Routes && IsHalfMatch(g.RootPorts.Keys, false, x, egress, k) && r.value == HalfOf(false, g.Routes[k]);
      CachedRoute(g, ports, pairs, k);
      assert k == PathId(x, k.egress) && StartsFrom(g, pairs, x, k.egress, r.value);
    } else {
      forall y: nat
        ensures (x, y) !in pairs && (y, x) !in pairs
      {
        PairIsCached(g, ports, pairs, x, y);
        assert PathId(x, y) in g.Routes ==> IsHalfMatch(g.RootPorts.Keys, false, x, egress, PathId(x, y));
      }
    }
  }

  lemma AllTwoHops(g: Graph, ports: LogicalPorts, pairs: Pairs)
    requires Serves(g, ports, pairs)
    ensures forall k :: k in g.Routes ==> |g.Routes[k]| == 2
  {
    forall k | k in g.Routes
      ensures |g.Routes[k]| == 2
    {
      CachedRoute(g, ports, pairs, k);
    }
  }

  lemma PairIsCached(g: Graph, ports: LogicalPorts, pairs: Pairs, x: nat, y: nat)
    requires Serves(g, ports, pairs)
    ensures (x, y) in pairs || (y, x) in pairs ==> PathId(x, y) in g.Routes && x != 0
  {
    assert (x, y) in pairs ==> Routable(g.devices, g.rootDeviceID, ports, x, y);
    assert (y, x) in pairs ==> Routable(g.devices, g.rootDeviceID, ports, y, x);
  }

  /** The half route into NNI n exists exactly when n is a recorded root port and is routed with some UNI. */
  method HalfRouteInto(g: Graph, n: nat, ghost ports: LogicalPorts, ghost pairs: Pairs) returns (r: Result<Route, RouteError>)
    requires Serves(g, ports, pairs) && IsNni(ports, n)
    ensures r.Success? ==> n in g.RootPorts && exists u :: EndsAt(g, pairs, u, n, r.value)
    ensures r.Failure? ==> n !in g.RootPorts || forall u :: (n, u) !in pairs
  {
    AllTwoHops(g, ports, pairs);
    r := g.GetHalfRoute(true, 0, n);
    if r.Success? {
      ghost var k: PathId :| k in g.Routes && IsHalfMatch(g.RootPorts.Keys, true, 0, n, k) && r.value == HalfOf(true, g.Routes[k]);
      CachedRoute(g, ports, pairs, k);
      assert k == PathId(k.ingress, n) && EndsAt(g, pairs, k.ingress, n, r.value);
    } else {
      forall u: nat
        ensures n !in g.RootPorts || (n, u) !in pairs
      {
        PairIsCached(g, ports, pairs, u, n);
        assert IsHalfMatch(g.RootPorts.Keys, true, 0, n, PathId(u, n)) <==> n in g.RootPorts;
      }
    }
  }

  /** getAnyNNIPort: some port of the root device. */
  method GetAnyNNIPort(root: string, ports: LogicalPorts) returns (n: Option<nat>)
    requires forall m {:trigger ports[m]} :: m in ports ==> (ports[m].rootPort <==> ports[m].deviceId == root)
    ensures n.None? <==> RootsOf(ports) == {}
    ensures n.Some? ==> IsNni(ports, n.value)
  {
    var ids := set m | m in ports && ports[m].deviceId == root;
    if ids == {} {
      assert forall m :: m in ports && ports[m].rootPort ==> m in ids;
      return None;
    }
    var portID :| portID in ids;
    assert portID in RootsOf(ports);
    n := Some(portID);
  }

  /** A trap on NNI n: with no routes at all both hops are the NNI itself, otherwise it is a half route. */
  method TrapOnNni(g: Graph, n: nat, ghost ports: LogicalPorts, ghost pairs: Pairs) returns (r: Result<Route, RouteError>)
    requires Serves(g, ports, pairs) && IsNni(ports, n)
    ensures pairs == {} ==> r == Success([Hop(g.rootDeviceID, n, n), Hop(g.rootDeviceID, n, n)])
    ensures pairs != {} && r.Success? ==> exists u :: StartsFrom(g, pairs, n, u, r.value)
    ensures pairs != {} && r.Failure? ==> forall u :: (n, u) !in pairs
  {
    EmptyTableNoPairs(g.devices, g.rootDeviceID, ports, pairs, g.Routes);
    if |g.Routes| == 0 {
      return Success([Hop(g.rootDeviceID, n, n), Hop(g.rootDeviceID, n, n)]);
    }
    r := HalfRouteFrom(g, n, 0, ports, pairs);
  }

  /** The port that a question is routed to: itself, or any NNI in place of the controller. */
  ghost predicate Stands(ports: LogicalPorts, egress: nat, to: nat) {
    if IsController(egress) then IsNni(ports, to) else to == egress
  }

  /** What an answer to a question about UNI or no ingress means, once the egress port is `to`. */
  ghost predicate Answers(g: Graph, ports: LogicalPorts, pairs: Pairs, ingress: nat, to: nat, r: Result<Route, RouteError>)
    reads g
  {
    if ingress == 0 && IsNni(ports, to) then
      && Serves(g, ports, pairs)
      && (r.Success? ==> to in g.RootPorts && exists u :: EndsAt(g, pairs, u, to, r.value))
      && (r.Failure? ==> to !in g.RootPorts || forall u :: (to, u) !in pairs)
    else if to == 0 then
      && Serves(g, ports, pairs)
      && (r.Success? ==> exists y :: StartsFrom(g, pairs, ingress, y, r.value))
      && (r.Failure? ==> forall y :: (ingress, y) !in pairs && (y, ingress) !in pairs)
    else if IsUni(ports, ingress) && IsNni(ports, to) then
      && (r.Success? <==> Answerable(g, ports, pairs, to, ingress))
      && (r.Success? ==> Up(g, ingress, to, r.value) && Serves(g, ports, pairs + {(to, ingress)}))
      && (r.Failure? ==> Serves(g, ports, pairs))
    else if IsNni(ports, ingress) && IsUni(ports, to) then
      && (r.Success? <==> Answerable(g, ports, pairs, ingress, to))
      && (r.Success? ==> Down(g, ingress, to, r.value) && Serves(g, ports, pairs + {(ingress, to)}))
      && (r.Failure? ==> Serves(g, ports, pairs))
    else if IsUni(ports, ingress) && IsUni(ports, to) then
      && (r.Success? <==> ingress in g.logicalPorts && to in g.logicalPorts && Attached(g.devices, g.rootDeviceID, ports[ingress].deviceId))
      && (r.Success? ==> g.Valid() && IsBetweenUnis(g, ports, ingress, to, r.value))
      && (r.Failure? ==> Serves(g, ports, pairs))
    else r.Failure? && Serves(g, ports, pairs)
  }

  /** What a question between two UNIs gets: a route that ends on the other ONU, entered at the OLT's PON port. */
  ghost predicate IsBetweenUnis(g: Graph, ports: LogicalPorts, x: nat, y: nat, r: Route)
    requires x in ports && y in ports
  {
    && Attached(g.devices, g.rootDeviceID, ports[x].deviceId)
    && r == [Hop(ports[x].deviceId, x, ChildPon(g.devices, g.rootDeviceID, ports[x].deviceId)),
             Hop(ports[y].deviceId, ParentPon(g.devices, g.rootDeviceID, ports[x].deviceId), y)]
  }

  /**
   LogicalAgent.GetRoute.  Over a table that holds the routes of some pairs and has recorded some ports: a
   question between an NNI and a UNI gets the specified full route exactly when it is cached or can be built, a
   question with one port missing gets half of a cached route if there is one, the controller is reached as
   some NNI would be, and a question between two UNIs gets a route that makes no sense.
   */
  method GetRoute(g: Graph, ports: LogicalPorts, ingress: nat, egress: nat, ghost pairs: Pairs)
    returns (r: Result<Route, RouteError>, ghost to: nat)
    requires Serves(g, ports, pairs)
    modifies g`Routes, g`devicesPonPorts, g`childConnectionPort
    ensures IsController(egress) && IsNni(ports, ingress) ==>
      && Serves(g, ports, pairs)
      && (pairs == {} ==> r == Success([Hop(g.rootDeviceID, ingress, ingress), Hop(g.rootDeviceID, ingress, ingress)]))
      && (pairs != {} && r.Success? ==> exists u :: StartsFrom(g, pairs, ingress, u, r.value))
      && (pairs != {} && r.Failure? ==> forall u :: (ingress, u) !in pairs)
    ensures IsController(egress) && !IsNni(ports, ingress) && RootsOf(ports) == {} ==> r.Failure? && Serves(g, ports, pairs)
    ensures !(IsController(egress) && (IsNni(ports, ingress) || RootsOf(ports) == {})) ==>
      Stands(ports, egress, to) && Answers(g, ports, pairs, ingress, to, r)
  {
    to := egress;
    if IsController(egress) {
      if ingress in ports && ports[ingress].rootPort {
        r := TrapOnNni(g, ingress, ports, pairs);
        return;
      }
      var nni := GetAnyNNIPort(g.rootDeviceID, ports);
      if nni.None? {
        return Failure(NoRoute), to;
      }
      to := nni.value;
      r := RouteTo(g, ports, ingress, nni.value, pairs);
      return;
    }
    r := RouteTo(g, ports, ingress, egress, pairs);
  }

  method RouteTo(g: Graph, ports: LogicalPorts, ingress: nat, egress: nat, ghost pairs: Pairs) returns (r: Result<Route, RouteError>)
    requires Serves(g, ports, pairs)
    modifies g`Routes, g`devicesPonPorts, g`childConnectionPort
    ensures Answers(g, ports, pairs, ingress, egress, r)
  {
    if ingress == 0 && egress in ports && ports[egress].rootPort {
      r := HalfRouteInto(g, egress, ports, pairs);
    } else if egress == 0 {
      r := HalfRouteFrom(g, ingress, egress, ports, pairs);
    } else {
      r := FullRoute(g, ports, ingress, egress, pairs);
    }
  }

  method FullRoute(g: Graph, ports: LogicalPorts, ingress: nat, egress: nat, ghost pairs: Pairs) returns (r: Result<Route, RouteError>)
    requires Serves(g, ports, pairs)
    requires !(ingress == 0 && IsNni(ports, egress)) && egress != 0
    modifies g`Routes, g`devicesPonPorts, g`childConnectionPort
    ensures Answers(g, ports, pairs, ingress, egress, r)
  {
    if IsUni(ports, ingress) && IsNni(ports, egress) {
      r := RouteUp(g, ingress, egress, ports, pairs);
    } else if IsNni(ports, ingress) && IsUni(ports, egress) {
      r := RouteDown(g, ingress, egress, ports, pairs);
    } else {
      r := UnroutedPair(g, ports, ingress, egress, pairs);
    }
  }

  /** Two UNIs, two NNIs or unknown ports. */
  method UnroutedPair(g: Graph, ghost ports: LogicalPorts, ingress: nat, egress: nat, ghost pairs: Pairs) returns (r: Result<Route, RouteError>)
    requires Serves(g, ports, pairs) && egress != 0 && !(ingress == 0 && IsNni(ports, egress))
    requires !(IsUni(ports, ingress) && IsNni(ports, egress)) && !(IsNni(ports, ingress) && IsUni(ports, egress))
    modifies g`Routes, g`devicesPonPorts, g`childConnectionPort
    ensures Answers(g, ports, pairs, ingress, egress, r)
  {
    NotRouted(g, ports, pairs, ingress, egress);
    r := g.GetRoute(ingress, egress);
  }

  lemma NotRouted(g: Graph, ports: LogicalPorts, pairs: Pairs, ingress: nat, egress: nat)
    requires Serves(g, ports, pairs)
    requires !(IsUni(ports, ingress) && IsNni(ports, egress)) && !(IsNni(ports, ingress) && IsUni(ports, egress))
    ensures PathId(ingress, egress) !in g.Routes
    ensures IsNni(ports, egress) ==> !Attached(g.devices, g.rootDeviceID, ports[egress].deviceId)
  {
    if PathId(ingress, egress) in g.Routes {
      CachedRoute(g, ports, pairs, PathId(ingress, egress));
      assert false;
    }
    if IsNni(ports, egress) {
      assert ports[egress].deviceId == g.rootDeviceID;
    }
  }

  /** A table of specified routes has none between two UNIs, so caching one spoils it. */
  lemma NoRouteBetweenUnis(devices: Devices, root: string, ports: LogicalPorts, pairs: Pairs, routes: Table, x: nat, y: nat)
    requires IsUni(ports, x) && IsUni(ports, y) && IsTable(devices, root, ports, pairs, routes)
    ensures PathId(x, y) !in routes
  {
    assert (x, y) in pairs ==> Routable(devices, root, ports, x, y);
    assert (y, x) in pairs ==> Routable(devices, root, ports, y, x);
  }
}
