/** What the ways of building routes have in common: any order, in bulk and on demand give one table. */
module RouteTheorems {
  import opened Prelude
  import opened PonTopology
  import opened RouteSpec
  import opened DeviceRoutes
  import RouteCounting

  // ---------------------------------------------------------------------------------------------
  // Any order

  /** One call of AddPort: the port, and the logical ports that were listed for the call. */
  datatype Call = Call(lp: LogicalPort, lps: LogicalPorts)

  ghost function PairsOfCalls(devices: Devices, root: string, calls: seq<Call>): Pairs {
    if calls == [] then {}
    else PairsOfCalls(devices, root, calls[..|calls| - 1])
         + PairsOfPort(devices, root, calls[|calls| - 1].lps, calls[|calls| - 1].lp)
  }

  /** Every call is about ports of `all`. */
  ghost predicate CallsOver(calls: seq<Call>, all: LogicalPorts) {
    forall i :: 0 <= i < |calls| ==> PartOf(calls[i].lps, all) && calls[i].lp.portNo in all && all[calls[i].lp.portNo] == calls[i].lp
  }

  /** Call c is about one port of the pair and saw the other. */
  ghost predicate Connects(c: Call, n: nat, u: nat) {
    (c.lp.portNo == n && u in c.lps) || (c.lp.portNo == u && n in c.lps)
  }

  ghost predicate Met(calls: seq<Call>, n: nat, u: nat) {
    exists i :: 0 <= i < |calls| && Connects(calls[i], n, u)
  }

  /** Exactly the routable pairs that some call connected are contributed. */
  lemma {:induction false} PairsOfCallsAre(devices: Devices, root: string, all: LogicalPorts, calls: seq<Call>, n: nat, u: nat)
    requires Registered(devices, root, all) && CallsOver(calls, all)
    ensures (n, u) in PairsOfCalls(devices, root, calls) <==> Routable(devices, root, all, n, u) && Met(calls, n, u)
  {
    if calls != [] {
      var front, c := calls[..|calls| - 1], calls[|calls| - 1];
      PairsOfCallsAre(devices, root, all, front, n, u);
      PairsOfPortAre(devices, root, all, c, n, u);
      MetInFront(calls, n, u);
    }
  }

  lemma MetInFront(calls: seq<Call>, n: nat, u: nat)
    requires calls != []
    ensures Met(calls, n, u) <==> Met(calls[..|calls| - 1], n, u) || Connects(calls[|calls| - 1], n, u)
  {
    var front := calls[..|calls| - 1];
    if Met(front, n, u) {
      var i :| 0 <= i < |front| && Connects(front[i], n, u);
      assert calls[i] == front[i];
    }
    if Met(calls, n, u) && !Connects(calls[|calls| - 1], n, u) {
      var i :| 0 <= i < |calls| && Connects(calls[i], n, u);
      assert front[i] == calls[i];
    }
  }

  lemma PairsOfPortAre(devices: Devices, root: string, all: LogicalPorts, c: Call, n: nat, u: nat)
    requires Registered(devices, root, all) && PartOf(c.lps, all) && c.lp.portNo in all && all[c.lp.portNo] == c.lp
    ensures (n, u) in PairsOfPort(devices, root, c.lps, c.lp) <==> Routable(devices, root, all, n, u) && Connects(c, n, u)
  {
    if c.lp.rootPort {
      if u in c.lps {
        assert c.lps[u] == all[u];
      }
    } else if n in c.lps {
      assert c.lps[n] == all[n];
    }
  }

  /** The incremental build gives the whole table exactly when no routable pair missed each other. */
  lemma AnyOrderBuildsAllPairs(devices: Devices, root: string, all: LogicalPorts, calls: seq<Call>)
    requires Registered(devices, root, all) && CallsOver(calls, all)
    ensures PairsOfCalls(devices, root, calls) == AllPairs(devices, root, all)
            <==> forall n: nat, u: nat :: Routable(devices, root, all, n, u) ==> Met(calls, n, u)
  {
    forall n: nat, u: nat
      ensures (n, u) in PairsOfCalls(devices, root, calls) <==> Routable(devices, root, all, n, u) && Met(calls, n, u)
      ensures (n, u) in AllPairs(devices, root, all) <==> Routable(devices, root, all, n, u)
    {
      PairsOfCallsAre(devices, root, all, calls, n, u);
    }
    if forall n: nat, u: nat :: Routable(devices, root, all, n, u) ==> Met(calls, n, u) {
      forall p: (nat, nat)
        ensures p in PairsOfCalls(devices, root, calls) <==> p in AllPairs(devices, root, all)
      {
        assert p == (p.0, p.1);
      }
    } else {
      var n: nat, u: nat :| Routable(devices, root, all, n, u) && !Met(calls, n, u);
      assert (n, u) in AllPairs(devices, root, all) && (n, u) !in PairsOfCalls(devices, root, calls);
    }
  }

  /** Every port was added, and each addition saw the port itself and the ports added before it. */
  ghost predicate AddedOneByOne(calls: seq<Call>, all: LogicalPorts) {
    && (forall x :: x in all ==> exists i :: 0 <= i < |calls| && calls[i].lp.portNo == x)
    && (forall i, j :: 0 <= i <= j < |calls| ==> calls[i].lp.portNo in calls[j].lps)
  }

  lemma OneByOneMeets(calls: seq<Call>, all: LogicalPorts, n: nat, u: nat)
    requires AddedOneByOne(calls, all) && n in all && u in all
    ensures Met(calls, n, u)
  {
    var i :| 0 <= i < |calls| && calls[i].lp.portNo == n;
    var j :| 0 <= j < |calls| && calls[j].lp.portNo == u;
    assert Connects(calls[if i <= j then j else i], n, u);
  }

  /** AddPort, call after call, in whatever order the calls come. */
  method AddPorts(g: Graph, calls: seq<Call>)
    requires g.Valid() && g.Exactly({}) && CallsOver(calls, g.registry)
    requires forall i :: 0 <= i < |calls| ==> calls[i].lp.deviceId in g.devices
    modifies g
    ensures g.Valid() && g.Exactly(PairsOfCalls(g.devices, g.rootDeviceID, calls))
  {
    ghost var stored: Pairs := {};
    for i := 0 to |calls|
      invariant g.Valid() && stored == PairsOfCalls(g.devices, g.rootDeviceID, calls[..i]) && g.Exactly(stored)
    {
      var c := calls[i];
      assert g.Passed(c.lps);
      var r := g.AddPort(c.lp, c.lp.deviceId, g.devices[c.lp.deviceId], c.lps, stored);
      stored := stored + PairsOfPort(g.devices, g.rootDeviceID, c.lps, c.lp);
      PairsOfCallsGrow(g.devices, g.rootDeviceID, calls, i);
    }
    assert calls[..|calls|] == calls;
  }

  lemma PairsOfCallsGrow(devices: Devices, root: string, calls: seq<Call>, i: nat)
    requires i < |calls|
    ensures PairsOfCalls(devices, root, calls[..i + 1]) ==
            PairsOfCalls(devices, root, calls[..i]) + PairsOfPort(devices, root, calls[i].lps, calls[i].lp)
  {
    assert calls[..i + 1][..i] == calls[..i];
  }

  /** Adding all ports one by one, in any order and with any number of NNIs, builds the specified table. */
  method AddPortsOneByOne(g: Graph, calls: seq<Call>)
    requires g.Valid() && g.Exactly({}) && CallsOver(calls, g.registry) && AddedOneByOne(calls, g.registry)
    requires forall i :: 0 <= i < |calls| ==> calls[i].lp.deviceId in g.devices
    modifies g
    ensures g.Valid() && g.Exactly(AllPairs(g.devices, g.rootDeviceID, g.registry))
  {
    AddPorts(g, calls);
    forall n, u | Routable(g.devices, g.rootDeviceID, g.registry, n, u)
      ensures Met(calls, n, u)
    {
      OneByOneMeets(calls, g.registry, n, u);
    }
    AnyOrderBuildsAllPairs(g.devices, g.rootDeviceID, g.registry, calls);
  }

  // ---------------------------------------------------------------------------------------------
  // In bulk

  /**
   What ComputeRoutes connects is every pair exactly when there are at most two NNIs or there is nothing to
   connect: of three or more NNIs, two get routes.
   */
  lemma BulkIsCompleteIff(devices: Devices, root: string, all: LogicalPorts, chosen: set<nat>)
    requires chosen <= RootsOf(all) && |chosen| == if |RootsOf(all)| < 2 then |RootsOf(all)| else 2
    ensures BulkPairs(devices, root, all, chosen) == AllPairs(devices, root, all)
            <==> |RootsOf(all)| <= 2 || forall u :: u in all && !all[u].rootPort ==> !Attached(devices, root, all[u].deviceId)
  {
    var bulk, every := BulkPairs(devices, root, all, chosen), AllPairs(devices, root, all);
    if |RootsOf(all)| <= 2 {
      RouteCounting.SubsetCount(chosen, RootsOf(all));
      BulkOfRoots(devices, root, all);
    } else if u :| u in all && !all[u].rootPort && Attached(devices, root, all[u].deviceId) {
      assert chosen != RootsOf(all);
      var n :| n in RootsOf(all) && n !in chosen;
      assert (n, u) !in bulk && Routable(devices, root, all, n, u);
      assert (n, u) in every;
    } else {
      assert forall p :: p !in every;
      assert forall p :: p !in bulk;
    }
  }

  lemma BulkOfRoots(devices: Devices, root: string, all: LogicalPorts)
    ensures BulkPairs(devices, root, all, RootsOf(all)) == AllPairs(devices, root, all)
  {
    assert forall n, u :: n in RootsOf(all) && u in all && !all[u].rootPort && Attached(devices, root, all[u].deviceId)
                          <==> Routable(devices, root, all, n, u);
  }

  /**
   With one or two NNIs, adding the ports one by one in any order to one graph and computing all routes of
   another end in the same table.
   */
  method BulkEqualsIncremental(bulk: Graph, incremental: Graph, lps: LogicalPorts, calls: seq<Call>) returns (r: Result<(), RouteError>)
    requires bulk != incremental && bulk.Valid() && incremental.Valid() && incremental.Exactly({})
    requires bulk.devices == incremental.devices && bulk.rootDeviceID == incremental.rootDeviceID
    requires lps == bulk.registry == incremental.registry && |lps| >= 2 && 1 <= |RootsOf(lps)| <= 2
    requires bulk.rootDeviceID in bulk.devices && bulk.devices[bulk.rootDeviceID] != map[]
    requires CallsOver(calls, lps) && AddedOneByOne(calls, lps)
    requires forall i :: 0 <= i < |calls| ==> calls[i].lp.deviceId in bulk.devices
    modifies bulk, incremental
    ensures r.Success? && bulk.Valid() && incremental.Valid() && bulk.Routes == incremental.Routes
  {
    AddPortsOneByOne(incremental, calls);
    r := ComputeSame(bulk, lps, incremental);
  }

  method ComputeSame(bulk: Graph, lps: LogicalPorts, ghost incremental: Graph) returns (r: Result<(), RouteError>)
    requires bulk != incremental && bulk.Valid() && incremental.Valid()
    requires bulk.devices == incremental.devices && bulk.rootDeviceID == incremental.rootDeviceID && bulk.registry == incremental.registry
    requires lps == bulk.registry && |lps| >= 2 && 1 <= |RootsOf(lps)| <= 2
    requires bulk.rootDeviceID in bulk.devices && bulk.devices[bulk.rootDeviceID] != map[]
    requires incremental.Exactly(AllPairs(bulk.devices, bulk.rootDeviceID, lps))
    modifies bulk
    ensures r.Success? && bulk.Valid() && bulk.Routes == incremental.Routes
  {
    ghost var chosen;
    assert bulk.Passed(lps);
    r, chosen := bulk.ComputeRoutes(lps);
    BulkIsCompleteIff(bulk.devices, bulk.rootDeviceID, lps, chosen);
    TableIsUnique(bulk.devices, bulk.rootDeviceID, lps, AllPairs(bulk.devices, bulk.rootDeviceID, lps),
                  bulk.Routes, incremental.Routes);
  }

  /**
   isUpToDate, whatever root ports are recorded: it compares the number of pairs with what the recorded root
   ports call for.  If they are all the NNIs, it holds exactly when every port is recorded and every NNI is
   routed with every UNI.  If none is recorded, as after AddUNIPort alone, any route makes it false.
   */
  method CheckUpToDate(g: Graph, lps: LogicalPorts, ghost pairs: Pairs) returns (b: bool)
    requires g.Valid() && g.Exactly(pairs) && lps == g.registry
    ensures b <==> g.logicalPorts == lps && |pairs| == |g.RootPorts| * (|lps| - |g.RootPorts|)
    ensures g.RootPorts.Keys == RootsOf(lps) ==>
      (b <==> g.logicalPorts == lps && forall n, u :: n in RootsOf(lps) && u in RouteCounting.UnisOf(lps) ==> (n, u) in pairs)
    ensures g.RootPorts == map[] ==> (b <==> g.logicalPorts == lps && pairs == {})
  {
    b := g.IsUpToDate(Some(lps));
    RouteCounting.CountsMean(g.devices, g.rootDeviceID, lps, pairs, g.Routes, g.logicalPorts, g.RootPorts);
    if g.RootPorts.Keys == RootsOf(lps) {
      RouteCounting.UpToDateIsExact(g.devices, g.rootDeviceID, lps, pairs, g.Routes, g.logicalPorts, g.RootPorts);
    }
  }

  // ---------------------------------------------------------------------------------------------
  // On demand

  /**
   A missing route that is built on demand is the specified one, and extends the table by its pair, exactly
   when the UNI's device port number is its logical port number; otherwise the answer is the empty route.
   */
  lemma OnDemandAgreesIff(devices: Devices, root: string, ports: LogicalPorts, pairs: Pairs, routes: Table, n: nat, u: nat)
    requires Registered(devices, root, ports) && IsTable(devices, root, ports, pairs, routes)
    requires Routable(devices, root, ports, n, u) && (n, u) !in pairs
    ensures var after := OnDemand(devices, root, routes, ports[n], ports[u]);
            var down := Downstream(devices, root, ports, n, u);
            var same := ports[u].devicePortNo == u;
            && (IsTable(devices, root, ports, pairs + {(n, u)}, after) <==> same)
            && Answer(after, n, u) == (if same then down else [])
            && Answer(after, u, n) == (if same then Reverse(down) else [])
  {
    var after, down := OnDemand(devices, root, routes, ports[n], ports[u]), Downstream(devices, root, ports, n, u);
    assert ports[n].portNo == n && n != u;
    assert PathId(n, u) !in routes && PathId(u, n) !in routes by {
      assert (u, n) in pairs ==> Routable(devices, root, ports, u, n);
    }
    if ports[u].devicePortNo == u {
      StorePair(devices, root, ports, pairs, routes, n, u);
    } else {
      assert PathId(n, u) !in after && PathId(u, n) !in after;
      assert (n, u) in pairs + {(n, u)};
    }
  }

  /** addUNILogicalPort and addNNILogicalPort number a logical port as its device port. */
  function LogicalPortOf(port: Port, deviceId: string, rootPort: bool): (lp: LogicalPort) {
    LogicalPort(port.portNo, deviceId, port.portNo, rootPort)
  }

  /** So for the ports the logical agent creates, routes on demand and eager routes agree. */
  lemma OnDemandAgreesForAgentPorts(devices: Devices, root: string, ports: LogicalPorts, pairs: Pairs, routes: Table,
                                    n: nat, u: nat, port: Port)
    requires Registered(devices, root, ports) && IsTable(devices, root, ports, pairs, routes)
    requires Routable(devices, root, ports, n, u) && (n, u) !in pairs
    requires ports[u] == LogicalPortOf(port, ports[u].deviceId, false)
    ensures var after := OnDemand(devices, root, routes, ports[n], ports[u]);
            && IsTable(devices, root, ports, pairs + {(n, u)}, after)
            && Answer(after, n, u) == Downstream(devices, root, ports, n, u)
            && Answer(after, u, n) == Reverse(Downstream(devices, root, ports, n, u))
  {
    OnDemandAgreesIff(devices, root, ports, pairs, routes, n, u);
  }

  /** From a UNI, every route starts with the same hop, so GetHalfRoute does not depend on iteration order. */
  lemma UniHalfRouteIsUnique(devices: Devices, root: string, ports: LogicalPorts, pairs: Pairs, routes: Table,
                             roots: set<nat>, u: nat, k: PathId)
    requires IsTable(devices, root, ports, pairs, routes)
    requires u in ports && !ports[u].rootPort
    requires k in routes && IsHalfMatch(roots, false, u, 0, k)
    ensures Attached(devices, root, ports[u].deviceId)
    ensures |routes[k]| == 2
    ensures HalfOf(false, routes[k]) ==
            [Hop(ports[u].deviceId, ports[u].devicePortNo, ChildPon(devices, root, ports[u].deviceId)), EmptyHop]
  {
    assert (k.ingress, k.egress) !in pairs by {
      assert (k.ingress, k.egress) in pairs ==> Routable(devices, root, ports, k.ingress, k.egress);
    }
    assert (k.egress, k.ingress) in pairs && k == PathId(k.ingress, k.egress);
  }

  /** From an NNI, the half route is independent of iteration order exactly when all its UNIs share a PON port. */
  lemma NniHalfRouteIsUniqueIff(devices: Devices, root: string, ports: LogicalPorts, pairs: Pairs, routes: Table,
                                roots: set<nat>, n: nat)
    requires IsTable(devices, root, ports, pairs, routes)
    requires n in ports && ports[n].rootPort && n != 0
    requires forall k :: k in routes ==> |routes[k]| == 2
    ensures (forall k1, k2 :: k1 in routes && k2 in routes && IsHalfMatch(roots, false, n, 0, k1) && IsHalfMatch(roots, false, n, 0, k2)
                              ==> HalfOf(false, routes[k1]) == HalfOf(false, routes[k2]))
            <==> (forall u1, u2 :: (n, u1) in pairs && (n, u2) in pairs ==>
                    Routable(devices, root, ports, n, u1) && Routable(devices, root, ports, n, u2)
                    && ParentPon(devices, root, ports[u1].deviceId) == ParentPon(devices, root, ports[u2].deviceId))
  {
    forall k | k in routes && IsHalfMatch(roots, false, n, 0, k)
      ensures NniHalf(devices, root, ports, pairs, routes, n, k)
    {
      assert (k.egress, k.ingress) !in pairs by {
        assert (k.egress, k.ingress) in pairs ==> Routable(devices, root, ports, k.egress, k.ingress);
      }
      assert (k.ingress, k.egress) in pairs && k == PathId(k.ingress, k.egress);
    }
    forall u | (n, u) in pairs
      ensures PathId(n, u) in routes && IsHalfMatch(roots, false, n, 0, PathId(n, u))
    {
    }
  }

  /** The half route that k gives from NNI n. */
  ghost predicate NniHalf(devices: Devices, root: string, ports: LogicalPorts, pairs: Pairs, routes: Table, n: nat, k: PathId)
    requires k in routes && |routes[k]| == 2
  {
    && (n, k.egress) in pairs
    && Routable(devices, root, ports, n, k.egress)
    && HalfOf(false, routes[k]) ==
       [Hop(ports[n].deviceId, ports[n].devicePortNo, ParentPon(devices, root, ports[k.egress].deviceId)), EmptyHop]
  }
}
