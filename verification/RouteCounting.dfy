/** Why counting routes tells whether every pair of an NNI and a UNI is routed. */
module RouteCounting {
  import opened PonTopology
  import opened RouteSpec

  /** The keys from a port of `a` to a port of `b`. */
  ghost function Links(a: set<nat>, b: set<nat>): (ks: set<PathId>) {
    set x, y | x in a && y in b :: PathId(x, y)
  }

  ghost function LinksFrom(x: nat, b: set<nat>): set<PathId> {
    set y | y in b :: PathId(x, y)
  }

  lemma {:induction false} LinksFromCount(x: nat, b: set<nat>)
    ensures |LinksFrom(x, b)| == |b|
  {
    if y :| y in b {
      LinksFromCount(x, b - {y});
      assert LinksFrom(x, b) == LinksFrom(x, b - {y}) + {PathId(x, y)};
    } else {
      assert LinksFrom(x, b) == {};
    }
  }

  lemma LinksSplit(a: set<nat>, x: nat, b: set<nat>)
    requires x in a
    ensures |Links(a, b)| == |Links(a - {x}, b)| + |LinksFrom(x, b)|
  {
    assert Links(a, b) == Links(a - {x}, b) + LinksFrom(x, b);
    assert Links(a - {x}, b) !! LinksFrom(x, b);
  }

  lemma {:induction false} LinksCount(a: set<nat>, b: set<nat>)
    ensures |Links(a, b)| == |a| * |b|
  {
    if x :| x in a {
      LinksCount(a - {x}, b);
      LinksSplit(a, x, b);
      LinksFromCount(x, b);
      var m, n := |a - {x}|, |b|;
      assert |a| == m + 1;
      assert (m + 1) * n == m * n + n;
    } else {
      assert Links(a, b) == {};
    }
  }

  lemma {:induction false} SubsetCount<T>(s: set<T>, t: set<T>)
    requires s <= t
    ensures |s| <= |t| && (|s| == |t| <==> s == t)
  {
    if x :| x in s {
      SubsetCount(s - {x}, t - {x});
      assert s == (s - {x}) + {x} && t == (t - {x}) + {x};
    } else if x :| x in t {
      assert |t| == |t - {x}| + 1;
    }
  }

  /** The keys of a complete table over disjoint NNIs and UNIs. */
  ghost function BothWays(nnis: set<nat>, unis: set<nat>): set<PathId> {
    Links(nnis, unis) + Links(unis, nnis)
  }

  lemma BothWaysCount(nnis: set<nat>, unis: set<nat>)
    requires nnis !! unis
    ensures |BothWays(nnis, unis)| == |nnis| * |unis| * 2
  {
    LinksCount(nnis, unis);
    LinksCount(unis, nnis);
    assert Links(nnis, unis) !! Links(unis, nnis);
  }

  /** The count is right exactly when every pair has a route both ways. */
  lemma CountIsExact(routes: Table, nnis: set<nat>, unis: set<nat>)
    requires nnis !! unis && routes.Keys <= BothWays(nnis, unis)
    ensures |routes| == |nnis| * |unis| * 2
            <==> forall n, u :: n in nnis && u in unis ==> PathId(n, u) in routes && PathId(u, n) in routes
  {
    BothWaysCount(nnis, unis);
    SubsetCount(routes.Keys, BothWays(nnis, unis));
    assert |routes| == |routes.Keys|;
    if forall n, u :: n in nnis && u in unis ==> PathId(n, u) in routes && PathId(u, n) in routes {
      forall k | k in BothWays(nnis, unis)
        ensures k in routes
      {
        assert k == PathId(k.ingress, k.egress);
      }
      assert routes.Keys == BothWays(nnis, unis);
    } else {
      var n, u :| n in nnis && u in unis && !(PathId(n, u) in routes && PathId(u, n) in routes);
      assert PathId(n, u) in BothWays(nnis, unis) && PathId(u, n) in BothWays(nnis, unis);
    }
  }

  ghost function UnisOf(lps: LogicalPorts): set<nat> {
    set u | u in lps && !lps[u].rootPort
  }

  lemma PortsCount(lps: LogicalPorts)
    ensures |lps| == |RootsOf(lps)| + |UnisOf(lps)|
  {
    assert lps.Keys == RootsOf(lps) + UnisOf(lps);
    assert RootsOf(lps) !! UnisOf(lps);
    assert |lps| == |lps.Keys|;
  }

  lemma KeysBothWays(devices: Devices, root: string, ports: LogicalPorts, pairs: Pairs, routes: Table)
    requires IsTable(devices, root, ports, pairs, routes)
    ensures routes.Keys <= BothWays(RootsOf(ports), UnisOf(ports))
  {
    forall k | k in routes
      ensures k in BothWays(RootsOf(ports), UnisOf(ports))
    {
      assert k == PathId(k.ingress, k.egress);
      if (k.ingress, k.egress) in pairs {
        assert Routable(devices, root, ports, k.ingress, k.egress);
      } else {
        assert Routable(devices, root, ports, k.egress, k.ingress);
      }
    }
  }

  lemma PairIsRouted(devices: Devices, root: string, ports: LogicalPorts, pairs: Pairs, routes: Table, n: nat, u: nat)
    requires IsTable(devices, root, ports, pairs, routes) && n in RootsOf(ports) && u in UnisOf(ports)
    ensures (n, u) in pairs <==> PathId(n, u) in routes && PathId(u, n) in routes
  {
    assert (u, n) !in pairs by {
      assert (u, n) in pairs ==> Routable(devices, root, ports, u, n);
    }
  }

  /** The numbers that isUpToDate compares. */
  ghost predicate Counts(recorded: nat, ports: nat, routes: nat, roots: nat) {
    recorded == ports && routes == roots * (ports - roots) * 2
  }

  /**
   What isUpToDate counts, over a table of specified routes that recorded the root ports of `ports` and some
   of its logical ports: the counts agree exactly when all ports are recorded and every NNI is routed with
   every UNI.
   */
  lemma UpToDateIsExact(devices: Devices, root: string, ports: LogicalPorts, pairs: Pairs, routes: Table,
                        recorded: LogicalPorts, roots: map<nat, nat>)
    requires IsTable(devices, root, ports, pairs, routes) && PartOf(recorded, ports) && roots.Keys == RootsOf(ports)
    ensures Counts(|recorded|, |ports|, |routes|, |roots|)
            <==> recorded == ports && forall n, u :: n in RootsOf(ports) && u in UnisOf(ports) ==> (n, u) in pairs
  {
    PortsCount(ports);
    assert |roots| == |roots.Keys|;
    KeysBothWays(devices, root, ports, pairs, routes);
    CountIsExact(routes, RootsOf(ports), UnisOf(ports));
    SameCountSamePorts(recorded, ports);
    forall n, u | n in RootsOf(ports) && u in UnisOf(ports)
      ensures (n, u) in pairs <==> PathId(n, u) in routes && PathId(u, n) in routes
    {
      PairIsRouted(devices, root, ports, pairs, routes, n, u);
    }
  }

  lemma SameCountSamePorts(a: LogicalPorts, b: LogicalPorts)
    requires PartOf(a, b)
    ensures |a| == |b| <==> a == b
  {
    assert |a| == |a.Keys| && |b| == |b.Keys|;
    forall n | n in a.Keys
      ensures n in b.Keys
    {
      assert a[n] == b[n];
    }
    SubsetCount(a.Keys, b.Keys);
  }

  ghost function Forward(pairs: Pairs): set<PathId> {
    set p | p in pairs :: PathId(p.0, p.1)
  }

  ghost function Backward(pairs: Pairs): set<PathId> {
    set p | p in pairs :: PathId(p.1, p.0)
  }

  lemma {:induction false} ForwardCount(pairs: Pairs)
    ensures |Forward(pairs)| == |pairs|
  {
    if p :| p in pairs {
      var rest := pairs - {p};
      ForwardCount(rest);
      assert Forward(pairs) == Forward(rest) + {PathId(p.0, p.1)};
      assert PathId(p.0, p.1) !in Forward(rest) by {
        assert forall q :: q in rest ==> q == (q.0, q.1);
      }
    } else {
      assert Forward(pairs) == {};
    }
  }

  lemma {:induction false} BackwardCount(pairs: Pairs)
    ensures |Backward(pairs)| == |pairs|
  {
    if p :| p in pairs {
      var rest := pairs - {p};
      BackwardCount(rest);
      assert Backward(pairs) == Backward(rest) + {PathId(p.1, p.0)};
      assert PathId(p.1, p.0) !in Backward(rest) by {
        assert forall q :: q in rest ==> q == (q.0, q.1);
      }
    } else {
      assert Backward(pairs) == {};
    }
  }

  lemma InForward(pairs: Pairs, k: PathId)
    ensures k in Forward(pairs) <==> (k.ingress, k.egress) in pairs
    ensures k in Backward(pairs) <==> (k.egress, k.ingress) in pairs
  {
    var p, q := (k.ingress, k.egress), (k.egress, k.ingress);
    assert k == PathId(p.0, p.1) && k == PathId(q.1, q.0);
  }

  lemma KeysAreBoth(devices: Devices, root: string, ports: LogicalPorts, pairs: Pairs, routes: Table)
    requires IsTable(devices, root, ports, pairs, routes)
    ensures routes.Keys == Forward(pairs) + Backward(pairs)
  {
    forall k: PathId
      ensures k in routes.Keys <==> k in Forward(pairs) + Backward(pairs)
    {
      InForward(pairs, k);
    }
  }

  lemma NoneIsBoth(devices: Devices, root: string, ports: LogicalPorts, pairs: Pairs)
    requires PairsRoutable(devices, root, ports, pairs)
    ensures Forward(pairs) !! Backward(pairs)
  {
    forall k | k in Forward(pairs)
      ensures k !in Backward(pairs)
    {
      InForward(pairs, k);
      assert Routable(devices, root, ports, k.ingress, k.egress);
      assert (k.egress, k.ingress) in pairs ==> Routable(devices, root, ports, k.egress, k.ingress);
    }
  }

  /** A table of specified routes has two keys for every pair. */
  lemma TwoRoutesPerPair(devices: Devices, root: string, ports: LogicalPorts, pairs: Pairs, routes: Table)
    requires IsTable(devices, root, ports, pairs, routes)
    ensures |routes| == 2 * |pairs|
  {
    ForwardCount(pairs);
    BackwardCount(pairs);
    KeysAreBoth(devices, root, ports, pairs, routes);
    NoneIsBoth(devices, root, ports, pairs);
    assert |routes| == |routes.Keys|;
  }

  /** The counts agree exactly when all ports are recorded and there are as many pairs as the recorded root ports call for. */
  lemma CountsMean(devices: Devices, root: string, ports: LogicalPorts, pairs: Pairs, routes: Table,
                   recorded: LogicalPorts, roots: map<nat, nat>)
    requires IsTable(devices, root, ports, pairs, routes) && PartOf(recorded, ports)
    ensures Counts(|recorded|, |ports|, |routes|, |roots|)
            <==> recorded == ports && |pairs| == |roots| * (|ports| - |roots|)
  {
    SameCountSamePorts(recorded, ports);
    TwoRoutesPerPair(devices, root, ports, pairs, routes);
  }
}
