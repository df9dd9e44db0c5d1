/**
 What the route table should hold: for a set of (NNI, UNI) pairs, one two-hop route in each direction,
 joined at the PON ports that link the ONU to the OLT.
 */
module RouteSpec {
  import opened PonTopology
  import opened PortKey

  datatype Hop = Hop(deviceId: string, ingress: nat, egress: nat)

  datatype PathId = PathId(ingress: nat, egress: nat)

  type Route = seq<Hop>

  type Table = map<PathId, Route>

  type Pairs = set<(nat, nat)>

  /** The route backwards: hops in reverse order, each crossed the other way. */
  function Reverse(route: Route): (r: Route)
    ensures |r| == |route|
    ensures forall i :: 0 <= i < |r| ==> r[i] == Back(route[|r| - 1 - i])
  {
    seq(|route|, i requires 0 <= i < |route| => Back(route[|route| - 1 - i]))
  }

  /** A hop crossed the other way. */
  function Back(hop: Hop): Hop {
    Hop(hop.deviceId, hop.egress, hop.ingress)
  }

  lemma ReverseIsInvolution(route: Route)
    ensures Reverse(Reverse(route)) == route
  {
    forall i | 0 <= i < |route|
      ensures Reverse(Reverse(route))[i] == route[i]
    {
      assert Reverse(Reverse(route))[i] == Back(Reverse(route)[|route| - 1 - i]);
      assert Reverse(route)[|route| - 1 - i] == Back(route[i]);
    }
  }

  /** The two hops from an NNI to a UNI through given PON ports. */
  function DownstreamVia(nni: LogicalPort, uni: LogicalPort, parentPon: nat, childPon: nat): Route {
    [Hop(nni.deviceId, nni.devicePortNo, parentPon), Hop(uni.deviceId, childPon, uni.devicePortNo)]
  }

  ghost predicate Routable(devices: Devices, root: string, ports: LogicalPorts, n: nat, u: nat) {
    && n in ports && u in ports
    && ports[n].rootPort && !ports[u].rootPort
    && Attached(devices, root, ports[u].deviceId)
  }

  ghost function Downstream(devices: Devices, root: string, ports: LogicalPorts, n: nat, u: nat): Route
    requires Routable(devices, root, ports, n, u)
  {
    DownstreamVia(ports[n], ports[u],
                  ParentPon(devices, root, ports[u].deviceId), ChildPon(devices, root, ports[u].deviceId))
  }

  /** Every routable pair of a set of logical ports. */
  ghost function AllPairs(devices: Devices, root: string, ports: LogicalPorts): Pairs {
    set n, u | n in ports && u in ports && Routable(devices, root, ports, n, u) :: (n, u)
  }

  ghost predicate PairsRoutable(devices: Devices, root: string, ports: LogicalPorts, pairs: Pairs) {
    forall n, u {:trigger (n, u) in pairs} :: (n, u) in pairs ==> Routable(devices, root, ports, n, u)
  }

  /** `routes` holds exactly the given pairs, in both directions. */
  ghost predicate IsTable(devices: Devices, root: string, ports: LogicalPorts, pairs: Pairs, routes: Table) {
    && PairsRoutable(devices, root, ports, pairs)
    && (forall k :: k in routes <==> (k.ingress, k.egress) in pairs || (k.egress, k.ingress) in pairs)
    && (forall n, u {:trigger (n, u) in pairs} :: (n, u) in pairs ==>
          && routes[PathId(n, u)] == Downstream(devices, root, ports, n, u)
          && routes[PathId(u, n)] == Reverse(Downstream(devices, root, ports, n, u)))
  }

  /** A table is determined by its pairs. */
  lemma TableIsUnique(devices: Devices, root: string, ports: LogicalPorts, pairs: Pairs, r1: Table, r2: Table)
    requires IsTable(devices, root, ports, pairs, r1) && IsTable(devices, root, ports, pairs, r2)
    ensures r1 == r2
  {
    forall k | k in r1
      ensures k in r2 && r1[k] == r2[k]
    {
      if (k.ingress, k.egress) in pairs {
        assert k == PathId(k.ingress, k.egress);
      } else {
        assert (k.egress, k.ingress) in pairs && k == PathId(k.ingress, k.egress);
      }
    }
    forall k | k in r2
      ensures k in r1
    {
    }
  }

  /** What the table says of one link: two hops, joined at peer PON ports, and reverse-closed. */
  lemma RoutesAreJoined(devices: Devices, root: string, ports: LogicalPorts, pairs: Pairs, routes: Table, k: PathId)
    requires Registered(devices, root, ports) && IsTable(devices, root, ports, pairs, routes) && k in routes
    ensures var r := routes[k];
            && |r| == 2
            && PathId(k.egress, k.ingress) in routes
            && routes[PathId(k.egress, k.ingress)] == Reverse(r)
            && (if (k.ingress, k.egress) in pairs
                then r[0].deviceId == root && IsParentPon(devices, root, r[1].deviceId, r[0].egress) && IsChildPon(devices, r[1].deviceId, r[1].ingress)
                else r[1].deviceId == root && IsParentPon(devices, root, r[0].deviceId, r[1].ingress) && IsChildPon(devices, r[0].deviceId, r[0].egress))
  {
    if (k.ingress, k.egress) in pairs {
      assert k == PathId(k.ingress, k.egress);
    } else {
      assert (k.egress, k.ingress) in pairs && k == PathId(k.ingress, k.egress);
      ReverseIsInvolution(Downstream(devices, root, ports, k.egress, k.ingress));
    }
  }

  lemma StoredKeys(pairs: Pairs, routes: Table, n: nat, u: nat, down: Route, up: Route)
    requires forall k :: k in routes <==> (k.ingress, k.egress) in pairs || (k.egress, k.ingress) in pairs
    ensures var after, pairs' := routes[PathId(n, u) := down][PathId(u, n) := up], pairs + {(n, u)};
            forall k :: k in after <==> (k.ingress, k.egress) in pairs' || (k.egress, k.ingress) in pairs'
  {
    var after, pairs' := routes[PathId(n, u) := down][PathId(u, n) := up], pairs + {(n, u)};
    assert forall k :: k in after <==> k in routes || k == PathId(n, u) || k == PathId(u, n);
    forall k
      ensures k in after <==> (k.ingress, k.egress) in pairs' || (k.egress, k.ingress) in pairs'
    {
      assert k == PathId(k.ingress, k.egress);
    }
  }

  /** The effect of storing one pair's two routes. */
  lemma StorePair(devices: Devices, root: string, ports: LogicalPorts, pairs: Pairs, routes: Table, n: nat, u: nat)
    requires IsTable(devices, root, ports, pairs, routes) && Routable(devices, root, ports, n, u)
    ensures var d := Downstream(devices, root, ports, n, u);
            IsTable(devices, root, ports, pairs + {(n, u)}, routes[PathId(n, u) := d][PathId(u, n) := Reverse(d)])
  {
    var d := Downstream(devices, root, ports, n, u);
    var after := routes[PathId(n, u) := d][PathId(u, n) := Reverse(d)];
    var pairs' := pairs + {(n, u)};
    StoredKeys(pairs, routes, n, u, d, Reverse(d));
    forall x, y | (x, y) in pairs'
      ensures Routable(devices, root, ports, x, y)
      ensures after[PathId(x, y)] == Downstream(devices, root, ports, x, y)
      ensures after[PathId(y, x)] == Reverse(Downstream(devices, root, ports, x, y))
    {
      assert (x, y) in pairs || (x == n && y == u);
    }
  }

  // The pairs that adding one port contributes.

  /** The pairs of UNI u with the NNIs among `lps`. */
  ghost function PairsOfUni(lps: LogicalPorts, u: nat): Pairs {
    set n | n in lps && lps[n].rootPort :: (n, u)
  }

  /** The pairs of NNI n with the attached UNIs among `lps` that sit on one of `onDevices`. */
  ghost function PairsOfNni(devices: Devices, root: string, lps: LogicalPorts, n: nat, onDevices: set<string>): Pairs {
    set u | u in lps && !lps[u].rootPort && lps[u].deviceId in onDevices && Attached(devices, root, lps[u].deviceId) :: (n, u)
  }

  lemma PairsOfUniGrow(lps: LogicalPorts, u: nat, n: nat, p: LogicalPort)
    requires n !in lps
    ensures PairsOfUni(lps[n := p], u) == PairsOfUni(lps, u) + (if p.rootPort then {(n, u)} else {})
  {
    var grown := lps[n := p];
    assert forall m :: m in grown && grown[m].rootPort <==> (m in lps && lps[m].rootPort) || (m == n && p.rootPort);
  }

  /** The pairs of NNI n with the logical ports that sit on given port numbers of one device. */
  ghost function PairsOnPorts(lps: LogicalPorts, n: nat, child: string, portNos: set<nat>): Pairs {
    set u | u in lps && lps[u].deviceId == child && lps[u].devicePortNo in portNos :: (n, u)
  }

  ghost function KeyOf(p: LogicalPort): string {
    ConcatDeviceIdPortId(p.deviceId, p.devicePortNo)
  }

  ghost predicate InIndex(phys: map<string, nat>, lps: LogicalPorts, u: nat)
    requires u in lps
  {
    KeyOf(lps[u]) in phys && phys[KeyOf(lps[u])] == u
  }

  ghost predicate FromPorts(phys: map<string, nat>, lps: LogicalPorts, k: string)
    requires k in phys
  {
    phys[k] in lps && k == KeyOf(lps[phys[k]])
  }

  /** The text index of logical ports by device port. */
  ghost predicate Indexes(phys: map<string, nat>, lps: LogicalPorts) {
    && (forall u {:trigger InIndex(phys, lps, u)} :: u in lps ==> InIndex(phys, lps, u))
    && (forall k {:trigger FromPorts(phys, lps, k)} :: k in phys ==> FromPorts(phys, lps, k))
  }

  /** A hit in the index is the one logical port on that device port; a miss means there is none. */
  lemma IndexFinds(phys: map<string, nat>, lps: LogicalPorts, d: string, m: nat)
    requires Indexes(phys, lps)
    ensures var k := ConcatDeviceIdPortId(d, m);
            if k in phys
            then phys[k] in lps && forall u :: u in lps && lps[u].deviceId == d && lps[u].devicePortNo == m <==> u == phys[k]
            else forall u :: u in lps ==> !(lps[u].deviceId == d && lps[u].devicePortNo == m)
  {
    var k := ConcatDeviceIdPortId(d, m);
    if k in phys {
      assert FromPorts(phys, lps, k);
      KeyIsInjective(d, m, lps[phys[k]].deviceId, lps[phys[k]].devicePortNo);
    }
    forall u | u in lps && lps[u].deviceId == d && lps[u].devicePortNo == m
      ensures k in phys && u == phys[k]
    {
      assert InIndex(phys, lps, u);
    }
  }

  lemma PairsOnPortsUnion(lps: LogicalPorts, n: nat, child: string, a: set<nat>, b: set<nat>)
    ensures PairsOnPorts(lps, n, child, a + b) == PairsOnPorts(lps, n, child, a) + PairsOnPorts(lps, n, child, b)
  {
  }

  /** The logical ports on port m of an ONU: found through the index, and only if m is a UNI. */
  lemma PairsOnOnePort(devices: Devices, root: string, registry: LogicalPorts,
                       lps: LogicalPorts, phys: map<string, nat>, n: nat, child: string, m: nat)
    requires Registered(devices, root, registry) && PartOf(lps, registry) && Indexes(phys, lps)
    requires child != root && child in devices && m in devices[child]
    ensures var key := ConcatDeviceIdPortId(child, m);
            if devices[child][m].kind == EthernetUni && key in phys
            then phys[key] in lps && !lps[phys[key]].rootPort && lps[phys[key]].deviceId == child
                 && PairsOnPorts(lps, n, child, {m}) == {(n, phys[key])}
            else PairsOnPorts(lps, n, child, {m}) == {}
  {
    IndexFinds(phys, lps, child, m);
    forall u | u in lps && lps[u].deviceId == child && lps[u].devicePortNo == m
      ensures !lps[u].rootPort && devices[child][m].kind == EthernetUni
    {
      assert registry[u] == lps[u];
    }
  }

  /** On an attached ONU, its ports account for all the pairs it contributes. */
  lemma AllPortsOfChild(devices: Devices, root: string, registry: LogicalPorts, lps: LogicalPorts, n: nat, child: string)
    requires Registered(devices, root, registry) && PartOf(lps, registry) && child != root
    requires Attached(devices, root, child)
    ensures PairsOnPorts(lps, n, child, devices[child].Keys) == PairsOfNni(devices, root, lps, n, {child})
  {
  }

  /** A device that is not attached contributes nothing. */
  lemma NothingOnDetached(devices: Devices, root: string, lps: LogicalPorts, n: nat, child: string)
    requires !Attached(devices, root, child)
    ensures PairsOfNni(devices, root, lps, n, {child}) == {}
  {
  }

  lemma PairsOfNniUnion(devices: Devices, root: string, lps: LogicalPorts, n: nat, a: set<string>, b: set<string>)
    ensures PairsOfNni(devices, root, lps, n, a + b) == PairsOfNni(devices, root, lps, n, a) + PairsOfNni(devices, root, lps, n, b)
  {
  }

  /** The pairs of NNI n with every attached UNI among `lps`. */
  ghost function AttachedPairs(devices: Devices, root: string, lps: LogicalPorts, n: nat): Pairs {
    set u | u in lps && !lps[u].rootPort && Attached(devices, root, lps[u].deviceId) :: (n, u)
  }

  lemma AllPeersSeen(devices: Devices, root: string, lps: LogicalPorts, n: nat, seen: set<string>)
    requires forall c, p :: IsParentPon(devices, root, c, p) ==> c in seen
    ensures PairsOfNni(devices, root, lps, n, seen) == AttachedPairs(devices, root, lps, n)
  {
  }

  ghost function PeerIds(peers: seq<Peer>): set<string> {
    set i | 0 <= i < |peers| :: peers[i].deviceId
  }

  lemma PeerIdsGrow(peers: seq<Peer>, i: nat)
    requires i < |peers|
    ensures PeerIds(peers[..i + 1]) == PeerIds(peers[..i]) + {peers[i].deviceId}
  {
    forall d | d in PeerIds(peers[..i])
      ensures d in PeerIds(peers[..i + 1])
    {
      var j :| 0 <= j < i && peers[..i][j].deviceId == d;
      assert peers[..i + 1][j].deviceId == d;
    }
    assert peers[..i + 1][i].deviceId == peers[i].deviceId;
  }

  ghost function RootsOf(lps: LogicalPorts): set<nat> {
    set n | n in lps && lps[n].rootPort
  }

  /** A duplicate-free list of the NNIs among `lps`. */
  ghost predicate ListsRoots(nnis: seq<LogicalPort>, lps: LogicalPorts) {
    && (forall i :: 0 <= i < |nnis| ==> nnis[i].rootPort && nnis[i].portNo in lps && lps[nnis[i].portNo] == nnis[i])
    && (forall i, j :: 0 <= i < j < |nnis| ==> nnis[i].portNo != nnis[j].portNo)
    && |nnis| == |RootsOf(lps)|
  }

  lemma RootsGrow(nnis: seq<LogicalPort>, lps: LogicalPorts, lp: LogicalPort)
    requires lp.portNo !in lps && ListsRoots(nnis, lps)
    ensures RootsOf(lps[lp.portNo := lp]) == RootsOf(lps) + (if lp.rootPort then {lp.portNo} else {})
    ensures ListsRoots(if lp.rootPort then nnis + [lp] else nnis, lps[lp.portNo := lp])
  {
    RootsOfGrow(lps, lp);
    var grown, nnis' := lps[lp.portNo := lp], if lp.rootPort then nnis + [lp] else nnis;
    assert lp.portNo !in RootsOf(lps);
    forall i | 0 <= i < |nnis'|
      ensures nnis'[i].rootPort && nnis'[i].portNo in grown && grown[nnis'[i].portNo] == nnis'[i]
    {
      assert i < |nnis| ==> nnis'[i] == nnis[i];
    }
  }

  lemma AddedLater(before: LogicalPorts, lps: LogicalPorts, n: nat, lp: LogicalPort)
    ensures before + lps[n := lp] == (before + lps)[n := lp]
  {
  }

  /** The first one or two NNIs of the list. */
  ghost function FirstTwo(nnis: seq<LogicalPort>): set<nat>
    requires |nnis| > 0
  {
    if |nnis| < 2 then {nnis[0].portNo} else {nnis[0].portNo, nnis[1].portNo}
  }

  lemma FirstTwoAreRoots(nnis: seq<LogicalPort>, lps: LogicalPorts)
    requires ListsRoots(nnis, lps) && |nnis| > 0
    ensures FirstTwo(nnis) <= RootsOf(lps)
    ensures |FirstTwo(nnis)| == if |RootsOf(lps)| < 2 then |RootsOf(lps)| else 2
  {
    assert nnis[0].portNo in RootsOf(lps);
    if |nnis| > 1 {
      assert nnis[1].portNo in RootsOf(lps) && nnis[0].portNo != nnis[1].portNo;
    }
  }

  lemma RootsOfGrow(lps: LogicalPorts, lp: LogicalPort)
    requires lp.portNo !in lps
    ensures RootsOf(lps[lp.portNo := lp]) == RootsOf(lps) + (if lp.rootPort then {lp.portNo} else {})
  {
    var grown := lps[lp.portNo := lp];
    assert forall n :: n in grown && grown[n].rootPort <==> (n in lps && lps[n].rootPort) || (n == lp.portNo && lp.rootPort);
  }

  lemma IndexGrows(devices: Devices, root: string, registry: LogicalPorts, phys: map<string, nat>, lps: LogicalPorts, lp: LogicalPort)
    requires Registered(devices, root, registry) && PartOf(lps, registry) && Indexes(phys, lps)
    requires lp.portNo !in lps && lp.portNo in registry && registry[lp.portNo] == lp
    ensures Indexes(phys[ConcatDeviceIdPortId(lp.deviceId, lp.devicePortNo) := lp.portNo], lps[lp.portNo := lp])
  {
    var key := KeyOf(lp);
    var phys', lps' := phys[key := lp.portNo], lps[lp.portNo := lp];
    forall u | u in lps
      ensures KeyOf(lps[u]) != key
    {
      if KeyOf(lps[u]) == key {
        KeyIsInjective(lp.deviceId, lp.devicePortNo, lps[u].deviceId, lps[u].devicePortNo);
        assert false;
      }
    }
    forall u | u in lps'
      ensures InIndex(phys', lps', u)
    {
      assert u != lp.portNo ==> InIndex(phys, lps, u);
    }
    forall k | k in phys'
      ensures FromPorts(phys', lps', k)
    {
      assert k != key ==> FromPorts(phys, lps, k);
    }
  }

  /** A logical port list as the agent passes it: part of the registry. */
  ghost predicate PartOf(lps: LogicalPorts, registry: LogicalPorts) {
    forall n {:trigger lps[n]} :: n in lps ==> n in registry && lps[n] == registry[n]
  }

  /** The pairs that AddPort contributes. */
  ghost function PairsOfPort(devices: Devices, root: string, lps: LogicalPorts, lp: LogicalPort): Pairs {
    if lp.rootPort then AttachedPairs(devices, root, lps, lp.portNo)
    else if Attached(devices, root, lp.deviceId) then PairsOfUni(lps, lp.portNo)
    else {}
  }

  // Copying the routes of one NNI to another.

  ghost function CopiedPairs(pairs: Pairs, newNni: nat, from: nat): Pairs {
    set p | p in pairs && p.0 == from :: (newNni, p.1)
  }

  function CopyDown(val: Route, newNni: LogicalPort): Route
    requires |val| == 2
  {
    [Hop(newNni.deviceId, newNni.devicePortNo, val[0].egress), val[1]]
  }

  function CopyUp(val: Route, newNni: LogicalPort): Route
    requires |val| == 2
  {
    [val[0], Hop(newNni.deviceId, val[1].ingress, newNni.devicePortNo)]
  }

  /** No route mentions the new NNI, and all have two hops. */
  ghost predicate Copyable(routes: Table, newNni: nat) {
    forall k :: k in routes ==> k.ingress != newNni && k.egress != newNni && |routes[k]| == 2
  }

  /** The table built after the routes `done` have been visited. */
  ghost predicate Copied(routes: Table, done: set<PathId>, newNni: LogicalPort, from: nat, updated: Table)
    requires done <= routes.Keys && Copyable(routes, newNni.portNo)
  {
    && (forall k :: k in updated <==>
          k in done || (k.ingress == newNni.portNo && PathId(from, k.egress) in done)
          || (k.egress == newNni.portNo && PathId(k.ingress, from) in done))
    && (forall k :: k in done ==> updated[k] == routes[k])
    && (forall e :: PathId(from, e) in done ==> updated[PathId(newNni.portNo, e)] == CopyDown(routes[PathId(from, e)], newNni))
    && (forall i :: PathId(i, from) in done ==> updated[PathId(i, newNni.portNo)] == CopyUp(routes[PathId(i, from)], newNni))
  }

  lemma CopyStepKeepsCopied(routes: Table, done: set<PathId>, newNni: LogicalPort, from: nat, updated: Table, key: PathId, updated': Table)
    requires done <= routes.Keys && Copyable(routes, newNni.portNo) && Copied(routes, done, newNni, from, updated)
    requires key in routes && key !in done && !(key.ingress == from && key.egress == from)
    requires updated' ==
             (if key.ingress == from then updated[PathId(newNni.portNo, key.egress) := CopyDown(routes[key], newNni)]
              else if key.egress == from then updated[PathId(key.ingress, newNni.portNo) := CopyUp(routes[key], newNni)]
              else updated)[key := routes[key]]
    ensures Copied(routes, done + {key}, newNni, from, updated')
  {
  }

  /** Copying the routes of a first NNI gives what building the new NNI from the topology would give. */
  lemma CopiedIsTable(devices: Devices, root: string, ports: LogicalPorts, pairs: Pairs, routes: Table,
                      newNni: LogicalPort, from: nat, updated: Table)
    requires IsTable(devices, root, ports, pairs, routes) && Copyable(routes, newNni.portNo)
    requires newNni.portNo in ports && ports[newNni.portNo] == newNni && newNni.rootPort
    requires Copied(routes, routes.Keys, newNni, from, updated) && from in ports && ports[from].rootPort
    ensures IsTable(devices, root, ports, pairs + CopiedPairs(pairs, newNni.portNo, from), updated)
  {
    var n := newNni.portNo;
    var all := pairs + CopiedPairs(pairs, n, from);
    forall x, u | (x, u) in all
      ensures Routable(devices, root, ports, x, u)
      ensures PathId(x, u) in updated && updated[PathId(x, u)] == Downstream(devices, root, ports, x, u)
      ensures PathId(u, x) in updated && updated[PathId(u, x)] == Reverse(Downstream(devices, root, ports, x, u))
    {
      CopiedEntry(devices, root, ports, pairs, routes, newNni, from, updated, x, u);
    }
    forall k | k in updated
      ensures (k.ingress, k.egress) in all || (k.egress, k.ingress) in all
    {
      CopiedKey(devices, root, ports, pairs, routes, newNni, from, updated, k);
    }
    forall k: PathId | (k.ingress, k.egress) in all || (k.egress, k.ingress) in all
      ensures k in updated
    {
      assert k == PathId(k.ingress, k.egress);
    }
  }

  lemma CopiedEntry(devices: Devices, root: string, ports: LogicalPorts, pairs: Pairs, routes: Table,
                    newNni: LogicalPort, from: nat, updated: Table, x: nat, u: nat)
    requires IsTable(devices, root, ports, pairs, routes) && Copyable(routes, newNni.portNo)
    requires newNni.portNo in ports && ports[newNni.portNo] == newNni && newNni.rootPort
    requires Copied(routes, routes.Keys, newNni, from, updated)
    requires (x, u) in pairs + CopiedPairs(pairs, newNni.portNo, from)
    ensures Routable(devices, root, ports, x, u)
    ensures PathId(x, u) in updated && updated[PathId(x, u)] == Downstream(devices, root, ports, x, u)
    ensures PathId(u, x) in updated && updated[PathId(u, x)] == Reverse(Downstream(devices, root, ports, x, u))
  {
    if (x, u) in pairs {
      assert PathId(x, u) in routes && PathId(u, x) in routes;
    } else {
      assert x == newNni.portNo && (from, u) in pairs;
      assert PathId(from, u) in routes && PathId(u, from) in routes;
      var down, was := Downstream(devices, root, ports, x, u), Downstream(devices, root, ports, from, u);
      assert CopyDown(was, newNni) == down;
      assert Reverse(was)[1].ingress == was[0].egress && Reverse(was)[0] == Reverse(down)[0];
      assert CopyUp(Reverse(was), newNni) == Reverse(down);
    }
  }

  lemma CopiedKey(devices: Devices, root: string, ports: LogicalPorts, pairs: Pairs, routes: Table,
                  newNni: LogicalPort, from: nat, updated: Table, k: PathId)
    requires IsTable(devices, root, ports, pairs, routes) && Copyable(routes, newNni.portNo)
    requires Copied(routes, routes.Keys, newNni, from, updated) && k in updated && from in ports && ports[from].rootPort
    ensures var all := pairs + CopiedPairs(pairs, newNni.portNo, from);
            (k.ingress, k.egress) in all || (k.egress, k.ingress) in all
  {
    if k !in routes {
      if k.ingress == newNni.portNo && PathId(from, k.egress) in routes {
        assert (from, k.egress) in pairs;
        assert (from, k.egress).0 == from;
      } else {
        assert PathId(k.ingress, from) in routes;
        assert (from, k.ingress) in pairs;
        assert (from, k.ingress).0 == from;
      }
    }
  }

  /** The pairs of a set of NNIs with every attached UNI among `lps`. */
  ghost function BulkPairs(devices: Devices, root: string, lps: LogicalPorts, nnis: set<nat>): Pairs {
    set n, u | n in nnis && u in lps && !lps[u].rootPort && Attached(devices, root, lps[u].deviceId) :: (n, u)
  }

  lemma BulkOfOne(devices: Devices, root: string, lps: LogicalPorts, n: nat)
    ensures BulkPairs(devices, root, lps, {n}) == AttachedPairs(devices, root, lps, n)
  {
  }

  lemma BulkOfTwo(devices: Devices, root: string, lps: LogicalPorts, n: nat, m: nat)
    ensures var one := AttachedPairs(devices, root, lps, n);
            BulkPairs(devices, root, lps, {n, m}) == one + CopiedPairs(one, m, n)
  {
    var one := AttachedPairs(devices, root, lps, n);
    forall u | u in lps && !lps[u].rootPort && Attached(devices, root, lps[u].deviceId)
      ensures (m, u) in CopiedPairs(one, m, n)
    {
      assert (n, u) in one && (n, u).0 == n;
    }
  }

  lemma NoUniNoPairs(devices: Devices, root: string, lps: LogicalPorts, n: nat, m: nat, nnis: set<nat>)
    ensures AttachedPairs(devices, root, lps, n) == {} ==>
              AttachedPairs(devices, root, lps, m) == {} && BulkPairs(devices, root, lps, nnis) == {}
  {
    assert forall p :: p in AttachedPairs(devices, root, lps, m) ==> (n, p.1) in AttachedPairs(devices, root, lps, n);
    assert forall p :: p in BulkPairs(devices, root, lps, nnis) ==> (n, p.1) in AttachedPairs(devices, root, lps, n);
  }

  lemma EmptyTableNoPairs(devices: Devices, root: string, ports: LogicalPorts, pairs: Pairs, routes: Table)
    requires IsTable(devices, root, ports, pairs, routes)
    ensures |routes| > 0 <==> pairs != {}
  {
    if |routes| > 0 {
      var k :| k in routes;
      assert (k.ingress, k.egress) in pairs || (k.egress, k.ingress) in pairs;
    }
    if pairs != {} {
      var p :| p in pairs;
      assert (p.0, p.1) in pairs && PathId(p.0, p.1) in routes;
    }
  }

  // Routes on demand.

  /** The table after building one route on demand: the UNI goes by its device port number. */
  ghost function OnDemand(devices: Devices, root: string, routes: Table, nni: LogicalPort, uni: LogicalPort): Table
    requires Attached(devices, root, uni.deviceId)
  {
    var down := DownstreamVia(nni, uni, ParentPon(devices, root, uni.deviceId), ChildPon(devices, root, uni.deviceId));
    routes[PathId(nni.portNo, uni.devicePortNo) := down][PathId(uni.devicePortNo, nni.portNo) := Reverse(down)]
  }

  /** Indexing the table: a missing key reads as the empty route. */
  function Answer(routes: Table, ingress: nat, egress: nat): Route {
    if PathId(ingress, egress) in routes then routes[PathId(ingress, egress)] else []
  }

  /** The hop with all fields at their zero value. */
  const EmptyHop := Hop("", 0, 0)

  predicate IsHalfMatch(roots: set<nat>, nniAsEgress: bool, ingress: nat, egress: nat, k: PathId) {
    if nniAsEgress then (if egress != 0 then egress in roots && k.egress == egress else k.egress in roots)
    else ingress != 0 && k.ingress == ingress
  }

  function HalfOf(nniAsEgress: bool, route: Route): Route
    requires |route| == 2
  {
    if nniAsEgress then [EmptyHop, route[1]] else [route[0], EmptyHop]
  }
}
