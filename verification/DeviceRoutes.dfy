/** The route table of a logical device, kept up to date port by port, in bulk or on demand. */
module DeviceRoutes {
  import opened Prelude
  import opened PonTopology
  import opened RouteSpec
  import opened PortKey
  import RouteCounting

  datatype RouteError = NoRoute | DeviceNotFound | PonPortNotFound | NoPorts

  predicate IsPonKind(kind: PortType) {
    kind == PonOnu || kind == PonOlt
  }

  /** Cached PON ports are ports of that device. */
  ghost predicate PonsCached(devices: Devices, cache: map<string, seq<Port>>) {
    forall d {:trigger cache[d]} :: d in cache ==>
      cache[d] != [] && forall i :: 0 <= i < |cache[d]| ==> IsPonPort(devices, d, cache[d][i])
  }

  ghost predicate IsPonPort(devices: Devices, d: string, port: Port) {
    d in devices && port.portNo in devices[d] && devices[d][port.portNo] == port && IsPonKind(port.kind)
  }

  /** Port q of device d is a PON port. */
  ghost predicate IsPonNo(devices: Devices, d: string, q: nat) {
    d in devices && q in devices[d] && IsPonKind(devices[d][q].kind)
  }

  /** A cached connection is the OLT port that lists the device. */
  ghost predicate ParentsCached(devices: Devices, root: string, cache: map<string, nat>) {
    forall c {:trigger cache[c]} :: c in cache ==> IsParentPon(devices, root, c, cache[c])
  }

  /** The ports that a loop has dealt with. */
  ghost function Rest(lps: LogicalPorts, todo: set<nat>): LogicalPorts {
    map n | n in lps && n !in todo :: lps[n]
  }

  lemma RestGrows(lps: LogicalPorts, todo: set<nat>, n: nat)
    requires n in todo && todo <= lps.Keys
    ensures n !in Rest(lps, todo) && Rest(lps, todo - {n}) == Rest(lps, todo)[n := lps[n]] && PartOf(Rest(lps, todo), lps)
  {
  }

  lemma RestAtEnds(lps: LogicalPorts)
    ensures Rest(lps, lps.Keys) == map[] && Rest(lps, {}) == lps
  {
  }

  class Graph {
    const devices: Devices
    const rootDeviceID: string
    ghost const registry: LogicalPorts  // every logical port that will ever be passed in
    var logicalPorts: LogicalPorts
    var RootPorts: map<nat, nat>
    var Routes: Table
    var devicesPonPorts: map<string, seq<Port>>
    var childConnectionPort: map<string, nat>

    ghost predicate Knows(p: LogicalPort) {
      p.portNo in registry && registry[p.portNo] == p
    }

    /** A list of logical ports by number, as the logical agent passes it. */
    ghost predicate Passed(lps: LogicalPorts) {
      forall n {:trigger lps[n]} :: n in lps ==> lps[n].portNo == n && Knows(lps[n])
    }

    /** The caches agree with the topology. */
    ghost predicate Valid()
      reads this`logicalPorts, this`devicesPonPorts, this`childConnectionPort
    {
      && WellFormed(devices, rootDeviceID)
      && Registered(devices, rootDeviceID, registry)
      && Passed(logicalPorts)
      && PonsCached(devices, devicesPonPorts)
      && ParentsCached(devices, rootDeviceID, childConnectionPort)
    }

    /** Routes holds exactly the given (NNI, UNI) pairs. */
    ghost predicate Exactly(pairs: Pairs)
      reads this`Routes
    {
      IsTable(devices, rootDeviceID, registry, pairs, Routes)
    }

    constructor (devices: Devices, rootDeviceID: string, ghost registry: LogicalPorts)
      requires WellFormed(devices, rootDeviceID) && Registered(devices, rootDeviceID, registry)
      ensures Valid() && this.devices == devices && this.rootDeviceID == rootDeviceID && this.registry == registry
      ensures Exactly({})
      ensures Routes == map[] && RootPorts == map[] && logicalPorts == map[]
    {
      this.devices, this.rootDeviceID, this.registry := devices, rootDeviceID, registry;
      logicalPorts, RootPorts, Routes, devicesPonPorts, childConnectionPort := map[], map[], map[], map[], map[];
    }

    /** reset: forget everything but the topology. */
    method Reset()
      requires Valid()
      modifies this
      ensures Valid() && Routes == map[] && RootPorts == map[] && logicalPorts == map[]
      ensures devicesPonPorts == map[] && childConnectionPort == map[]
    {
      logicalPorts, RootPorts, Routes, devicesPonPorts, childConnectionPort := map[], map[], map[], map[], map[];
    }

    /** updateCache, for any iteration order of the port map. */
    method UpdateCache(deviceID: string, devicePorts: map<nat, Port>)
      requires Valid() && deviceID in devices && devicePorts == devices[deviceID]
      modifies this`devicesPonPorts, this`childConnectionPort
      ensures Valid()
      ensures forall n :: n in devicePorts && IsPonKind(devicePorts[n].kind) ==> deviceID in devicesPonPorts
      ensures forall c, p :: IsParentPon(devices, deviceID, c, p) ==> c in childConnectionPort
    {
      var todo := devicePorts.Keys;
      while todo != {}
        invariant Valid() && todo <= devicePorts.Keys
        invariant forall n :: n in devicePorts && n !in todo && IsPonKind(devicePorts[n].kind) ==> deviceID in devicesPonPorts
        invariant forall c, p :: p !in todo && IsParentPon(devices, deviceID, c, p) ==> c in childConnectionPort
        decreases todo
      {
        var n :| n in todo;
        todo := todo - {n};
        assert devices[deviceID][n].portNo == n && devices[deviceID][n].deviceId == deviceID;
        CachePort(deviceID, devicePorts[n]);
      }
    }

    /** One port of updateCache. */
    method CachePort(deviceID: string, port: Port)
      requires Valid() && deviceID in devices && port.portNo in devices[deviceID] && devices[deviceID][port.portNo] == port && port.deviceId == deviceID
      modifies this`devicesPonPorts, this`childConnectionPort
      ensures Valid()
      ensures IsPonKind(port.kind) ==> deviceID in devicesPonPorts
      ensures old(devicesPonPorts).Keys <= devicesPonPorts.Keys && old(childConnectionPort).Keys <= childConnectionPort.Keys
      ensures forall c :: port.kind == PonOlt && Lists(port.peers, c) ==> c in childConnectionPort
    {
      if IsPonKind(port.kind) {
        devicesPonPorts := devicesPonPorts[deviceID := (if deviceID in devicesPonPorts then devicesPonPorts[deviceID] else []) + [port]];
        RecordPeers(port);
      }
    }

    /** The inner loop of updateCache. */
    method RecordPeers(port: Port)
      requires Valid() && IsPonPort(devices, port.deviceId, port)
      modifies this`childConnectionPort
      ensures ParentsCached(devices, rootDeviceID, childConnectionPort)
      ensures old(childConnectionPort).Keys <= childConnectionPort.Keys
      ensures forall c :: port.kind == PonOlt && Lists(port.peers, c) ==> c in childConnectionPort
    {
      for i := 0 to |port.peers|
        invariant ParentsCached(devices, rootDeviceID, childConnectionPort)
        invariant old(childConnectionPort).Keys <= childConnectionPort.Keys
        invariant forall j :: port.kind == PonOlt && 0 <= j < i ==> port.peers[j].deviceId in childConnectionPort
      {
        var peer := port.peers[i];
        if port.kind == PonOnu {
          assert IsChildPon(devices, port.deviceId, port.portNo);
          childConnectionPort := childConnectionPort[port.deviceId := peer.portNo];
        } else {
          assert port.deviceId == rootDeviceID by {
            assert devices[port.deviceId][port.portNo].kind == PonOlt;
          }
          childConnectionPort := childConnectionPort[peer.deviceId := port.portNo];
        }
      }
    }

    /** getDeviceWithCacheUpdate */
    method GetDeviceWithCacheUpdate(deviceID: string) returns (r: Result<map<nat, Port>, RouteError>)
      requires Valid()
      modifies this`devicesPonPorts, this`childConnectionPort
      ensures Valid()
      ensures r == if deviceID in devices then Success(devices[deviceID]) else Failure(DeviceNotFound)
      ensures r.Success? ==> forall n :: n in r.value && IsPonKind(r.value[n].kind) ==> deviceID in devicesPonPorts
      ensures forall c, p :: IsParentPon(devices, deviceID, c, p) ==> c in childConnectionPort
    {
      if deviceID !in devices {
        return Failure(DeviceNotFound);
      }
      UpdateCache(deviceID, devices[deviceID]);
      r := Success(devices[deviceID]);
    }

    /** getChildPonPort: finds a PON port of the device exactly when it has one, which for an ONU is the only one. */
    method GetChildPonPort(deviceID: string) returns (r: Result<nat, RouteError>)
      requires Valid()
      modifies this`devicesPonPorts, this`childConnectionPort
      ensures Valid()
      ensures r.Success? <==> exists q :: IsPonNo(devices, deviceID, q)
      ensures r.Success? ==> IsPonNo(devices, deviceID, r.value)
      ensures deviceID != rootDeviceID ==> (r.Success? <==> exists q :: IsChildPon(devices, deviceID, q))
      ensures deviceID != rootDeviceID && r.Success? ==> IsChildPon(devices, deviceID, r.value)
    {
      if deviceID in devicesPonPorts {
        FirstCachedPon(deviceID);
        return Success(devicesPonPorts[deviceID][0].portNo);
      }
      var ports := GetDeviceWithCacheUpdate(deviceID);
      if ports.Failure? {
        return Failure(ports.error);
      }
      if deviceID in devicesPonPorts {
        FirstCachedPon(deviceID);
        return Success(devicesPonPorts[deviceID][0].portNo);
      }
      r := Failure(PonPortNotFound);
    }

    lemma FirstCachedPon(deviceID: string)
      requires Valid() && deviceID in devicesPonPorts
      ensures IsPonNo(devices, deviceID, devicesPonPorts[deviceID][0].portNo)
      ensures deviceID != rootDeviceID ==> IsChildPon(devices, deviceID, devicesPonPorts[deviceID][0].portNo)
    {
      var port := devicesPonPorts[deviceID][0];
      assert IsPonPort(devices, deviceID, port);
      assert devices[deviceID][port.portNo].kind == PonOlt ==> deviceID == rootDeviceID;
    }

    /** getParentPonPort: finds the OLT port of an ONU exactly when one lists it. */
    method GetParentPonPort(childDeviceID: string) returns (r: Result<nat, RouteError>)
      requires Valid()
      modifies this`devicesPonPorts, this`childConnectionPort
      ensures Valid()
      ensures r.Success? <==> exists p :: IsParentPon(devices, rootDeviceID, childDeviceID, p)
      ensures r.Success? ==> IsParentPon(devices, rootDeviceID, childDeviceID, r.value)
    {
      if childDeviceID in childConnectionPort {
        return Success(childConnectionPort[childDeviceID]);
      }
      var ports := GetDeviceWithCacheUpdate(rootDeviceID);
      if ports.Failure? {
        return Failure(ports.error);
      }
      if childDeviceID in childConnectionPort {
        return Success(childConnectionPort[childDeviceID]);
      }
      r := Failure(PonPortNotFound);
    }

    // -------------------------------------------------------------------------------------------
    // Port by port

    /** Stores the route of one pair and its reverse. */
    method Store(nni: LogicalPort, uni: LogicalPort, parentPon: nat, childPon: nat, ghost pairs: Pairs)
      requires Exactly(pairs) && Knows(nni) && nni.rootPort && Knows(uni) && !uni.rootPort
      requires Through(devices, rootDeviceID, uni.deviceId, parentPon, childPon)
      modifies this`Routes
      ensures Exactly(pairs + {(nni.portNo, uni.portNo)})
    {
      var down := DownstreamVia(nni, uni, parentPon, childPon);
      assert down == Downstream(devices, rootDeviceID, registry, nni.portNo, uni.portNo);
      StorePair(devices, rootDeviceID, registry, pairs, Routes, nni.portNo, uni.portNo);
      Routes := Routes[PathId(nni.portNo, uni.portNo) := down];
      var up := GetReverseRoute(Routes[PathId(nni.portNo, uni.portNo)]);
      Routes := Routes[PathId(uni.portNo, nni.portNo) := up];
    }

    /** AddUNIPort: succeeds exactly when the ONU is attached, and then pairs the UNI with every NNI passed in. */
    method AddUNIPort(lp: LogicalPort, deviceID: string, devicePorts: map<nat, Port>, lps: LogicalPorts, ghost pairs: Pairs)
      returns (r: Result<(), RouteError>)
      requires Valid() && Exactly(pairs)
      requires Knows(lp) && !lp.rootPort && Passed(lps)
      requires deviceID == lp.deviceId && deviceID in devices && devicePorts == devices[deviceID]
      modifies this
      ensures Valid() && logicalPorts == old(logicalPorts)[lp.portNo := lp] && RootPorts == old(RootPorts)
      ensures r.Success? <==> Attached(devices, rootDeviceID, lp.deviceId)
      ensures Exactly(if r.Success? then pairs + PairsOfUni(lps, lp.portNo) else pairs)
    {
      logicalPorts := logicalPorts[lp.portNo := lp];
      UpdateCache(deviceID, devicePorts);
      var childPonPort := GetChildPonPort(lp.deviceId);
      if childPonPort.Failure? {
        return Failure(childPonPort.error);
      }
      var rootDevicePonPort := GetParentPonPort(deviceID);
      if rootDevicePonPort.Failure? {
        return Failure(rootDevicePonPort.error);
      }
      OnlyWay(devices, rootDeviceID, deviceID, rootDevicePonPort.value, childPonPort.value);
      PairWithNNIs(lp, rootDevicePonPort.value, childPonPort.value, lps, pairs);
      r := Success(());
    }

    /** The loop of AddUNIPort over the logical ports, in any order. */
    method PairWithNNIs(lp: LogicalPort, parentPon: nat, childPon: nat, lps: LogicalPorts, ghost pairs: Pairs)
      requires Exactly(pairs) && Knows(lp) && !lp.rootPort && Passed(lps)
      requires Through(devices, rootDeviceID, lp.deviceId, parentPon, childPon)
      modifies this`Routes
      ensures Exactly(pairs + PairsOfUni(lps, lp.portNo))
    {
      var todo := lps.Keys;
      ghost var done: LogicalPorts, stored := map[], pairs;
      while todo != {}
        invariant todo <= lps.Keys && done.Keys == lps.Keys - todo && PartOf(done, lps)
        invariant stored == pairs + PairsOfUni(done, lp.portNo) && Exactly(stored)
        decreases todo
      {
        var n :| n in todo;
        todo := todo - {n};
        PairsOfUniGrow(done, lp.portNo, n, lps[n]);
        done := done[n := lps[n]];
        if lps[n].rootPort {
          Store(lps[n], lp, parentPon, childPon, stored);
          stored := stored + {(n, lp.portNo)};
        }
      }
      assert done == lps;
    }

    /** The index of logical ports by device port, the NNI list and the root ports, in any order. */
    method IndexPorts(lps: LogicalPorts) returns (phys: map<string, nat>, nniPorts: seq<LogicalPort>)
      requires Registered(devices, rootDeviceID, registry) && Passed(lps)
      modifies this`RootPorts, this`logicalPorts
      ensures Indexes(phys, lps) && ListsRoots(nniPorts, lps) && Recorded(old(logicalPorts), old(RootPorts), lps)
    {
      phys, nniPorts := map[], [];
      var todo := lps.Keys;
      RestAtEnds(lps);
      while todo != {}
        invariant todo <= lps.Keys
        invariant Indexes(phys, Rest(lps, todo)) && ListsRoots(nniPorts, Rest(lps, todo)) && Recorded(old(logicalPorts), old(RootPorts), Rest(lps, todo))
        decreases todo
      {
        var n :| n in todo;
        RestGrows(lps, todo, n);
        phys, nniPorts := IndexPort(lps[n], phys, nniPorts, Rest(lps, todo), old(logicalPorts), old(RootPorts));
        todo := todo - {n};
      }
    }

    /** The logical ports and root ports remembered are those of before and those among `lps`. */
    ghost predicate Recorded(ports: LogicalPorts, roots: map<nat, nat>, lps: LogicalPorts)
      reads this`logicalPorts, this`RootPorts
    {
      && logicalPorts == ports + lps
      && forall n :: n in RootPorts <==> n in roots || (n in lps && lps[n].rootPort)
    }

    method IndexPort(lp: LogicalPort, phys: map<string, nat>, nniPorts: seq<LogicalPort>,
                     ghost done: LogicalPorts, ghost ports: LogicalPorts, ghost roots: map<nat, nat>)
      returns (phys': map<string, nat>, nniPorts': seq<LogicalPort>)
      requires Registered(devices, rootDeviceID, registry) && PartOf(done, registry) && Knows(lp) && lp.portNo !in done
      requires Indexes(phys, done) && ListsRoots(nniPorts, done) && Recorded(ports, roots, done)
      modifies this`RootPorts, this`logicalPorts
      ensures Indexes(phys', done[lp.portNo := lp]) && ListsRoots(nniPorts', done[lp.portNo := lp])
      ensures Recorded(ports, roots, done[lp.portNo := lp])
    {
      RootsGrow(nniPorts, done, lp);
      IndexGrows(devices, rootDeviceID, registry, phys, done, lp);
      phys' := phys[ConcatDeviceIdPortId(lp.deviceId, lp.devicePortNo) := lp.portNo];
      nniPorts' := if lp.rootPort then nniPorts + [lp] else nniPorts;
      RecordPort(lp, done, ports, roots);
    }

    method RecordPort(lp: LogicalPort, ghost done: LogicalPorts, ghost ports: LogicalPorts, ghost roots: map<nat, nat>)
      requires Recorded(ports, roots, done) && lp.portNo !in done
      modifies this`RootPorts, this`logicalPorts
      ensures Recorded(ports, roots, done[lp.portNo := lp])
    {
      AddedLater(ports, done, lp.portNo, lp);
      if lp.rootPort {
        RootPorts := RootPorts[lp.portNo := lp.portNo];
      }
      logicalPorts := logicalPorts[lp.portNo := lp];
    }

    /** The loop over the ports of one ONU. */
    method RouteChildPorts(nni: LogicalPort, parentPon: nat, child: string, childPon: nat, childPorts: map<nat, Port>,
                           lps: LogicalPorts, phys: map<string, nat>, ghost pairs: Pairs)
      requires Exactly(pairs) && Knows(nni) && nni.rootPort && Passed(lps) && Indexes(phys, lps)
      requires Registered(devices, rootDeviceID, registry) && child != rootDeviceID
      requires child in devices && childPorts == devices[child]
      requires Through(devices, rootDeviceID, child, parentPon, childPon)
      modifies this`Routes
      ensures Exactly(pairs + PairsOnPorts(lps, nni.portNo, child, childPorts.Keys))
    {
      var todo := childPorts.Keys;
      ghost var done: set<nat>, stored := {}, pairs;
      while todo != {}
        invariant todo <= childPorts.Keys && done == childPorts.Keys - todo
        invariant stored == pairs + PairsOnPorts(lps, nni.portNo, child, done) && Exactly(stored)
        decreases todo
      {
        var m :| m in todo;
        todo := todo - {m};
        RouteChildPort(nni, parentPon, child, childPon, childPorts[m], m, lps, phys, stored);
        PairsOnPortsUnion(lps, nni.portNo, child, done, {m});
        stored, done := stored + PairsOnPorts(lps, nni.portNo, child, {m}), done + {m};
      }
      assert done == childPorts.Keys;
    }

    method RouteChildPort(nni: LogicalPort, parentPon: nat, child: string, childPon: nat, port: Port, m: nat,
                          lps: LogicalPorts, phys: map<string, nat>, ghost pairs: Pairs)
      requires Exactly(pairs) && Knows(nni) && nni.rootPort && Passed(lps) && Indexes(phys, lps)
      requires Registered(devices, rootDeviceID, registry) && child != rootDeviceID
      requires child in devices && m in devices[child] && port == devices[child][m]
      requires Through(devices, rootDeviceID, child, parentPon, childPon)
      modifies this`Routes
      ensures Exactly(pairs + PairsOnPorts(lps, nni.portNo, child, {m}))
    {
      PairsOnOnePort(devices, rootDeviceID, registry, lps, phys, nni.portNo, child, m);
      var key := ConcatDeviceIdPortId(child, m);
      if port.kind == EthernetUni && key in phys {
        Store(nni, lps[phys[key]], parentPon, childPon, pairs);
      } else {
        assert pairs + {} == pairs;
      }
    }

    /** One ONU listed by one OLT port: contributes its UNIs if it is attached, and is skipped otherwise. */
    method RoutePeer(nni: LogicalPort, parentPon: nat, child: string, lps: LogicalPorts, phys: map<string, nat>, ghost pairs: Pairs)
      requires Valid() && Exactly(pairs) && Knows(nni) && nni.rootPort && Passed(lps) && Indexes(phys, lps)
      requires IsParentPon(devices, rootDeviceID, child, parentPon)
      modifies this`Routes, this`devicesPonPorts, this`childConnectionPort
      ensures Valid() && Exactly(pairs + PairsOfNni(devices, rootDeviceID, lps, nni.portNo, {child}))
    {
      var childPorts := GetDeviceWithCacheUpdate(child);
      if childPorts.Failure? {
        NothingOnDetached(devices, rootDeviceID, lps, nni.portNo, child);
        assert pairs + {} == pairs;
        return;
      }
      var childPon := GetChildPonPort(child);
      if childPon.Failure? {
        NothingOnDetached(devices, rootDeviceID, lps, nni.portNo, child);
        assert pairs + {} == pairs;
        return;
      }
      OnlyWay(devices, rootDeviceID, child, parentPon, childPon.value);
      AllPortsOfChild(devices, rootDeviceID, registry, lps, nni.portNo, child);
      RouteChildPorts(nni, parentPon, child, childPon.value, childPorts.value, lps, phys, pairs);
    }

    /** The loop over the peers of one OLT port. */
    method RoutePeers(nni: LogicalPort, port: Port, lps: LogicalPorts, phys: map<string, nat>, ghost pairs: Pairs)
      requires Valid() && Exactly(pairs) && Knows(nni) && nni.rootPort && Passed(lps) && Indexes(phys, lps)
      requires rootDeviceID in devices && port.portNo in devices[rootDeviceID] && devices[rootDeviceID][port.portNo] == port && port.kind == PonOlt
      modifies this`Routes, this`devicesPonPorts, this`childConnectionPort
      ensures Valid() && Exactly(pairs + PairsOfNni(devices, rootDeviceID, lps, nni.portNo, PeerIds(port.peers)))
    {
      ghost var seen: set<string>, stored := {}, pairs;
      for i := 0 to |port.peers|
        invariant Valid() && seen == PeerIds(port.peers[..i])
        invariant stored == pairs + PairsOfNni(devices, rootDeviceID, lps, nni.portNo, seen) && Exactly(stored)
      {
        var child := port.peers[i].deviceId;
        assert Lists(port.peers, child);
        RoutePeer(nni, port.portNo, child, lps, phys, stored);
        PairsOfNniUnion(devices, rootDeviceID, lps, nni.portNo, seen, {child});
        PeerIdsGrow(port.peers, i);
        stored := stored + PairsOfNni(devices, rootDeviceID, lps, nni.portNo, {child});
        seen := seen + {child};
      }
      assert port.peers[..|port.peers|] == port.peers;
    }

    /** The nested loops of AddNNIPort and of the first NNI of ComputeRoutes: all attached UNIs, in any order. */
    method RouteNNI(nni: LogicalPort, rootPorts: map<nat, Port>, lps: LogicalPorts, phys: map<string, nat>, ghost pairs: Pairs)
      requires Valid() && Exactly(pairs) && Knows(nni) && nni.rootPort && Passed(lps) && Indexes(phys, lps)
      requires rootDeviceID in devices && rootPorts == devices[rootDeviceID]
      modifies this`Routes, this`devicesPonPorts, this`childConnectionPort
      ensures Valid() && Exactly(pairs + AttachedPairs(devices, rootDeviceID, lps, nni.portNo))
    {
      var todo := rootPorts.Keys;
      ghost var seen: set<string>, stored := {}, pairs;
      while todo != {}
        invariant Valid() && todo <= rootPorts.Keys
        invariant stored == pairs + PairsOfNni(devices, rootDeviceID, lps, nni.portNo, seen) && Exactly(stored)
        invariant forall c, p :: p !in todo && IsParentPon(devices, rootDeviceID, c, p) ==> c in seen
        decreases todo
      {
        var p :| p in todo;
        todo := todo - {p};
        var port := rootPorts[p];
        assert devices[rootDeviceID][p].portNo == p;
        if port.kind == PonOlt {
          RoutePeers(nni, port, lps, phys, stored);
          PairsOfNniUnion(devices, rootDeviceID, lps, nni.portNo, seen, PeerIds(port.peers));
          stored := stored + PairsOfNni(devices, rootDeviceID, lps, nni.portNo, PeerIds(port.peers));
          seen := seen + PeerIds(port.peers);
        }
      }
      AllPeersSeen(devices, rootDeviceID, lps, nni.portNo, seen);
    }

    /** AddNNIPort: pairs the NNI with every attached UNI passed in, and remembers all the ports. */
    method AddNNIPort(lp: LogicalPort, deviceID: string, devicePorts: map<nat, Port>, lps: LogicalPorts, ghost pairs: Pairs)
      requires Valid() && Exactly(pairs)
      requires Knows(lp) && lp.rootPort && Passed(lps)
      requires deviceID == lp.deviceId && deviceID in devices && devicePorts == devices[deviceID]
      modifies this
      ensures Valid() && Recorded(old(logicalPorts), old(RootPorts), lps)
      ensures Exactly(pairs + AttachedPairs(devices, rootDeviceID, lps, lp.portNo))
    {
      assert deviceID == rootDeviceID;
      UpdateCache(deviceID, devicePorts);
      var phys, nniPorts := IndexPorts(lps);
      RouteNNI(lp, devicePorts, lps, phys, pairs);
    }

    /** AddPort, by kind of port.  What it adds is PairsOfPort. */
    method AddPort(lp: LogicalPort, deviceID: string, devicePorts: map<nat, Port>, lps: LogicalPorts, ghost pairs: Pairs)
      returns (r: Result<(), RouteError>)
      requires Valid() && Exactly(pairs)
      requires Knows(lp) && Passed(lps)
      requires deviceID == lp.deviceId && deviceID in devices && devicePorts == devices[deviceID]
      modifies this
      ensures Valid()
      ensures r.Success? <==> lp.rootPort || Attached(devices, rootDeviceID, lp.deviceId)
      ensures Exactly(pairs + PairsOfPort(devices, rootDeviceID, lps, lp))
    {
      if lp.rootPort {
        AddNNIPort(lp, deviceID, devicePorts, lps, pairs);
        return Success(());
      }
      r := AddUNIPort(lp, deviceID, devicePorts, lps, pairs);
      assert pairs + {} == pairs;
    }

    // -------------------------------------------------------------------------------------------
    // In bulk

    /** copyFromExistingNNIRoutes: the new NNI gets every route of the old one. */
    method CopyFromExistingNNIRoutes(newNNIPort: LogicalPort, copyFromNNIPort: LogicalPort, ghost pairs: Pairs)
      requires Exactly(pairs) && Registered(devices, rootDeviceID, registry)
      requires Knows(newNNIPort) && newNNIPort.rootPort && Knows(copyFromNNIPort) && copyFromNNIPort.rootPort
      requires forall u :: (newNNIPort.portNo, u) !in pairs
      modifies this`Routes
      ensures Exactly(pairs + CopiedPairs(pairs, newNNIPort.portNo, copyFromNNIPort.portNo))
    {
      TableIsCopyable(newNNIPort.portNo, copyFromNNIPort.portNo, pairs);
      var updatedRoutes := CopyRoutes(Routes, newNNIPort, copyFromNNIPort.portNo);
      CopiedIsTable(devices, rootDeviceID, registry, pairs, Routes, newNNIPort, copyFromNNIPort.portNo, updatedRoutes);
      Routes := updatedRoutes;
    }

    /**
     ComputeRoutes.  It connects at most two of the NNIs: `chosen` are the ones it connected, whatever the
     iteration orders.  With too few ports it fails before touching anything; later failures leave no route.
     */
    method ComputeRoutes(lps: LogicalPorts) returns (r: Result<(), RouteError>, ghost chosen: set<nat>)
      requires Valid() && Passed(lps)
      modifies this
      ensures Valid()
      ensures |lps| < 2 ==>
        r.Failure? && Routes == old(Routes) && logicalPorts == old(logicalPorts) && RootPorts == old(RootPorts)
      ensures |lps| >= 2 ==> Recorded(map[], map[], lps)
      ensures |lps| >= 2 ==>
        (r.Success? <==> RootsOf(lps) != {} && rootDeviceID in devices && devices[rootDeviceID] != map[])
      ensures |lps| >= 2 && r.Failure? ==> Exactly({})
      ensures r.Success? ==>
        && chosen <= RootsOf(lps) && |chosen| == (if |RootsOf(lps)| < 2 then |RootsOf(lps)| else 2)
        && Exactly(BulkPairs(devices, rootDeviceID, lps, chosen))
    {
      chosen := {};
      if |lps| < 2 {
        return Failure(NoRoute), {};
      }
      Reset();
      r, chosen := Rebuild(lps);
    }

    method Rebuild(lps: LogicalPorts) returns (r: Result<(), RouteError>, ghost chosen: set<nat>)
      requires Valid() && Passed(lps) && Exactly({})
      modifies this
      ensures Valid() && Recorded(old(logicalPorts), old(RootPorts), lps)
      ensures r.Success? <==> RootsOf(lps) != {} && rootDeviceID in devices && devices[rootDeviceID] != map[]
      ensures r.Failure? ==> Exactly({})
      ensures r.Success? ==>
        && chosen <= RootsOf(lps) && |chosen| == (if |RootsOf(lps)| < 2 then |RootsOf(lps)| else 2)
        && Exactly(BulkPairs(devices, rootDeviceID, lps, chosen))
    {
      chosen := {};
      var phys, nniPorts := IndexPorts(lps);
      assert |nniPorts| == |RootsOf(lps)|;
      if |nniPorts| == 0 {
        return Failure(NoRoute), {};
      }
      FirstTwoAreRoots(nniPorts, lps);
      chosen := FirstTwo(nniPorts);
      r := RouteNNIs(lps, phys, nniPorts);
    }

    /** The loop of ComputeRoutes over the NNIs, in the order in which they were listed. */
    method RouteNNIs(lps: LogicalPorts, phys: map<string, nat>, nniPorts: seq<LogicalPort>) returns (r: Result<(), RouteError>)
      requires Valid() && Passed(lps) && Indexes(phys, lps) && ListsRoots(nniPorts, lps) && |nniPorts| > 0 && Exactly({})
      modifies this`Routes, this`devicesPonPorts, this`childConnectionPort
      ensures Valid()
      ensures r.Success? <==> rootDeviceID in devices && devices[rootDeviceID] != map[]
      ensures Exactly(if r.Success? then BulkPairs(devices, rootDeviceID, lps, FirstTwo(nniPorts)) else {})
    {
      r := RouteFirstNNI(nniPorts[0], lps, phys);
      if r.Success? {
        if |nniPorts| < 2 {
          BulkOfOne(devices, rootDeviceID, lps, nniPorts[0].portNo);
        } else {
          RouteLaterNNIs(lps, phys, nniPorts);
        }
      }
    }

    /** NNIs after the first: the second copies and ends the loop, unless there was nothing to copy. */
    method RouteLaterNNIs(lps: LogicalPorts, phys: map<string, nat>, nniPorts: seq<LogicalPort>)
      requires Valid() && Passed(lps) && Indexes(phys, lps) && ListsRoots(nniPorts, lps) && |nniPorts| > 1
      requires Exactly(AttachedPairs(devices, rootDeviceID, lps, nniPorts[0].portNo))
      requires rootDeviceID in devices && devices[rootDeviceID] != map[]
      modifies this`Routes, this`devicesPonPorts, this`childConnectionPort
      ensures Valid() && Exactly(BulkPairs(devices, rootDeviceID, lps, FirstTwo(nniPorts)))
    {
      ghost var stored := AttachedPairs(devices, rootDeviceID, lps, nniPorts[0].portNo);
      for idx := 1 to |nniPorts|
        invariant Valid() && Exactly(stored)
        invariant stored == AttachedPairs(devices, rootDeviceID, lps, nniPorts[0].portNo) && (idx > 1 ==> stored == {})
      {
        var copied := RouteNextNNI(nniPorts[idx], nniPorts[0], lps, phys);
        if copied {
          return;
        }
      }
      NoUniNoPairs(devices, rootDeviceID, lps, nniPorts[0].portNo, nniPorts[0].portNo, FirstTwo(nniPorts));
    }

    method RouteNextNNI(nniPort: LogicalPort, first: LogicalPort, lps: LogicalPorts, phys: map<string, nat>) returns (copied: bool)
      requires Valid() && Passed(lps) && Indexes(phys, lps)
      requires Knows(nniPort) && nniPort.rootPort && Knows(first) && first.rootPort && first.portNo != nniPort.portNo
      requires Exactly(AttachedPairs(devices, rootDeviceID, lps, first.portNo))
      requires rootDeviceID in devices && devices[rootDeviceID] != map[]
      modifies this`Routes, this`devicesPonPorts, this`childConnectionPort
      ensures Valid() && (copied <==> AttachedPairs(devices, rootDeviceID, lps, first.portNo) != {})
      ensures copied ==> Exactly(BulkPairs(devices, rootDeviceID, lps, {first.portNo, nniPort.portNo}))
      ensures !copied ==> Exactly({})
    {
      ghost var pairs := AttachedPairs(devices, rootDeviceID, lps, first.portNo);
      EmptyTableNoPairs(devices, rootDeviceID, registry, pairs, Routes);
      copied := |Routes| > 0;
      if copied {
        CopyFirst(nniPort, first, lps);
      } else {
        RouteInVain(nniPort, first, lps, phys);
      }
    }

    /** An NNI after the first when no UNI is attached: there is nothing to add. */
    method RouteInVain(nniPort: LogicalPort, ghost first: LogicalPort, lps: LogicalPorts, phys: map<string, nat>)
      requires Valid() && Passed(lps) && Indexes(phys, lps) && Exactly({}) && Knows(nniPort) && nniPort.rootPort
      requires rootDeviceID in devices && devices[rootDeviceID] != map[]
      requires AttachedPairs(devices, rootDeviceID, lps, first.portNo) == {}
      modifies this`Routes, this`devicesPonPorts, this`childConnectionPort
      ensures Valid() && Exactly({})
    {
      var again := RouteFirstNNI(nniPort, lps, phys);  // the same device listing as before, so no error
      NoUniNoPairs(devices, rootDeviceID, lps, first.portNo, nniPort.portNo, {});
    }

    method CopyFirst(nniPort: LogicalPort, first: LogicalPort, lps: LogicalPorts)
      requires Valid()
      requires Knows(nniPort) && nniPort.rootPort && Knows(first) && first.rootPort && first.portNo != nniPort.portNo
      requires Exactly(AttachedPairs(devices, rootDeviceID, lps, first.portNo))
      modifies this`Routes
      ensures Valid() && Exactly(BulkPairs(devices, rootDeviceID, lps, {first.portNo, nniPort.portNo}))
    {
      BulkOfTwo(devices, rootDeviceID, lps, first.portNo, nniPort.portNo);
      CopyFromExistingNNIRoutes(nniPort, first, AttachedPairs(devices, rootDeviceID, lps, first.portNo));
    }

    /** Builds the routes of one NNI from the topology, into an empty table. */
    method RouteFirstNNI(nniPort: LogicalPort, lps: LogicalPorts, phys: map<string, nat>) returns (r: Result<(), RouteError>)
      requires Valid() && Passed(lps) && Indexes(phys, lps) && Exactly({}) && Knows(nniPort) && nniPort.rootPort
      modifies this`Routes, this`devicesPonPorts, this`childConnectionPort
      ensures Valid()
      ensures r.Success? <==> rootDeviceID in devices && devices[rootDeviceID] != map[]
      ensures r.Failure? ==> Exactly({})
      ensures r.Success? ==> Exactly(AttachedPairs(devices, rootDeviceID, lps, nniPort.portNo))
    {
      assert nniPort.deviceId == rootDeviceID;
      var rootDevicePorts := GetDeviceWithCacheUpdate(nniPort.deviceId);
      if rootDevicePorts.Failure? {
        return Failure(rootDevicePorts.error);
      }
      if |rootDevicePorts.value| == 0 {
        return Failure(NoPorts);
      }
      RouteNNI(nniPort, rootDevicePorts.value, lps, phys, {});
      assert {} + AttachedPairs(devices, rootDeviceID, lps, nniPort.portNo) == AttachedPairs(devices, rootDeviceID, lps, nniPort.portNo);
      r := Success(());
    }

    // -------------------------------------------------------------------------------------------
    // On demand

    /** getLogicalPorts: the ingress port decides which of the two ports counts as the UNI. */
    function UniOf(ingress: nat, egress: nat): LogicalPort
      requires ingress in logicalPorts && egress in logicalPorts
      reads this`logicalPorts
    {
      if logicalPorts[ingress].rootPort then logicalPorts[egress] else logicalPorts[ingress]
    }

    function NniOf(ingress: nat, egress: nat): LogicalPort
      requires ingress in logicalPorts && egress in logicalPorts
      reads this`logicalPorts
    {
      if logicalPorts[ingress].rootPort then logicalPorts[ingress] else logicalPorts[egress]
    }

    /**
     GetRoute.  A cached route is returned as it is.  Otherwise the route is built from the topology and
     cached under the UNI's device port number, and whatever is then cached for the question is the answer.
     */
    method GetRoute(ingress: nat, egress: nat) returns (r: Result<Route, RouteError>)
      requires Valid()
      modifies this`Routes, this`devicesPonPorts, this`childConnectionPort
      ensures Valid()
      ensures PathId(ingress, egress) in old(Routes) ==>
        Routes == old(Routes) && r == Success(Routes[PathId(ingress, egress)])
      ensures PathId(ingress, egress) !in old(Routes) && !(ingress in logicalPorts && egress in logicalPorts) ==>
        Routes == old(Routes) && r == Failure(NoRoute)
      ensures PathId(ingress, egress) !in old(Routes) && ingress in logicalPorts && egress in logicalPorts ==>
        var uni, nni := UniOf(ingress, egress), NniOf(ingress, egress);
        if Attached(devices, rootDeviceID, uni.deviceId)
        then Routes == OnDemand(devices, rootDeviceID, old(Routes), nni, uni) && r == Success(Answer(Routes, ingress, egress))
        else Routes == old(Routes) && r.Failure?
    {
      var key := PathId(ingress, egress);
      if key in Routes {
        return Success(Routes[key]);
      }
      if ingress !in logicalPorts || egress !in logicalPorts {
        return Failure(NoRoute);
      }
      r := BuildRoute(NniOf(ingress, egress), UniOf(ingress, egress));
      if r.Success? {
        r := Success(Answer(Routes, ingress, egress));
      }
    }

    /** The part of GetRoute that builds and caches. */
    method BuildRoute(nniPort: LogicalPort, uniPort: LogicalPort) returns (r: Result<Route, RouteError>)
      requires Valid()
      modifies this`Routes, this`devicesPonPorts, this`childConnectionPort
      ensures Valid()
      ensures r.Success? <==> Attached(devices, rootDeviceID, uniPort.deviceId)
      ensures r.Success? ==> Routes == OnDemand(devices, rootDeviceID, old(Routes), nniPort, uniPort)
      ensures r.Failure? ==> Routes == old(Routes)
    {
      var childPonPort := GetChildPonPort(uniPort.deviceId);
      if childPonPort.Failure? {
        return Failure(childPonPort.error);
      }
      var rootDevicePonPort := GetParentPonPort(uniPort.deviceId);
      if rootDevicePonPort.Failure? {
        return Failure(rootDevicePonPort.error);
      }
      OnlyWay(devices, rootDeviceID, uniPort.deviceId, rootDevicePonPort.value, childPonPort.value);
      var down := DownstreamVia(nniPort, uniPort, rootDevicePonPort.value, childPonPort.value);
      Routes := Routes[PathId(nniPort.portNo, uniPort.devicePortNo) := down];
      var up := GetReverseRoute(Routes[PathId(nniPort.portNo, uniPort.devicePortNo)]);
      Routes := Routes[PathId(uniPort.devicePortNo, nniPort.portNo) := up];
      r := Success(down);
    }

    /** GetHalfRoute, for any iteration order: some matching route decides, if there is one. */
    method GetHalfRoute(nniAsEgress: bool, ingress: nat, egress: nat) returns (r: Result<Route, RouteError>)
      requires forall k :: k in Routes ==> |Routes[k]| == 2
      ensures r.Success? <==> exists k :: k in Routes && IsHalfMatch(RootPorts.Keys, nniAsEgress, ingress, egress, k)
      ensures r.Success? ==> exists k :: k in Routes && IsHalfMatch(RootPorts.Keys, nniAsEgress, ingress, egress, k)
                                         && r.value == HalfOf(nniAsEgress, Routes[k])
      // case by case
      ensures !nniAsEgress ==> (r.Success? <==> ingress != 0 && exists k :: k in Routes && k.ingress == ingress)
      ensures nniAsEgress && egress != 0 ==> (r.Success? <==> egress in RootPorts && exists k :: k in Routes && k.egress == egress)
      ensures nniAsEgress && egress == 0 ==> (r.Success? <==> exists k :: k in Routes && k.egress in RootPorts)
      ensures !nniAsEgress && r.Success? ==> exists k :: k in Routes && k.ingress == ingress && r.value == [Routes[k][0], EmptyHop]
      ensures nniAsEgress && r.Success? ==>
        exists k :: k in Routes && k.egress in RootPorts && (egress != 0 ==> k.egress == egress) && r.value == [EmptyHop, Routes[k][1]]
    {
      var todo := Routes.Keys;
      while todo != {}
        invariant todo <= Routes.Keys
        invariant forall k :: k in Routes && k !in todo ==> !IsHalfMatch(RootPorts.Keys, nniAsEgress, ingress, egress, k)
        decreases todo
      {
        var routeLink :| routeLink in todo;
        todo := todo - {routeLink};
        var path := Routes[routeLink];
        if nniAsEgress {
          if egress != 0 && egress in RootPorts && routeLink.egress == egress {
            return Success([EmptyHop, path[1]]);
          }
          if egress == 0 && routeLink.egress in RootPorts {
            return Success([EmptyHop, path[1]]);
          }
        } else if ingress != 0 && routeLink.ingress == ingress {
          return Success([path[0], EmptyHop]);
        }
      }
      r := Failure(NoRoute);
    }

    /** isUpToDate: a count, which RouteCounting shows to be exact. */
    method IsUpToDate(ldPorts: Option<LogicalPorts>) returns (b: bool)
      ensures ldPorts.None? ==> (b <==> Routes == map[])
      ensures ldPorts.Some? ==> (b <==> RouteCounting.Counts(|logicalPorts|, |ldPorts.value|, |Routes|, |RootPorts|))
    {
      var numNNI, numUNI := 0, 0;
      if ldPorts.Some? {
        if |logicalPorts| != |ldPorts.value| {
          return false;
        }
        numNNI := |RootPorts|;
        numUNI := |ldPorts.value| - numNNI;
      }
      b := |Routes| == numNNI * numUNI * 2;
    }

    lemma TableIsCopyable(newNni: nat, from: nat, pairs: Pairs)
      requires Exactly(pairs) && newNni in registry && registry[newNni].rootPort && from in registry && registry[from].rootPort
      requires forall u :: (newNni, u) !in pairs
      ensures Copyable(Routes, newNni) && PathId(from, from) !in Routes
    {
      forall k | k in Routes
        ensures k.ingress != newNni && k.egress != newNni && |Routes[k]| == 2
      {
        if (k.ingress, k.egress) in pairs {
          assert k == PathId(k.ingress, k.egress);
        } else {
          assert (k.egress, k.ingress) in pairs && k == PathId(k.ingress, k.egress);
        }
      }
    }
  }

  /** The loop of copyFromExistingNNIRoutes, in any iteration order of the table. */
  method CopyRoutes(routes: Table, newNNIPort: LogicalPort, from: nat) returns (updatedRoutes: Table)
    requires Copyable(routes, newNNIPort.portNo) && PathId(from, from) !in routes
    ensures Copied(routes, routes.Keys, newNNIPort, from, updatedRoutes)
  {
    updatedRoutes := map[];
    var todo := routes.Keys;
    ghost var done: set<PathId> := {};
    while todo != {}
      invariant todo <= routes.Keys && done == routes.Keys - todo
      invariant Copied(routes, done, newNNIPort, from, updatedRoutes)
      decreases todo
    {
      var key :| key in todo;
      todo := todo - {key};
      var val := routes[key];
      ghost var before := updatedRoutes;
      if key.ingress == from {
        updatedRoutes := updatedRoutes[PathId(newNNIPort.portNo, key.egress) := CopyDown(val, newNNIPort)];
      }
      if key.egress == from {
        updatedRoutes := updatedRoutes[PathId(key.ingress, newNNIPort.portNo) := CopyUp(val, newNNIPort)];
      }
      updatedRoutes := updatedRoutes[key := val];
      CopyStepKeepsCopied(routes, done, newNNIPort, from, before, key, updatedRoutes);
      done := done + {key};
    }
    assert done == routes.Keys;
  }

  /** getReverseRoute */
  method GetReverseRoute(route: Route) returns (reverse: Route)
    ensures reverse == Reverse(route)
  {
    reverse := [];
    var j := |route| - 1;
    while j >= 0
      invariant -1 <= j < |route| && |reverse| == |route| - 1 - j
      invariant forall i :: 0 <= i < |reverse| ==> reverse[i] == Reverse(route)[i]
    {
      reverse := reverse + [Back(route[j])];
      j := j - 1;
    }
  }
}
