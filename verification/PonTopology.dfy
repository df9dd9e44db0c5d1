/**
 The physical side of a logical device: one OLT, the root, whose PON ports list the ONUs that hang off
 them, and the numbering of logical ports over device ports.
 */
module PonTopology {

  datatype PortType = EthernetNni | EthernetUni | PonOlt | PonOnu | OtherPort

  datatype Peer = Peer(deviceId: string, portNo: nat)

  datatype Port = Port(portNo: nat, deviceId: string, kind: PortType, peers: seq<Peer>)

  datatype LogicalPort = LogicalPort(portNo: nat, deviceId: string, devicePortNo: nat, rootPort: bool)

  /** What listing a device's ports answers; it fails for a device that is not a key. */
  type Devices = map<string, map<nat, Port>>

  type LogicalPorts = map<nat, LogicalPort>

  ghost predicate Lists(peers: seq<Peer>, deviceId: string) {
    exists i :: 0 <= i < |peers| && peers[i].deviceId == deviceId
  }

  /** Port p is an OLT port of the root that lists device c. */
  ghost predicate IsParentPon(devices: Devices, root: string, c: string, p: nat) {
    && root in devices
    && p in devices[root]
    && devices[root][p].kind == PonOlt
    && Lists(devices[root][p].peers, c)
  }

  /** Port q is the PON port of ONU c. */
  ghost predicate IsChildPon(devices: Devices, c: string, q: nat) {
    c in devices && q in devices[c] && devices[c][q].kind == PonOnu
  }

  /** ONU c can be reached from the root. */
  ghost predicate Attached(devices: Devices, root: string, c: string) {
    (exists p :: IsParentPon(devices, root, c, p)) && (exists q :: IsChildPon(devices, c, q))
  }

  ghost predicate PortsNamed(devices: Devices) {
    forall d, n {:trigger devices[d][n]} :: d in devices && n in devices[d] ==>
      devices[d][n].portNo == n && devices[d][n].deviceId == d
  }

  /**
   The topology routes are built over: every ONU has at most one PON port and hangs off at most one OLT
   port, and what an ONU says about its parent agrees with what the OLT says.
   */
  ghost predicate WellFormed(devices: Devices, root: string) {
    && PortsNamed(devices)
    && (forall d, n {:trigger devices[d][n]} :: d in devices && n in devices[d] ==>
          && (devices[d][n].kind == PonOlt ==> d == root)
          && (devices[d][n].kind == PonOnu ==> d != root))
    && (forall c, q1, q2 :: IsChildPon(devices, c, q1) && IsChildPon(devices, c, q2) ==> q1 == q2)
    && (forall c, p1, p2 :: IsParentPon(devices, root, c, p1) && IsParentPon(devices, root, c, p2) ==> p1 == p2)
    && (forall c, p :: IsParentPon(devices, root, c, p) ==> c != root)
    && (forall c, q, i :: IsChildPon(devices, c, q) && 0 <= i < |devices[c][q].peers| ==>
          IsParentPon(devices, root, c, devices[c][q].peers[i].portNo))
  }

  /**
   Logical ports over that topology: numbers are distinct, every NNI is a port of the root and every
   other logical port is a UNI port of some other device.
   */
  ghost predicate Registered(devices: Devices, root: string, registry: LogicalPorts) {
    && (forall n {:trigger registry[n]} :: n in registry ==> registry[n].portNo == n)
    && (forall n {:trigger registry[n]} :: n in registry ==> (registry[n].rootPort <==> registry[n].deviceId == root))
    && (forall n, m {:trigger registry[n], registry[m]} ::
          (n in registry && m in registry
           && registry[n].deviceId == registry[m].deviceId && registry[n].devicePortNo == registry[m].devicePortNo)
          ==> n == m)
    && (forall n {:trigger registry[n]} :: n in registry && !registry[n].rootPort && registry[n].deviceId in devices ==>
          && registry[n].devicePortNo in devices[registry[n].deviceId]
          && devices[registry[n].deviceId][registry[n].devicePortNo].kind == EthernetUni)
  }

  ghost function ParentPon(devices: Devices, root: string, c: string): (p: nat)
    requires Attached(devices, root, c)
    ensures IsParentPon(devices, root, c, p)
  {
    var p: nat :| IsParentPon(devices, root, c, p); p
  }

  ghost function ChildPon(devices: Devices, root: string, c: string): (q: nat)
    requires Attached(devices, root, c)
    ensures IsChildPon(devices, c, q)
  {
    var q: nat :| IsChildPon(devices, c, q); q
  }

  /** ONU c is reached through OLT port p and its own PON port q. */
  ghost predicate Through(devices: Devices, root: string, c: string, p: nat, q: nat) {
    Attached(devices, root, c) && p == ParentPon(devices, root, c) && q == ChildPon(devices, root, c)
  }

  /** There is only one way to an attached ONU. */
  lemma OnlyWay(devices: Devices, root: string, c: string, p: nat, q: nat)
    requires WellFormed(devices, root) && IsParentPon(devices, root, c, p) && IsChildPon(devices, c, q)
    ensures Through(devices, root, c, p, q)
  {
  }
}
