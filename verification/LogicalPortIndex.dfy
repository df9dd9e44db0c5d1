/** The logical port loader's secondary index: which port numbers belong to which device. */
module LogicalPortIndex {
  import opened PonTopology

  type Lookup = map<string, set<nat>>

  /** The mapped ports, by the number they were created under, and the index. */
  datatype Index = Index(ports: LogicalPorts, deviceLookup: Lookup)

  /** The reference: filter all ports by device. */
  function OwnedBy(ports: LogicalPorts, deviceId: string): set<nat> {
    set n | n in ports && ports[n].deviceId == deviceId
  }

  /** Ports are under their own number, and the buckets are the non-empty filters. */
  ghost predicate Exact(x: Index) {
    && (forall n {:trigger x.ports[n]} :: n in x.ports ==> x.ports[n].portNo == n)
    && (forall n {:trigger x.ports[n]} :: n in x.ports ==> x.ports[n].deviceId in x.deviceLookup)
    && (forall d {:trigger x.deviceLookup[d]} :: d in x.deviceLookup ==>
          x.deviceLookup[d] != {} && x.deviceLookup[d] == OwnedBy(x.ports, d))
  }

  function AddLookup(lookup: Lookup, d: string, n: nat): Lookup {
    if d in lookup then lookup[d := lookup[d] + {n}] else lookup[d := {n}]
  }

  function RemoveLookup(lookup: Lookup, d: string, n: nat): Lookup {
    if d !in lookup then lookup
    else if lookup[d] - {n} == {} then lookup - {d}
    else lookup[d := lookup[d] - {n}]
  }

  datatype Action =
    | Create(port: LogicalPort)            // LockOrCreate
    | Update(id: nat, port: LogicalPort)   // through a handle on the port mapped at id
    | Delete(id: nat)

  predicate Enabled(x: Index, a: Action) {
    !a.Create? ==> a.id in x.ports
  }

  function Next(x: Index, a: Action): Index
    requires Enabled(x, a)
  {
    match a
    case Create(p) =>
      if p.portNo in x.ports then x
      else Index(x.ports[p.portNo := p], AddLookup(x.deviceLookup, p.deviceId, p.portNo))
    case Update(id, p) => x.(ports := x.ports[id := p])
    case Delete(id) =>
      var p := x.ports[id];
      Index(x.ports - {p.portNo}, RemoveLookup(x.deviceLookup, p.deviceId, p.portNo))
  }

  /** An update that keeps the port's number and device. */
  predicate KeepsPlace(x: Index, a: Action)
    requires Enabled(x, a)
  {
    a.Update? ==> a.port.portNo == a.id && a.port.deviceId == x.ports[a.id].deviceId
  }

  lemma CreateKeepsExact(x: Index, p: LogicalPort)
    requires Exact(x)
    ensures Exact(Next(x, Create(p)))
  {
    var y := Next(x, Create(p));
    if p.portNo !in x.ports {
      forall d | d in y.deviceLookup
        ensures y.deviceLookup[d] != {} && y.deviceLookup[d] == OwnedBy(y.ports, d)
      {
        assert OwnedBy(y.ports, d) == OwnedBy(x.ports, d) + if d == p.deviceId then {p.portNo} else {};
        if d !in x.deviceLookup {
          assert OwnedBy(x.ports, d) == {};
        }
      }
    }
  }

  lemma DeleteKeepsExact(x: Index, id: nat)
    requires Exact(x) && id in x.ports
    ensures Exact(Next(x, Delete(id)))
  {
    var p, y := x.ports[id], Next(x, Delete(id));
    assert id in OwnedBy(x.ports, p.deviceId);
    forall d
      ensures OwnedBy(y.ports, d) == OwnedBy(x.ports, d) - if d == p.deviceId then {id} else {}
    {
    }
    forall n | n in y.ports
      ensures y.ports[n].deviceId in y.deviceLookup
    {
      assert x.ports[n] == y.ports[n] && n in OwnedBy(x.ports, x.ports[n].deviceId);
    }
  }

  /** A step keeps the index exact if and only if it does not move a port to another number or device. */
  lemma StepKeepsExactIff(x: Index, a: Action)
    requires Exact(x) && Enabled(x, a)
    ensures Exact(Next(x, a)) <==> KeepsPlace(x, a)
  {
    match a
    case Create(p) => CreateKeepsExact(x, p);
    case Delete(id) => DeleteKeepsExact(x, id);
    case Update(id, p) =>
      var y := Next(x, a);
      var d := x.ports[id].deviceId;
      assert y.ports[id] == p;
      if KeepsPlace(x, a) {
        forall e
          ensures OwnedBy(y.ports, e) == OwnedBy(x.ports, e)
        {
        }
      } else if p.portNo == id {
        assert id in OwnedBy(x.ports, d) && id in y.deviceLookup[d] && id !in OwnedBy(y.ports, d);
      }
  }

  ghost predicate Legal(x: Index, acts: seq<Action>)
    decreases |acts|
  {
    acts == [] || (Enabled(x, acts[0]) && KeepsPlace(x, acts[0]) && Legal(Next(x, acts[0]), acts[1..]))
  }

  ghost function Run(x: Index, acts: seq<Action>): Index
    requires Legal(x, acts)
    decreases |acts|
  {
    if acts == [] then x else Run(Next(x, acts[0]), acts[1..])
  }

  /** After any sequence of creates, updates in place and deletes, looking a device up is filtering all ports by it. */
  lemma {:induction false} LookupRefinesFilter(x: Index, acts: seq<Action>, d: string)
    requires Exact(x) && Legal(x, acts)
    ensures var y := Run(x, acts);
            && Exact(y)
            && (if d in y.deviceLookup then y.deviceLookup[d] else {}) == OwnedBy(y.ports, d)
            && (d in y.deviceLookup <==> OwnedBy(y.ports, d) != {})
    decreases |acts|
  {
    if acts == [] {
      forall n | n in OwnedBy(x.ports, d)
        ensures d in x.deviceLookup
      {
        assert x.ports[n].deviceId == d;
      }
    } else {
      StepKeepsExactIff(x, acts[0]);
      LookupRefinesFilter(Next(x, acts[0]), acts[1..], d);
    }
  }

  class Loader {
    var ports: LogicalPorts
    var deviceLookup: Lookup

    ghost function Contents(): Index
      reads this
    {
      Index(ports, deviceLookup)
    }

    ghost predicate Valid()
      reads this
    {
      Exact(Contents())
    }

    constructor ()
      ensures Valid() && Contents() == Index(map[], map[])
    {
      ports, deviceLookup := map[], map[];
    }

    /** The map part of LockOrCreate. */
    method CreateIfMissing(port: LogicalPort) returns (created: bool)
      requires Valid()
      modifies this
      ensures Valid() && Contents() == Next(old(Contents()), Create(port))
      ensures created <==> port.portNo !in old(ports)
      ensures ports == if created then old(ports)[port.portNo := port] else old(ports)
    {
      CreateKeepsExact(Contents(), port);
      created := port.portNo !in ports;
      if created {
        ports := ports[port.portNo := port];
        PutLookup(port.deviceId, port.portNo);
      }
    }

    /** Handle.Update, on the port mapped at id.  The index stays exact exactly when the port stays in place. */
    method Replace(id: nat, port: LogicalPort)
      requires Valid() && id in ports
      modifies this`ports
      ensures Contents() == Next(old(Contents()), Update(id, port))
      ensures ports == old(ports)[id := port] && deviceLookup == old(deviceLookup)
      ensures Valid() <==> port.portNo == id && port.deviceId == old(ports)[id].deviceId
    {
      StepKeepsExactIff(Contents(), Update(id, port));
      ports := ports[id := port];
    }

    /** The map part of Handle.Delete. */
    method Remove(id: nat)
      requires Valid() && id in ports
      modifies this
      ensures Valid() && Contents() == Next(old(Contents()), Delete(id))
      ensures ports == old(ports) - {id}
    {
      DeleteKeepsExact(Contents(), id);
      var port := ports[id];
      ports := ports - {port.portNo};
      DropLookup(port.deviceId, port.portNo);
    }

    /** ListIDs: a copy of the keys. */
    method ListIDs() returns (ids: set<nat>)
      ensures ids == ports.Keys
    {
      ids := {};
      var todo := ports.Keys;
      while todo != {}
        invariant ids + todo == ports.Keys
        decreases todo
      {
        var id :| id in todo;
        todo := todo - {id};
        ids := ids + {id};
      }
    }

    /** ListIDsForDevice: the ids that filtering ListIDs by device would give, also for an unknown device. */
    method ListIDsForDevice(deviceID: string) returns (ids: set<nat>)
      requires Valid()
      ensures ids == OwnedBy(ports, deviceID)
    {
      LookupRefinesFilter(Contents(), [], deviceID);
      var devicePorts := if deviceID in deviceLookup then deviceLookup[deviceID] else {};
      ids := {};
      var todo := devicePorts;
      while todo != {}
        invariant ids + todo == devicePorts
        decreases todo
      {
        var id :| id in todo;
        todo := todo - {id};
        ids := ids + {id};
      }
    }

    method PutLookup(deviceID: string, portNo: nat)
      modifies this`deviceLookup
      ensures deviceLookup == AddLookup(old(deviceLookup), deviceID, portNo)
    {
      if deviceID in deviceLookup {
        deviceLookup := deviceLookup[deviceID := deviceLookup[deviceID] + {portNo}];
      } else {
        deviceLookup := deviceLookup[deviceID := {portNo}];
      }
    }

    method DropLookup(deviceID: string, portNo: nat)
      modifies this`deviceLookup
      ensures deviceLookup == RemoveLookup(old(deviceLookup), deviceID, portNo)
    {
      if deviceID in deviceLookup {
        var devicePorts := deviceLookup[deviceID] - {portNo};
        if |devicePorts| == 0 {
          deviceLookup := deviceLookup - {deviceID};
        } else {
          deviceLookup := deviceLookup[deviceID := devicePorts];
        }
      }
    }
  }
}
