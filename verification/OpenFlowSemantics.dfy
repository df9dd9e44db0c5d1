/**
 A small packet semantics after the OpenFlow Switch Specification 1.3: matching (section 5.3), apply-actions
 in order (sections 5.9 and 5.12), and goto-table (section 5.1).
 */
module OpenFlowSemantics {
  import opened Prelude

  /** A match field, or a field to set.  A VLAN id of zero stands for a packet without a tag. */
  datatype Field =
    | InPort(portNo: nat)
    | TunnelId(id: nat)
    | EthType(ethType: nat)
    | IpProto(proto: nat)
    | VlanVid(vid: nat)
    | VlanPcp(pcp: nat)
    | Other(kind: nat, value: nat)

  datatype Action = Output(port: nat) | PushVlan(tpid: nat) | PopVlan | SetField(field: Field)

  /** A flow whose instructions are apply-actions, goto-table (zero: none), meter and write-metadata. */
  datatype Flow = Flow(tableId: nat, priority: nat, cookie: nat, fields: seq<Field>, actions: seq<Action>,
                       gotoTable: nat, meterId: nat, writeMetadata: nat)

  datatype Tag = Tag(tpid: nat, vid: nat, pcp: nat)

  datatype Headers = Headers(vlans: seq<Tag>, ethType: nat, ipProto: nat, other: map<nat, nat>)

  /** A packet in a switch: its headers, the port it came in on, and its tunnel. */
  datatype Packet = Packet(inPort: nat, tunnel: nat, h: Headers)

  datatype Sent = Sent(port: nat, h: Headers)

  predicate FieldMatches(f: Field, p: Packet) {
    match f
    case InPort(n) => p.inPort == n
    case TunnelId(n) => p.tunnel == n
    case EthType(n) => p.h.ethType == n
    case IpProto(n) => p.h.ipProto == n
    case VlanVid(n) => (if p.h.vlans == [] then 0 else p.h.vlans[0].vid) == n
    case VlanPcp(n) => p.h.vlans != [] && p.h.vlans[0].pcp == n
    case Other(k, v) => k in p.h.other && p.h.other[k] == v
  }

  predicate Matches(fields: seq<Field>, p: Packet) {
    forall i :: 0 <= i < |fields| ==> FieldMatches(fields[i], p)
  }

  function SetOuter(h: Headers, tag: Tag): Headers {
    if h.vlans == [] then h else h.(vlans := [tag] + h.vlans[1..])
  }

  /** A pushed tag has the given type and copies the rest of the outer tag, or is zero if there is none. */
  function Pushed(h: Headers, tpid: nat): Headers {
    h.(vlans := [if h.vlans == [] then Tag(tpid, 0, 0) else h.vlans[0].(tpid := tpid)] + h.vlans)
  }

  function SetHeader(f: Field, p: Packet): Packet {
    match f
    case InPort(_) => p
    case TunnelId(n) => p.(tunnel := n)
    case EthType(n) => p.(h := p.h.(ethType := n))
    case IpProto(n) => p.(h := p.h.(ipProto := n))
    case VlanVid(n) => if p.h.vlans == [] then p else p.(h := SetOuter(p.h, p.h.vlans[0].(vid := n)))
    case VlanPcp(n) => if p.h.vlans == [] then p else p.(h := SetOuter(p.h, p.h.vlans[0].(pcp := n)))
    case Other(k, v) => p.(h := p.h.(other := p.h.other[k := v]))
  }

  function Step(a: Action, p: Packet): Packet {
    match a
    case Output(_) => p
    case PushVlan(tpid) => p.(h := Pushed(p.h, tpid))
    case PopVlan => if p.h.vlans == [] then p else p.(h := p.h.(vlans := p.h.vlans[1..]))
    case SetField(f) => SetHeader(f, p)
  }

  /** The packet after all actions. */
  function After(actions: seq<Action>, p: Packet): Packet
    decreases |actions|
  {
    if actions == [] then p else After(actions[1..], Step(actions[0], p))
  }

  /** What the actions send, in order, with the headers as they are at that point. */
  function Emits(actions: seq<Action>, p: Packet): seq<Sent>
    decreases |actions|
  {
    if actions == [] then []
    else (if actions[0].Output? then [Sent(actions[0].port, p.h)] else []) + Emits(actions[1..], Step(actions[0], p))
  }

  predicate IsHit(f: Flow, tableId: nat, p: Packet) {
    f.tableId == tableId && Matches(f.fields, p)
  }

  /** The position of the matching flow of a table with the highest priority; of several, the one installed first. */
  function Best(flows: seq<Flow>, tableId: nat, p: Packet): (best: Option<nat>)
    ensures best.Some? ==> best.value < |flows| && IsHit(flows[best.value], tableId, p)
    decreases |flows|
  {
    if flows == [] then None
    else
      var front, f := flows[..|flows| - 1], flows[|flows| - 1];
      var best := Best(front, tableId, p);
      if IsHit(f, tableId, p) && (best.None? || f.priority > front[best.value].priority) then Some(|front|) else best
  }

  /** Nothing is found only if nothing matches, and what is found is the first of maximal priority. */
  lemma {:induction false} BestIsFirstOfHighestPriority(flows: seq<Flow>, tableId: nat, p: Packet, i: nat)
    requires i < |flows| && IsHit(flows[i], tableId, p)
    ensures var best := Best(flows, tableId, p);
            && best.Some?
            && flows[i].priority <= flows[best.value].priority
            && (i < best.value ==> flows[i].priority < flows[best.value].priority)
    decreases |flows|
  {
    if i < |flows| - 1 {
      BestIsFirstOfHighestPriority(flows[..|flows| - 1], tableId, p, i);
    }
  }

  function Lookup(flows: seq<Flow>, tableId: nat, p: Packet): Option<Flow> {
    var best := Best(flows, tableId, p);
    if best.Some? then Some(flows[best.value]) else None
  }

  /** What a switch sends for a packet that enters table t; tables only go forward, and the last is given. */
  function Switch(flows: seq<Flow>, t: nat, last: nat, p: Packet): seq<Sent>
    decreases if t <= last then last - t + 1 else 0
  {
    if t > last then []
    else
      var f := Lookup(flows, t, p);
      if f.None? then []
      else Emits(f.value.actions, p) + if f.value.gotoTable > t then Switch(flows, f.value.gotoTable, last, After(f.value.actions, p)) else []
  }

  // ---------------------------------------------------------------------------------------------
  // Laws

  predicate NoOutput(actions: seq<Action>) {
    forall i :: 0 <= i < |actions| ==> !actions[i].Output?
  }

  lemma {:induction false} SilentEmitsNothing(actions: seq<Action>, p: Packet)
    requires NoOutput(actions)
    ensures Emits(actions, p) == []
    decreases |actions|
  {
    if actions != [] {
      SilentEmitsNothing(actions[1..], Step(actions[0], p));
    }
  }

  lemma {:induction false} TrailingOutput(actions: seq<Action>, port: nat, p: Packet)
    requires NoOutput(actions)
    ensures Emits(actions + [Output(port)], p) == [Sent(port, After(actions, p).h)]
    ensures After(actions + [Output(port)], p) == After(actions, p)
    decreases |actions|
  {
    var all := actions + [Output(port)];
    if actions == [] {
      assert all[1..] == [];
    } else {
      assert all[0] == actions[0] && all[1..] == actions[1..] + [Output(port)];
      TrailingOutput(actions[1..], port, Step(actions[0], p));
    }
  }

  /** The actions do not touch the tunnel. */
  predicate KeepsTunnel(actions: seq<Action>) {
    forall i :: 0 <= i < |actions| ==> !(actions[i].SetField? && actions[i].field.TunnelId?)
  }

  function Moved(p: Packet, inPort: nat, tunnel: nat): Packet {
    Packet(inPort, tunnel, p.h)
  }

  /** The same actions do the same to the headers of a packet that came in elsewhere. */
  lemma {:induction false} ActionsMove(actions: seq<Action>, p: Packet, inPort: nat, tunnel: nat)
    requires KeepsTunnel(actions)
    ensures After(actions, Moved(p, inPort, tunnel)) == Moved(After(actions, p), inPort, tunnel)
    ensures After(actions, p).inPort == p.inPort && After(actions, p).tunnel == p.tunnel
    ensures Emits(actions, Moved(p, inPort, tunnel)) == Emits(actions, p)
    decreases |actions|
  {
    if actions != [] {
      assert Step(actions[0], Moved(p, inPort, tunnel)) == Moved(Step(actions[0], p), inPort, tunnel);
      ActionsMove(actions[1..], Step(actions[0], p), inPort, tunnel);
    }
  }

  lemma MatchesConcat(a: seq<Field>, b: seq<Field>, p: Packet)
    ensures Matches(a + b, p) <==> Matches(a, p) && Matches(b, p)
  {
    if Matches(a + b, p) {
      forall i | 0 <= i < |a|
        ensures FieldMatches(a[i], p)
      {
        assert (a + b)[i] == a[i];
      }
      forall i | 0 <= i < |b|
        ensures FieldMatches(b[i], p)
      {
        assert (a + b)[|a| + i] == b[i];
      }
    }
  }

  /** All lists, one after the other. */
  function Concat(lists: seq<seq<Flow>>): seq<Flow>
    decreases |lists|
  {
    if lists == [] then [] else Concat(lists[..|lists| - 1]) + lists[|lists| - 1]
  }

  /** What is left of flow f in another switch: at most one flow, which is hit exactly when f is, at the same priority. */
  ghost predicate IsImage(f: Flow, tableId: nat, p: Packet, image: seq<Flow>, p': Packet) {
    && |image| <= 1
    && (IsHit(f, tableId, p) ==> |image| == 1 && image[0].priority == f.priority)
    && (|image| == 1 ==> (IsHit(image[0], 0, p') <==> IsHit(f, tableId, p)))
  }

  lemma BestOne(flows: seq<Flow>, f: Flow, tableId: nat, p: Packet)
    ensures var best := Best(flows, tableId, p);
            Best(flows + [f], tableId, p) ==
            if IsHit(f, tableId, p) && (best.None? || f.priority > flows[best.value].priority) then Some(|flows|) else best
  {
    assert (flows + [f])[..|flows|] == flows;
  }

  /** What is found among the images is the image of what is found in the original. */
  ghost predicate SameHit(images: seq<seq<Flow>>, best: Option<nat>, found: Option<Flow>) {
    if best.None? then found.None?
    else best.value < |images| && |images[best.value]| == 1 && found == Some(images[best.value][0])
  }

  ghost predicate AreImages(flows: seq<Flow>, images: seq<seq<Flow>>, tableId: nat, p: Packet, p': Packet) {
    |images| == |flows| && forall i {:trigger images[i]} :: 0 <= i < |flows| ==> IsImage(flows[i], tableId, p, images[i], p')
  }

  lemma {:induction false} LookupSimulation(flows: seq<Flow>, images: seq<seq<Flow>>, tableId: nat, p: Packet, p': Packet)
    requires AreImages(flows, images, tableId, p, p')
    ensures SameHit(images, Best(flows, tableId, p), Lookup(Concat(images), 0, p'))
    decreases |flows|
  {
    if flows != [] {
      var front, before := flows[..|flows| - 1], images[..|images| - 1];
      FrontImages(flows, images, tableId, p, p');
      LookupSimulation(front, before, tableId, p, p');
      SimulateOne(front, before, flows[|flows| - 1], images[|images| - 1], tableId, p, p');
      assert flows == front + [flows[|flows| - 1]] && images == before + [images[|images| - 1]];
    }
  }

  lemma FrontImages(flows: seq<Flow>, images: seq<seq<Flow>>, tableId: nat, p: Packet, p': Packet)
    requires flows != [] && AreImages(flows, images, tableId, p, p')
    ensures AreImages(flows[..|flows| - 1], images[..|images| - 1], tableId, p, p')
    ensures IsImage(flows[|flows| - 1], tableId, p, images[|images| - 1], p')
  {
    var front, before := flows[..|flows| - 1], images[..|images| - 1];
    forall i | 0 <= i < |front|
      ensures IsImage(front[i], tableId, p, before[i], p')
    {
      assert IsImage(flows[i], tableId, p, images[i], p');
    }
  }

  lemma SimulateOne(flows: seq<Flow>, images: seq<seq<Flow>>, f: Flow, image: seq<Flow>, tableId: nat, p: Packet, p': Packet)
    requires AreImages(flows, images, tableId, p, p') && IsImage(f, tableId, p, image, p')
    requires SameHit(images, Best(flows, tableId, p), Lookup(Concat(images), 0, p'))
    ensures SameHit(images + [image], Best(flows + [f], tableId, p), Lookup(Concat(images + [image]), 0, p'))
  {
    var best, all := Best(flows, tableId, p), images + [image];
    BestOne(flows, f, tableId, p);
    LookupImage(Concat(images), image, f, tableId, p, p');
    assert all[..|images|] == images && all[|images|] == image;
    if best.Some? {
      assert IsImage(flows[best.value], tableId, p, images[best.value], p');
      assert all[best.value] == images[best.value];
    }
  }

  lemma LookupImage(flows: seq<Flow>, image: seq<Flow>, f: Flow, tableId: nat, p: Packet, p': Packet)
    requires IsImage(f, tableId, p, image, p')
    ensures var found := Lookup(flows, 0, p');
            if IsHit(f, tableId, p) && (found.None? || f.priority > found.value.priority)
            then |image| == 1 && Lookup(flows + image, 0, p') == Some(image[0])
            else Lookup(flows + image, 0, p') == found
  {
    if |image| == 1 {
      assert image == [image[0]];
      BestOne(flows, image[0], 0, p');
    } else {
      assert flows + image == flows;
    }
  }
}
