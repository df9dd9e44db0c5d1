/**
 The request queue as the source builds it: list nodes and channels on the heap, relinked in place.
 Each method is one block that runs under the queue's mutex, and refines one step of the protocol.
 */
module RequestQueue {
  import opened Prelude
  import opened Channels
  import opened RequestQueueProtocol

  class Node {
    ghost const number: nat
    var prev: Node?
    var next: Node?
    var notifyOnComplete: Chan?

    constructor (prev: Node?, notifyOnComplete: Chan, ghost number: nat)
      ensures this.prev == prev && next == null && this.notifyOnComplete == notifyOnComplete && this.number == number
    {
      this.prev, next, this.notifyOnComplete, this.number := prev, null, notifyOnComplete, number;
    }
  }

  // The protocol names requests and channels by number.

  ghost function LinkTo(p: Node?): Link {
    if p == null then None else Some(p.number)
  }

  ghost predicate Known(nodes: seq<Node>, p: Node?) {
    p != null ==> p.number < |nodes| && nodes[p.number] == p
  }

  ghost predicate Numbered(nodes: seq<Node>) {
    forall i {:trigger nodes[i]} :: 0 <= i < |nodes| ==> nodes[i].number == i
  }

  ghost predicate PrevsMatch(nodes: seq<Node>, prev: seq<Link>)
    reads nodes`prev
  {
    |prev| == |nodes| && forall i {:trigger prev[i]} :: 0 <= i < |nodes| ==> Known(nodes, nodes[i].prev) && prev[i] == LinkTo(nodes[i].prev)
  }

  ghost predicate NextsMatch(nodes: seq<Node>, next: seq<Link>)
    reads nodes`next
  {
    |next| == |nodes| && forall i {:trigger next[i]} :: 0 <= i < |nodes| ==> Known(nodes, nodes[i].next) && next[i] == LinkTo(nodes[i].next)
  }

  ghost predicate NotifiesMatch(nodes: seq<Node>, chans: seq<Chan>, notify: seq<Link>)
    reads nodes`notifyOnComplete
  {
    && |notify| == |nodes|
    && forall i {:trigger notify[i]} :: 0 <= i < |nodes| ==>
         KnownChan(chans, nodes[i].notifyOnComplete) && notify[i] == ChanLink(nodes[i].notifyOnComplete)
  }

  /** A new request at the end, before anything points to it. */
  lemma Extend(nodes: seq<Node>, chans: seq<Chan>, r: Node, ch: Chan, m: State)
    requires Numbered(nodes) && PrevsMatch(nodes, m.prev) && NextsMatch(nodes, m.next)
    requires NotifiesMatch(nodes, chans, m.notify) && ClosedMatch(chans, m.closed)
    requires r.number == |nodes| && Known(nodes, r.prev) && r.next == null && r.notifyOnComplete == ch
    requires ch.number == |chans| && !ch.closed
    ensures Numbered(nodes + [r]) && PrevsMatch(nodes + [r], m.prev + [LinkTo(r.prev)])
    ensures NextsMatch(nodes + [r], m.next + [None])
    ensures NotifiesMatch(nodes + [r], chans + [ch], m.notify + [Some(|chans|)]) && ClosedMatch(chans + [ch], m.closed)
  {
    var ns, cs := nodes + [r], chans + [ch];
    forall i | 0 <= i < |ns|
      ensures Known(ns, ns[i].prev) && (m.prev + [LinkTo(r.prev)])[i] == LinkTo(ns[i].prev)
      ensures Known(ns, ns[i].next) && (m.next + [None])[i] == LinkTo(ns[i].next)
      ensures KnownChan(cs, ns[i].notifyOnComplete) && (m.notify + [Some(|chans|)])[i] == ChanLink(ns[i].notifyOnComplete)
    {
      if i < |nodes| {
        assert m.prev[i] == LinkTo(nodes[i].prev) && m.next[i] == LinkTo(nodes[i].next);
        assert m.notify[i] == ChanLink(nodes[i].notifyOnComplete);
      }
    }
  }

  // Writes through a pointer that may be nil.

  method WritePrev(p: Node?, v: Node?, ghost nodes: seq<Node>, ghost prev: seq<Link>)
    requires Numbered(nodes) && PrevsMatch(nodes, prev) && Known(nodes, p) && Known(nodes, v)
    modifies (if p == null then {} else {p})`prev
    ensures PrevsMatch(nodes, Put(prev, LinkTo(p), LinkTo(v)))
    ensures p != null ==> p.prev == v
  {
    if p != null {
      p.prev := v;
      ghost var after := Put(prev, LinkTo(p), LinkTo(v));
      forall i | 0 <= i < |nodes|
        ensures Known(nodes, nodes[i].prev) && after[i] == LinkTo(nodes[i].prev)
      {
        assert nodes[i].number == i;
        assert i != p.number ==> after[i] == prev[i];
      }
    }
  }

  method WriteNext(p: Node?, v: Node?, ghost nodes: seq<Node>, ghost next: seq<Link>)
    requires Numbered(nodes) && NextsMatch(nodes, next) && Known(nodes, p) && Known(nodes, v)
    modifies (if p == null then {} else {p})`next
    ensures NextsMatch(nodes, Put(next, LinkTo(p), LinkTo(v)))
    ensures p != null ==> p.next == v
  {
    if p != null {
      p.next := v;
      ghost var after := Put(next, LinkTo(p), LinkTo(v));
      forall i | 0 <= i < |nodes|
        ensures Known(nodes, nodes[i].next) && after[i] == LinkTo(nodes[i].next)
      {
        assert nodes[i].number == i;
        assert i != p.number ==> after[i] == next[i];
      }
    }
  }

  method WriteNotify(p: Node?, v: Chan?, ghost nodes: seq<Node>, ghost chans: seq<Chan>, ghost notify: seq<Link>)
    requires Numbered(nodes) && NotifiesMatch(nodes, chans, notify) && Known(nodes, p) && KnownChan(chans, v)
    modifies (if p == null then {} else {p})`notifyOnComplete
    ensures NotifiesMatch(nodes, chans, Put(notify, LinkTo(p), ChanLink(v)))
    ensures p != null ==> p.notifyOnComplete == v
  {
    if p != null {
      p.notifyOnComplete := v;
      ghost var after := Put(notify, LinkTo(p), ChanLink(v));
      forall i | 0 <= i < |nodes|
        ensures KnownChan(chans, nodes[i].notifyOnComplete) && after[i] == ChanLink(nodes[i].notifyOnComplete)
      {
        assert nodes[i].number == i;
        assert i != p.number ==> after[i] == notify[i];
      }
    }
  }

  /** Joins the two neighbours of a request that leaves the list. */
  method Splice(prev: Node?, next: Node?, ghost nodes: seq<Node>, ghost prevs: seq<Link>, ghost nexts: seq<Link>)
    requires Numbered(nodes) && PrevsMatch(nodes, prevs) && NextsMatch(nodes, nexts)
    requires Known(nodes, prev) && Known(nodes, next)
    modifies nodes`prev, nodes`next
    ensures PrevsMatch(nodes, Put(prevs, LinkTo(next), LinkTo(prev)))
    ensures NextsMatch(nodes, Put(nexts, LinkTo(prev), LinkTo(next)))
  {
    WriteNext(prev, next, nodes, nexts);
    WritePrev(next, prev, nodes, prevs);
  }

  /** Clears the links of a request that has left the list. */
  method Detach(r: Node, ghost nodes: seq<Node>, ghost prevs: seq<Link>, ghost nexts: seq<Link>)
    requires Numbered(nodes) && PrevsMatch(nodes, prevs) && NextsMatch(nodes, nexts) && Known(nodes, r)
    modifies nodes`prev, nodes`next
    ensures PrevsMatch(nodes, prevs[r.number := None])
    ensures NextsMatch(nodes, nexts[r.number := None])
  {
    WritePrev(r, null, nodes, prevs);
    WriteNext(r, null, nodes, nexts);
  }

  /** Takes a request out of the list. */
  method Remove(r: Node, ghost nodes: seq<Node>, ghost prevs: seq<Link>, ghost nexts: seq<Link>)
    requires Numbered(nodes) && PrevsMatch(nodes, prevs) && NextsMatch(nodes, nexts) && Known(nodes, r)
    modifies nodes`prev, nodes`next
    ensures PrevsMatch(nodes, Put(prevs, nexts[r.number], prevs[r.number])[r.number := None])
    ensures NextsMatch(nodes, Put(nexts, prevs[r.number], nexts[r.number])[r.number := None])
  {
    var prev, next := r.prev, r.next;
    assert prevs[r.number] == LinkTo(prev) && nexts[r.number] == LinkTo(next);
    Splice(prev, next, nodes, prevs, nexts);
    Detach(r, nodes, Put(prevs, LinkTo(next), LinkTo(prev)), Put(nexts, LinkTo(prev), LinkTo(next)));
  }

  /** Closes the channel of p, if it still has one, and forgets it. */
  method CloseOwn(p: Node, ghost nodes: seq<Node>, ghost chans: seq<Chan>, ghost notify: seq<Link>, ghost closed: set<nat>)
    requires Numbered(nodes) && NotifiesMatch(nodes, chans, notify) && ClosedMatch(chans, closed) && Known(nodes, p)
    requires p.notifyOnComplete != null ==> !p.notifyOnComplete.closed
    modifies p`notifyOnComplete, chans`closed
    ensures NotifiesMatch(nodes, chans, Put(notify, LinkTo(p), None))
    ensures var ch := notify[p.number]; ClosedMatch(chans, if ch.Some? then closed + {ch.value} else closed)
    ensures notify[p.number].Some? ==> notify[p.number].value !in closed
  {
    assert notify[p.number] == ChanLink(p.notifyOnComplete);
    if p.notifyOnComplete != null {
      Close(p.notifyOnComplete, chans, closed);
      WriteNotify(p, null, nodes, chans, notify);
    } else {
      assert Put(notify, LinkTo(p), None) == notify;
    }
  }

  class Queue {
    var last: Node?
    var current: Node?
    var lastCompleteCh: Chan

    // The protocol state this heap stands for, and the objects its numbers name.
    ghost var model: State
    ghost var nodes: seq<Node>
    ghost var chans: seq<Chan>

    /** The heap holds exactly the model. */
    ghost predicate Represents()
      reads this, nodes, chans
    {
      && Shaped(model)
      && |nodes| == |model.phase|
      && |chans| == model.channels
      && Numbered(nodes)
      && Known(nodes, last) && model.last == LinkTo(last)
      && Known(nodes, current) && model.current == LinkTo(current)
      && KnownChan(chans, lastCompleteCh) && model.lastCompleteCh == lastCompleteCh.number
      && PrevsMatch(nodes, model.prev)
      && NextsMatch(nodes, model.next)
      && NotifiesMatch(nodes, chans, model.notify)
      && ClosedMatch(chans, model.closed)
    }

    ghost predicate Valid()
      reads this, nodes, chans
    {
      Represents() && Safe(model)
    }

    constructor ()
      ensures Valid() && fresh(nodes) && fresh(chans) && model == Initial
    {
      var ch := new Chan(true, 0);
      last, current, lastCompleteCh := null, null, ch;
      model, nodes, chans := Initial, [], [ch];
    }

    /** The first block of WaitForGreenLight: join the end of the queue. */
    method Enter() returns (r: Node, waitingOn: Chan)
      requires Represents()
      modifies this, nodes`next
      ensures Represents() && model == Enqueue(old(model))
      ensures nodes == old(nodes) + [r] && fresh(r)
      ensures chans == old(chans) + [lastCompleteCh] && fresh(lastCompleteCh)
      ensures waitingOn == old(lastCompleteCh)
    {
      waitingOn := lastCompleteCh;
      ghost var m := model;
      r := NewRequest();
      WriteNext(last, r, nodes, m.next + [None]);
      last := r;
      model := Enqueue(m);
      assert model.next == Put(m.next + [None], m.last, Some(r.number));
    }

    /** Makes our request and its channel; the previous channel is what we wait on. */
    method NewRequest() returns (r: Node)
      requires Represents()
      modifies this`lastCompleteCh, this`nodes, this`chans
      ensures nodes == old(nodes) + [r] && fresh(r) && r.number == |old(nodes)| && Known(nodes, r)
      ensures chans == old(chans) + [lastCompleteCh] && fresh(lastCompleteCh) && lastCompleteCh.number == |old(chans)|
      ensures Numbered(nodes) && Known(nodes, last) && Known(nodes, current)
      ensures PrevsMatch(nodes, model.prev + [LinkTo(last)]) && NextsMatch(nodes, model.next + [None])
      ensures NotifiesMatch(nodes, chans, model.notify + [Some(model.channels)]) && ClosedMatch(chans, model.closed)
    {
      lastCompleteCh := new Chan(false, |chans|);
      r := new Node(last, lastCompleteCh, |nodes|);
      Extend(nodes, chans, r, lastCompleteCh, model);
      nodes, chans := nodes + [r], chans + [lastCompleteCh];
    }

    /** The green-light block: become the current request and leave the list. */
    method Proceed(r: Node)
      requires Represents() && Known(nodes, r)
      modifies this`last, this`current, this`model, nodes`prev, nodes`next
      ensures Represents() && model == Grant(old(model), r.number)
    {
      current := r;
      if last == r {
        last := r.prev;
      }
      Remove(r, nodes, model.prev, model.next);
      model := Grant(model, r.number);
    }

    /** releaseWithoutLock: nil dereference and double close are what the precondition excludes. */
    method ReleaseWithoutLock()
      requires Represents() && current != null
      requires current.notifyOnComplete != null ==> !current.notifyOnComplete.closed
      modifies this`current, this`model, nodes`prev, nodes`notifyOnComplete, chans`closed
      ensures Represents() && model == Release(old(model))
    {
      ghost var m := model;
      assert m.next[current.number] == LinkTo(current.next);
      CloseOwn(current, nodes, chans, m.notify, m.closed);
      WritePrev(current.next, null, nodes, m.prev);
      current := null;
      model := Release(m);
    }

    /** The cancel block, both branches. */
    method Abort(r: Node, waitingOn: Chan)
      requires Represents() && Known(nodes, r) && KnownChan(chans, waitingOn)
      requires model.waitingOn[r.number] == waitingOn.number
      requires r.notifyOnComplete != null ==> !r.notifyOnComplete.closed
      modifies this`last, this`current, this`model, nodes, chans`closed
      ensures Represents()
      ensures model == if old(waitingOn.closed) then CancelGranted(old(model), r.number, false) else CancelWaiting(old(model), r.number)
    {
      if waitingOn.closed {
        current := r;
        model := Finish(model, r.number).(current := Some(r.number));
        ReleaseWithoutLock();
      } else {
        SkipPosition(r);
      }
    }

    /** The cancel branch that skips our position: pass our channel on and leave the list. */
    method SkipPosition(r: Node)
      requires Represents() && Known(nodes, r)
      modifies this`last, this`model, nodes
      ensures Represents() && model == CancelWaiting(old(model), r.number)
    {
      PassChannelOn(r);
      LeaveList(r);
    }

    /** Removes a waiter from wherever it stands in the list. */
    method LeaveList(r: Node)
      requires Represents() && Known(nodes, r)
      modifies this`last, this`model, nodes`prev, nodes`next
      ensures Represents()
      ensures var m := old(model);
              model == CancelWaiting(m, r.number).(notify := m.notify)
    {
      assert model.prev[r.number] == LinkTo(r.prev) && model.next[r.number] == LinkTo(r.next);
      if r.prev != null && r.next == null {
        last := r.prev;
      } else if r.prev == null && r.next == null {
        last := null;
      }
      Remove(r, nodes, model.prev, model.next);
      model := CancelWaiting(model, r.number).(notify := model.notify);
    }

    /** Our channel goes to the request ahead of us, or to the one being processed. */
    method PassChannelOn(r: Node)
      requires Represents() && Known(nodes, r)
      modifies this`model, nodes`notifyOnComplete
      ensures Represents()
      ensures var m := old(model);
              var p := if m.prev[r.number].Some? then m.prev[r.number] else m.current;
              model == m.(notify := Put(m.notify, p, m.notify[r.number]))
    {
      assert model.prev[r.number] == LinkTo(r.prev) && model.notify[r.number] == ChanLink(r.notifyOnComplete);
      var p := if r.prev != null then r.prev else current;
      WriteNotify(p, r.notifyOnComplete, nodes, chans, model.notify);
      model := model.(notify := Put(model.notify, LinkTo(p), ChanLink(r.notifyOnComplete)));
    }

    // The four operations a client runs, each under the mutex.  Nothing they do can panic.

    /** WaitForGreenLight, first block. */
    method Arrives() returns (r: Node, waitingOn: Chan)
      requires Valid()
      modifies this, nodes`next
      ensures Valid() && model == Next(old(model), Arrive, false)
      ensures nodes == old(nodes) + [r] && chans == old(chans) + [lastCompleteCh] && fresh(r) && fresh(lastCompleteCh)
      ensures r.number == |old(nodes)| && waitingOn == chans[model.waitingOn[r.number]]
    {
      ArriveKeepsSafe(model);
      r, waitingOn := Enter();
    }

    /** WaitForGreenLight after the channel has closed: returns nil. */
    method TakesGreenLight(r: Node, waitingOn: Chan)
      requires Valid() && Known(nodes, r) && KnownChan(chans, waitingOn)
      requires Is(model, r.number, Waiting) && model.waitingOn[r.number] == waitingOn.number && waitingOn.closed
      modifies this`last, this`current, this`model, nodes`prev, nodes`next
      ensures Valid() && model == Next(old(model), Action.Proceed(r.number), false)
    {
      GrantKeepsSafe(model, r.number);
      Proceed(r);
    }

    /** WaitForGreenLight after its context is done: returns the context's error. */
    method Cancels(r: Node, waitingOn: Chan)
      requires Valid() && Known(nodes, r) && KnownChan(chans, waitingOn)
      requires Is(model, r.number, Waiting) && model.waitingOn[r.number] == waitingOn.number
      modifies this`last, this`current, this`model, nodes, chans`closed
      ensures Valid() && model == Next(old(model), Action.Abort(r.number), false)
    {
      StepKeepsSafe(model, Action.Abort(r.number), false);
      assert OwnsChannel(model.phase, r.number, model.notify[r.number], model.closed);
      Abort(r, waitingOn);
    }

    /** RequestComplete, called once by the request that holds the green light. */
    method RequestComplete(ghost r: nat)
      requires Valid() && Is(model, r, Holding)
      modifies this`current, this`model, nodes`prev, nodes`notifyOnComplete, chans`closed
      ensures Valid() && model == Next(old(model), Complete(r), false)
    {
      CompleteKeepsSafe(model, r);
      assert OwnsChannel(model.phase, r, model.notify[r], model.closed);
      model := Finish(model, r);
      ReleaseWithoutLock();
    }
  }
}
