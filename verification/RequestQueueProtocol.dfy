/**
 The request queue as a step relation.

 Every atomic block of the queue runs under its mutex, so an interleaving of goroutines is a
 sequence of the actions below.  Requests are numbered in arrival order and each of their fields is
 a sequence over those numbers; channel 0 is the one that is closed at construction.  `phase`,
 `granted` and `panicked` record what the source does not store: where each goroutine stands, the
 order of nil returns, and whether a nil dereference or a second close has happened.
 */
module RequestQueueProtocol {
  import opened Prelude

  type Link = Option<nat>

  /** Where the goroutine of a request stands. */
  datatype Phase = Waiting | Holding | Done

  datatype State = State(
    phase: seq<Phase>,
    prev: seq<Link>,
    next: seq<Link>,
    notify: seq<Link>,
    waitingOn: seq<nat>,
    last: Link,
    current: Link,
    lastCompleteCh: nat,
    channels: nat,
    closed: set<nat>,
    granted: seq<nat>,
    panicked: bool)

  /** A new queue: its one channel is already closed. */
  const Initial := State([], [], [], [], [], None, None, 0, 1, {0}, [], false)

  datatype Action =
    | Arrive            // a caller joins the queue
    | Proceed(r: nat)   // a waiter sees its channel closed and takes the green light
    | Abort(r: nat)     // a waiter's context is cancelled
    | Complete(r: nat)  // the holder calls RequestComplete, once

  /** Every field is defined for every request. */
  predicate Shaped(s: State) {
    |s.prev| == |s.phase| && |s.next| == |s.phase| && |s.notify| == |s.phase| && |s.waitingOn| == |s.phase|
  }

  predicate Is(s: State, r: nat, p: Phase) {
    r < |s.phase| && s.phase[r] == p
  }

  predicate Enabled(s: State, a: Action)
    requires Shaped(s)
  {
    match a
    case Arrive => true
    case Proceed(r) => Is(s, r, Waiting) && s.waitingOn[r] in s.closed
    case Abort(r) => Is(s, r, Waiting)
    case Complete(r) => Is(s, r, Holding)
  }

  /** A write through a pointer; a nil pointer is not written through. */
  function Put(field: seq<Link>, p: Link, v: Link): (r: seq<Link>)
    ensures |r| == |field|
  {
    if p.Some? && p.value < |field| then field[p.value := v] else field
  }

  function Enqueue(s: State): State
    requires Shaped(s)
  {
    var r := |s.phase|;
    s.(phase := s.phase + [Waiting],
       prev := s.prev + [s.last],
       next := Put(s.next, s.last, Some(r)) + [None],
       notify := s.notify + [Some(s.channels)],
       waitingOn := s.waitingOn + [s.lastCompleteCh],
       last := Some(r),
       lastCompleteCh := s.channels,
       channels := s.channels + 1)
  }

  function Grant(s: State, r: nat): State
    requires Shaped(s) && r < |s.phase|
  {
    s.(phase := s.phase[r := Holding],
       prev := Put(s.prev, s.next[r], s.prev[r])[r := None],
       next := Put(s.next, s.prev[r], s.next[r])[r := None],
       last := if s.last == Some(r) then s.prev[r] else s.last,
       current := Some(r),
       granted := s.granted + [r])
  }

  /** releaseWithoutLock: closes the channel of the current request and forgets the request. */
  function Release(s: State): State
    requires Shaped(s)
  {
    if s.current.None? || s.current.value >= |s.phase| then s.(panicked := true)
    else
      var ch := s.notify[s.current.value];
      s.(prev := Put(s.prev, s.next[s.current.value], None),
         notify := Put(s.notify, s.current, None),
         current := None,
         closed := if ch.Some? then s.closed + {ch.value} else s.closed,
         panicked := s.panicked || (ch.Some? && ch.value in s.closed))
  }

  function Finish(s: State, r: nat): State
    requires Shaped(s) && r < |s.phase|
  {
    s.(phase := s.phase[r := Done])
  }

  /**
   The cancel branch taken when the waiter's channel is already closed.  The source leaves `last`
   alone; `repaired` also moves `last` off a request that is leaving from the tail.
   */
  function CancelGranted(s: State, r: nat, repaired: bool): State
    requires Shaped(s) && r < |s.phase|
  {
    var s1 := Release(Finish(s, r).(current := Some(r)));
    if repaired && s.last == Some(r) then s1.(last := s.prev[r]) else s1
  }

  /** The cancel branch taken while the channel is still open: skip our position in the queue. */
  function CancelWaiting(s: State, r: nat): State
    requires Shaped(s) && r < |s.phase|
  {
    var p, n := s.prev[r], s.next[r];
    var prev :=
      if n.Some? && p.Some? then Put(s.prev, n, p) else if p.Some? then s.prev else Put(s.prev, n, None);
    var next :=
      if n.Some? && p.Some? then Put(s.next, p, n) else if p.Some? then Put(s.next, p, None) else s.next;
    s.(phase := s.phase[r := Done],
       prev := prev[r := None],
       next := next[r := None],
       notify := Put(s.notify, if p.Some? then p else s.current, s.notify[r]),
       last := if p.Some? && n.Some? then s.last else if p.Some? then p else if n.Some? then s.last else None)
  }

  function Next(s: State, a: Action, repaired: bool): (t: State)
    requires Shaped(s) && Enabled(s, a)
    ensures Shaped(t)
  {
    match a
    case Arrive => Enqueue(s)
    case Proceed(r) => Grant(s, r)
    case Abort(r) => if s.waitingOn[r] in s.closed then CancelGranted(s, r, repaired) else CancelWaiting(s, r)
    case Complete(r) => Release(Finish(s, r))
  }

  ghost predicate Legal(s: State, acts: seq<Action>, repaired: bool)
    requires Shaped(s)
    decreases |acts|
  {
    acts == [] || (Enabled(s, acts[0]) && Legal(Next(s, acts[0], repaired), acts[1..], repaired))
  }

  ghost function Run(s: State, acts: seq<Action>, repaired: bool): (t: State)
    requires Shaped(s) && Legal(s, acts, repaired)
    ensures Shaped(t)
    decreases |acts|
  {
    if acts == [] then s else Run(Next(s, acts[0], repaired), acts[1..], repaired)
  }

  // ---------------------------------------------------------------------------------------------
  // Safety of the code as written

  /** Requests between `lo` and `hi`, both excluded, have left the queue. */
  ghost predicate GoneBetween(phase: seq<Phase>, lo: int, hi: int) {
    forall j {:trigger phase[j]} :: lo < j < hi && 0 <= j < |phase| ==> phase[j] == Done
  }

  ghost predicate NoneWaiting(phase: seq<Phase>, lo: int, hi: int) {
    forall j {:trigger phase[j]} :: lo < j < hi && 0 <= j < |phase| ==> phase[j] != Waiting
  }

  /** A live request will close a channel that is still open and that skips only requests that are gone. */
  ghost predicate OwnsChannel(phase: seq<Phase>, r: nat, ch: Link, closed: set<nat>) {
    ch.Some? && r < ch.value <= |phase| && ch.value !in closed && GoneBetween(phase, r, ch.value)
  }

  /** What channels mean: request r waits on channel r, and a closed channel c has no request below c left. */
  ghost predicate ChannelsOrdered(s: State)
    requires Shaped(s)
  {
    && s.channels == |s.phase| + 1
    && s.lastCompleteCh == |s.phase|
    && (forall r {:trigger s.waitingOn[r]} :: 0 <= r < |s.phase| ==> s.waitingOn[r] == r)
    && (forall c <- s.closed :: c <= |s.phase| && GoneBetween(s.phase, -1, c))
    && (forall r {:trigger s.phase[r]} {:trigger s.notify[r]} :: 0 <= r < |s.phase| && s.phase[r] != Done ==>
          OwnsChannel(s.phase, r, s.notify[r], s.closed))
  }

  /** The holder is the current request, and it was reached by a closed channel. */
  ghost predicate HolderIsCurrent(s: State)
    requires Shaped(s)
  {
    && (s.current.Some? ==> Is(s, s.current.value, Holding))
    && (forall r {:trigger s.phase[r]} :: 0 <= r < |s.phase| && s.phase[r] == Holding ==>
          s.current == Some(r) && r in s.closed && s.next[r].None?)
  }

  ghost predicate PrevOk(phase: seq<Phase>, next: seq<Link>, r: nat, p: Link)
    requires |next| == |phase|
  {
    match p
    case None => NoneWaiting(phase, -1, r)
    case Some(p) =>
      && p < r
      && p < |phase|
      && phase[p] != Holding
      && NoneWaiting(phase, p, r)
      && (if phase[p] == Waiting then next[p] == Some(r) else NoneWaiting(phase, -1, r))
  }

  ghost predicate NextOk(phase: seq<Phase>, prev: seq<Link>, r: nat, n: Link, last: Link)
    requires |prev| == |phase|
  {
    match n
    case None => last == Some(r)
    case Some(n) => r < n < |phase| && phase[n] == Waiting && prev[n] == Some(r)
  }

  ghost predicate LastOk(phase: seq<Phase>, next: seq<Link>, last: Link)
    requires |next| == |phase|
  {
    match last
    case None => NoneWaiting(phase, -1, |phase|)
    case Some(l) =>
      && l < |phase|
      && phase[l] != Holding
      && NoneWaiting(phase, l, |phase|)
      && (if phase[l] == Waiting then next[l].None? else NoneWaiting(phase, -1, |phase|))
  }

  /** The links between waiting requests; the oldest may still point back at a request that is gone. */
  ghost predicate Linked(s: State)
    requires Shaped(s)
  {
    && LastOk(s.phase, s.next, s.last)
    && (forall r {:trigger s.phase[r]} :: 0 <= r < |s.phase| && s.phase[r] == Waiting ==>
          && PrevOk(s.phase, s.next, r, s.prev[r])
          && NextOk(s.phase, s.prev, r, s.next[r], s.last))
  }

  /** The green lights already given: in arrival order, each through a closed channel. */
  ghost predicate GrantsInOrder(s: State) {
    && (forall i {:trigger s.granted[i]} :: 0 <= i < |s.granted| ==>
          s.granted[i] < |s.phase| && s.granted[i] in s.closed && s.phase[s.granted[i]] != Waiting)
    && (forall i, j :: 0 <= i < j < |s.granted| ==> s.granted[i] < s.granted[j])
  }

  ghost predicate Safe(s: State)
    requires Shaped(s)
  {
    && !s.panicked
    && ChannelsOrdered(s)
    && HolderIsCurrent(s)
    && Linked(s)
    && GrantsInOrder(s)
  }

  lemma ArriveKeepsSafe(s: State)
    requires Shaped(s) && Safe(s)
    ensures Safe(Enqueue(s))
  {
    var t := Enqueue(s);
    assert ChannelsOrdered(t) && HolderIsCurrent(t) && GrantsInOrder(t);
    forall j: nat | Is(t, j, Waiting)
      ensures PrevOk(t.phase, t.next, j, t.prev[j]) && NextOk(t.phase, t.prev, j, t.next[j], t.last)
    {
      ArriveKeepsLinks(s, j);
    }
  }

  lemma ArriveKeepsLinks(s: State, j: nat)
    requires Shaped(s) && HolderIsCurrent(s) && Linked(s) && Is(Enqueue(s), j, Waiting)
    ensures var t := Enqueue(s);
            PrevOk(t.phase, t.next, j, t.prev[j]) && NextOk(t.phase, t.prev, j, t.next[j], t.last)
  {
  }

  lemma GrantKeepsSafe(s: State, r: nat)
    requires Shaped(s) && Safe(s) && Is(s, r, Waiting) && r in s.closed
    ensures Safe(Grant(s, r))
  {
    var t := Grant(s, r);
    assert GoneBetween(s.phase, -1, r);
    GrantKeepsChannels(s, r);
    GrantKeepsLast(s, r);
    forall j: nat | Is(t, j, Waiting)
      ensures PrevOk(t.phase, t.next, j, t.prev[j]) && NextOk(t.phase, t.prev, j, t.next[j], t.last)
    {
      GrantKeepsLinks(s, r, j);
    }
  }

  lemma GrantKeepsChannels(s: State, r: nat)
    requires Shaped(s) && Safe(s) && Is(s, r, Waiting) && r in s.closed
    ensures var t := Grant(s, r); ChannelsOrdered(t) && HolderIsCurrent(t) && GrantsInOrder(t)
  {
    GrantKeepsOwners(s, r);
    GrantKeepsHolder(s, r);
    GrantKeepsOrder(s, r);
  }

  lemma GrantKeepsOwners(s: State, r: nat)
    requires Shaped(s) && ChannelsOrdered(s) && Is(s, r, Waiting) && r in s.closed
    ensures ChannelsOrdered(Grant(s, r))
  {
    var t := Grant(s, r);
    assert forall j {:trigger t.phase[j]} :: 0 <= j < |t.phase| && j != r ==> t.phase[j] == s.phase[j];
    forall j: nat | j < |t.phase| && t.phase[j] != Done
      ensures OwnsChannel(t.phase, j, t.notify[j], t.closed)
    {
      assert OwnsChannel(s.phase, j, s.notify[j], s.closed);
    }
  }

  lemma GrantKeepsHolder(s: State, r: nat)
    requires Shaped(s) && Safe(s) && Is(s, r, Waiting) && r in s.closed
    ensures HolderIsCurrent(Grant(s, r))
  {
    assert GoneBetween(s.phase, -1, r) && s.phase[r] == Waiting;
    assert s.current.None?;
  }

  lemma GrantKeepsOrder(s: State, r: nat)
    requires Shaped(s) && Safe(s) && Is(s, r, Waiting) && r in s.closed
    ensures GrantsInOrder(Grant(s, r))
  {
    assert GoneBetween(s.phase, -1, r) && s.phase[r] == Waiting;
    forall i | 0 <= i < |s.granted|
      ensures s.granted[i] < r
    {
      assert s.granted[i] in s.closed && s.phase[s.granted[i]] != Waiting;
    }
  }

  lemma GrantKeepsLast(s: State, r: nat)
    requires Shaped(s) && Linked(s) && Is(s, r, Waiting) && GoneBetween(s.phase, -1, r)
    ensures var t := Grant(s, r); LastOk(t.phase, t.next, t.last)
  {
  }

  lemma GrantKeepsLinks(s: State, r: nat, j: nat)
    requires Shaped(s) && Linked(s) && Is(s, r, Waiting) && GoneBetween(s.phase, -1, r) && Is(Grant(s, r), j, Waiting)
    ensures var t := Grant(s, r);
            PrevOk(t.phase, t.next, j, t.prev[j]) && NextOk(t.phase, t.prev, j, t.next[j], t.last)
  {
  }

  lemma CompleteKeepsSafe(s: State, r: nat)
    requires Shaped(s) && Safe(s) && Is(s, r, Holding)
    ensures Safe(Release(Finish(s, r)))
  {
    var t := Release(Finish(s, r));
    assert s.current == Some(r) && t.prev == s.prev && t.next == s.next && t.last == s.last;
    CompleteKeepsChannels(s, r);
    forall j: nat | Is(t, j, Waiting)
      ensures PrevOk(t.phase, t.next, j, t.prev[j]) && NextOk(t.phase, t.prev, j, t.next[j], t.last)
    {
      CompleteKeepsLinks(s, t, r, j);
    }
    CompleteKeepsLast(s, t, r);
  }

  lemma CompleteKeepsChannels(s: State, r: nat)
    requires Shaped(s) && Safe(s) && Is(s, r, Holding)
    ensures var t := Release(Finish(s, r)); ChannelsOrdered(t) && HolderIsCurrent(t) && GrantsInOrder(t)
  {
  }

  /** What completing request r does to the list: nothing but its phase. */
  ghost predicate Completed(s: State, t: State, r: nat)
    requires Shaped(s) && Shaped(t) && r < |s.phase|
  {
    t.phase == s.phase[r := Done] && t.prev == s.prev && t.next == s.next && t.last == s.last
  }

  lemma CompleteKeepsLast(s: State, t: State, r: nat)
    requires Shaped(s) && Shaped(t) && Linked(s) && Is(s, r, Holding) && Completed(s, t, r)
    ensures LastOk(t.phase, t.next, t.last)
  {
  }

  lemma CompleteKeepsLinks(s: State, t: State, r: nat, j: nat)
    requires Shaped(s) && Shaped(t) && Linked(s) && Is(s, r, Holding) && Completed(s, t, r) && Is(t, j, Waiting)
    ensures PrevOk(t.phase, t.next, j, t.prev[j]) && NextOk(t.phase, t.prev, j, t.next[j], t.last)
  {
    assert PrevOk(s.phase, s.next, j, s.prev[j]) && NextOk(s.phase, s.prev, j, s.next[j], s.last);
  }

  lemma CancelGrantedKeepsSafe(s: State, r: nat, repaired: bool)
    requires Shaped(s) && Safe(s) && Is(s, r, Waiting) && r in s.closed
    ensures Safe(CancelGranted(s, r, repaired))
  {
    var t := CancelGranted(s, r, repaired);
    assert GoneBetween(s.phase, -1, r);
    CancelGrantedKeepsChannels(s, r, repaired);
    forall j: nat | Is(t, j, Waiting)
      ensures PrevOk(t.phase, t.next, j, t.prev[j]) && NextOk(t.phase, t.prev, j, t.next[j], t.last)
    {
      CancelGrantedKeepsLinks(s, r, repaired, j);
    }
  }

  lemma CancelGrantedKeepsChannels(s: State, r: nat, repaired: bool)
    requires Shaped(s) && Safe(s) && Is(s, r, Waiting) && r in s.closed
    ensures var t := CancelGranted(s, r, repaired); ChannelsOrdered(t) && HolderIsCurrent(t) && GrantsInOrder(t)
  {
    CancelGrantedKeepsHolder(s, r, repaired);
    CancelGrantedKeepsOwners(s, r, repaired);
  }

  lemma CancelGrantedKeepsHolder(s: State, r: nat, repaired: bool)
    requires Shaped(s) && Safe(s) && Is(s, r, Waiting) && r in s.closed
    ensures var t := CancelGranted(s, r, repaired); HolderIsCurrent(t) && GrantsInOrder(t)
  {
    assert GoneBetween(s.phase, -1, r) && s.phase[r] == Waiting;
    assert OwnsChannel(s.phase, r, s.notify[r], s.closed);
  }

  lemma CancelGrantedKeepsOwners(s: State, r: nat, repaired: bool)
    requires Shaped(s) && ChannelsOrdered(s) && HolderIsCurrent(s) && Is(s, r, Waiting) && r in s.closed
    ensures ChannelsOrdered(CancelGranted(s, r, repaired))
  {
    var t := CancelGranted(s, r, repaired);
    var ch := s.notify[r].value;
    assert GoneBetween(s.phase, -1, r) && OwnsChannel(s.phase, r, s.notify[r], s.closed);
    assert t.phase == s.phase[r := Done] && t.closed == s.closed + {ch} && GoneBetween(t.phase, -1, ch);
    forall j: nat | j < |t.phase| && t.phase[j] != Done
      ensures OwnsChannel(t.phase, j, t.notify[j], t.closed)
    {
      assert OwnsChannel(s.phase, j, s.notify[j], s.closed);
      assert s.phase[j] == Waiting && ch <= j;
    }
  }

  lemma CancelGrantedKeepsLinks(s: State, r: nat, repaired: bool, j: nat)
    requires Shaped(s) && Linked(s) && Is(s, r, Waiting) && GoneBetween(s.phase, -1, r)
    requires Is(CancelGranted(s, r, repaired), j, Waiting)
    ensures var t := CancelGranted(s, r, repaired);
            PrevOk(t.phase, t.next, j, t.prev[j]) && NextOk(t.phase, t.prev, j, t.next[j], t.last)
  {
  }

  lemma CancelWaitingKeepsSafe(s: State, r: nat)
    requires Shaped(s) && Safe(s) && Is(s, r, Waiting) && r !in s.closed
    ensures Safe(CancelWaiting(s, r))
  {
    var t := CancelWaiting(s, r);
    CancelWaitingKeepsChannels(s, r);
    CancelWaitingKeepsLast(s, r);
    forall j: nat | Is(t, j, Waiting)
      ensures PrevOk(t.phase, t.next, j, t.prev[j]) && NextOk(t.phase, t.prev, j, t.next[j], t.last)
    {
      CancelWaitingKeepsPrev(s, r, j);
      CancelWaitingKeepsNext(s, r, j);
    }
  }

  lemma CancelWaitingKeepsChannels(s: State, r: nat)
    requires Shaped(s) && Safe(s) && Is(s, r, Waiting) && r !in s.closed
    ensures var t := CancelWaiting(s, r); ChannelsOrdered(t) && HolderIsCurrent(t) && GrantsInOrder(t)
  {
    var t := CancelWaiting(s, r);
    assert HolderIsCurrent(t) && GrantsInOrder(t);
    forall j: nat | j < |t.phase| && t.phase[j] != Done
      ensures OwnsChannel(t.phase, j, t.notify[j], t.closed)
    {
      CancelWaitingKeepsOwner(s, r, j);
    }
  }

  lemma CancelWaitingKeepsOwner(s: State, r: nat, j: nat)
    requires Shaped(s) && Safe(s) && Is(s, r, Waiting) && r !in s.closed && j < |s.phase| && j != r && s.phase[j] != Done
    ensures var t := CancelWaiting(s, r); OwnsChannel(t.phase, j, t.notify[j], t.closed)
  {
    assert PrevOk(s.phase, s.next, r, s.prev[r]);
    assert OwnsChannel(s.phase, j, s.notify[j], s.closed) && OwnsChannel(s.phase, r, s.notify[r], s.closed);
  }

  lemma CancelWaitingKeepsLast(s: State, r: nat)
    requires Shaped(s) && Linked(s) && Is(s, r, Waiting)
    ensures var t := CancelWaiting(s, r); LastOk(t.phase, t.next, t.last)
  {
  }

  lemma CancelWaitingKeepsPrev(s: State, r: nat, j: nat)
    requires Shaped(s) && Linked(s) && Is(s, r, Waiting) && Is(s, j, Waiting) && j != r
    ensures var t := CancelWaiting(s, r); PrevOk(t.phase, t.next, j, t.prev[j])
  {
    assert PrevOk(s.phase, s.next, r, s.prev[r]) && NextOk(s.phase, s.prev, r, s.next[r], s.last);
    assert PrevOk(s.phase, s.next, j, s.prev[j]);
    if s.next[r] == Some(j) {
      CancelWaitingJoins(s, r, j);
    } else {
      CancelWaitingKeepsOtherPrev(s, r, j);
    }
  }

  /** The waiter behind r now follows whoever r followed. */
  lemma CancelWaitingJoins(s: State, r: nat, j: nat)
    requires Shaped(s) && Is(s, r, Waiting) && Is(s, j, Waiting) && s.next[r] == Some(j) && s.prev[j] == Some(r)
    requires PrevOk(s.phase, s.next, r, s.prev[r]) && PrevOk(s.phase, s.next, j, s.prev[j])
    ensures var t := CancelWaiting(s, r); PrevOk(t.phase, t.next, j, t.prev[j])
  {
    var t := CancelWaiting(s, r);
    assert t.prev[j] == s.prev[r];
    var lo := if s.prev[r].Some? then s.prev[r].value as int else -1;
    assert NoneWaiting(t.phase, lo, j) by {
      forall k {:trigger t.phase[k]} | lo < k < j && 0 <= k < |t.phase|
        ensures t.phase[k] != Waiting
      {
        assert k == r || t.phase[k] == s.phase[k];
      }
    }
    assert forall k {:trigger t.phase[k]} :: 0 <= k < |t.phase| && k != r ==> t.phase[k] == s.phase[k];
  }

  lemma CancelWaitingKeepsOtherPrev(s: State, r: nat, j: nat)
    requires Shaped(s) && Is(s, r, Waiting) && Is(s, j, Waiting) && j != r && s.next[r] != Some(j)
    requires PrevOk(s.phase, s.next, r, s.prev[r]) && PrevOk(s.phase, s.next, j, s.prev[j])
    ensures var t := CancelWaiting(s, r); t.prev[j] == s.prev[j] && PrevOk(t.phase, t.next, j, t.prev[j])
  {
    var t := CancelWaiting(s, r);
    assert t.prev[j] == s.prev[j];
    assert s.prev[j] != Some(r);
    assert forall k {:trigger t.phase[k]} :: 0 <= k < |t.phase| && k != r ==> t.phase[k] == s.phase[k];
    assert s.prev[j].Some? && Is(s, s.prev[j].value, Waiting) ==> s.prev[j] != s.prev[r];
  }

  lemma CancelWaitingKeepsNext(s: State, r: nat, j: nat)
    requires Shaped(s) && Linked(s) && Is(s, r, Waiting) && Is(CancelWaiting(s, r), j, Waiting)
    ensures var t := CancelWaiting(s, r); NextOk(t.phase, t.prev, j, t.next[j], t.last)
  {
  }

  lemma StepKeepsSafe(s: State, a: Action, repaired: bool)
    requires Shaped(s) && Safe(s) && Enabled(s, a)
    ensures Safe(Next(s, a, repaired))
  {
    match a
    case Arrive => ArriveKeepsSafe(s);
    case Proceed(r) => GrantKeepsSafe(s, r);
    case Abort(r) =>
      if r in s.closed {
        CancelGrantedKeepsSafe(s, r, repaired);
      } else {
        CancelWaitingKeepsSafe(s, r);
      }
    case Complete(r) => CompleteKeepsSafe(s, r);
  }

  lemma {:induction false} RunKeepsSafe(s: State, acts: seq<Action>, repaired: bool)
    requires Shaped(s) && Safe(s) && Legal(s, acts, repaired)
    ensures Safe(Run(s, acts, repaired))
    decreases |acts|
  {
    if acts != [] {
      StepKeepsSafe(s, acts[0], repaired);
      RunKeepsSafe(Next(s, acts[0], repaired), acts[1..], repaired);
    }
  }

  // What the history records, read off the actions alone.

  /** The requests that were given the green light, in order. */
  function Grants(acts: seq<Action>): seq<nat> {
    if acts == [] then [] else (if acts[0].Proceed? then [acts[0].r] else []) + Grants(acts[1..])
  }

  /** How many requests arrived; they are numbered in that order. */
  function Arrivals(acts: seq<Action>): nat {
    if acts == [] then 0 else (if acts[0].Arrive? then 1 else 0) + Arrivals(acts[1..])
  }

  lemma NextHistory(s: State, a: Action, repaired: bool)
    requires Shaped(s) && Enabled(s, a)
    ensures Next(s, a, repaired).granted == s.granted + if a.Proceed? then [a.r] else []
    ensures |Next(s, a, repaired).phase| == |s.phase| + if a.Arrive? then 1 else 0
  {
  }

  lemma {:induction false} HistoryIs(s: State, acts: seq<Action>, repaired: bool)
    requires Shaped(s) && Legal(s, acts, repaired)
    ensures Run(s, acts, repaired).granted == s.granted + Grants(acts)
    ensures |Run(s, acts, repaired).phase| == |s.phase| + Arrivals(acts)
    decreases |acts|
  {
    if acts != [] {
      NextHistory(s, acts[0], repaired);
      HistoryIs(Next(s, acts[0], repaired), acts[1..], repaired);
      ConcatIsAssociative(s.granted, if acts[0].Proceed? then [acts[0].r] else [], Grants(acts[1..]));
    }
  }

  lemma HolderIsAlone(s: State)
    requires Shaped(s) && HolderIsCurrent(s)
    ensures forall r: nat, q: nat :: Is(s, r, Holding) && Is(s, q, Holding) ==> r == q
    ensures forall r: nat :: Is(s, r, Holding) ==> s.current == Some(r)
  {
  }

  lemma HolderIsOldest(s: State, r: nat, q: nat)
    requires Shaped(s) && ChannelsOrdered(s) && HolderIsCurrent(s) && Is(s, r, Holding) && Is(s, q, Waiting)
    ensures r < q
  {
    assert r in s.closed && GoneBetween(s.phase, -1, r);
  }

  lemma GrantsAreOrdered(s: State)
    requires Shaped(s) && GrantsInOrder(s)
    ensures forall i, j :: 0 <= i < j < |s.granted| ==> s.granted[i] < s.granted[j] < |s.phase|
  {
  }

  /**
   Mutual exclusion and FIFO for the code as written, in every state of every interleaving, however
   waiters cancel: nothing panics, at most one request holds the green light and it is `current`, and
   green lights are given in arrival order with nobody older still waiting.
   */
  lemma MutualExclusionAndFifo(acts: seq<Action>)
    requires Legal(Initial, acts, false)
    ensures var s := Run(Initial, acts, false);
            && !s.panicked
            && (forall r: nat, q: nat :: Is(s, r, Holding) && Is(s, q, Holding) ==> r == q)
            && (forall r: nat :: Is(s, r, Holding) ==> s.current == Some(r))
            && |s.phase| == Arrivals(acts)
            && (forall i, j :: 0 <= i < j < |Grants(acts)| ==> Grants(acts)[i] < Grants(acts)[j] < Arrivals(acts))
            && (forall r: nat, q: nat :: Is(s, r, Holding) && Is(s, q, Waiting) ==> r < q)
  {
    var s := Run(Initial, acts, false);
    RunKeepsSafe(Initial, acts, false);
    HistoryIs(Initial, acts, false);
    assert s.granted == Grants(acts);
    HolderIsAlone(s);
    GrantsAreOrdered(s);
    forall r: nat, q: nat | Is(s, r, Holding) && Is(s, q, Waiting)
      ensures r < q
    {
      HolderIsOldest(s, r, q);
    }
  }

  // ---------------------------------------------------------------------------------------------
  // No lost wakeup

  /** Channel c is closed, or the current request will close it. */
  ghost predicate Fed(s: State, c: nat)
    requires Shaped(s)
  {
    c in s.closed || (s.current.Some? && s.current.value < |s.phase| && s.notify[s.current.value] == Some(c))
  }

  /** Link p leads to whoever will close channel c, unless it names a request that has left the queue. */
  ghost predicate Hands(s: State, p: Link, c: nat)
    requires Shaped(s)
  {
    match p
    case None => Fed(s, c)
    case Some(p) => p < |s.phase| && (s.phase[p] == Waiting ==> s.notify[p] == Some(c))
  }

  /** Every waiter waits on the channel of its predecessor, and so will the next arrival, if those are still waiting. */
  ghost predicate Woven(s: State)
    requires Shaped(s)
  {
    && Hands(s, s.last, s.lastCompleteCh)
    && (forall r {:trigger s.phase[r]} :: 0 <= r < |s.phase| && s.phase[r] == Waiting ==> Hands(s, s.prev[r], s.waitingOn[r]))
  }

  ghost predicate IsLive(s: State, p: Link)
    requires Shaped(s)
  {
    p.Some? ==> Is(s, p.value, Waiting)
  }

  /** No link names a request that has left the queue. */
  ghost predicate Rooted(s: State)
    requires Shaped(s)
  {
    && IsLive(s, s.last)
    && (forall r {:trigger s.phase[r]} :: 0 <= r < |s.phase| && s.phase[r] == Waiting ==> IsLive(s, s.prev[r]))
  }

  /** Every waiter, and the next arrival, waits on the channel of its live predecessor. */
  ghost predicate Awake(s: State)
    requires Shaped(s)
  {
    Woven(s) && Rooted(s)
  }

  /** While nobody holds the green light, the oldest waiter can proceed, or the next arrival will. */
  ghost predicate NoLostWakeup(s: State)
    requires Shaped(s)
  {
    s.current.None? ==>
      && (NoneWaiting(s.phase, -1, |s.phase|) ==> s.lastCompleteCh in s.closed)
      && (forall r: nat :: Is(s, r, Waiting) && NoneWaiting(s.phase, -1, r) ==> s.waitingOn[r] in s.closed)
  }

  /** The cancel-after-grant branch taken by the request at the tail of the list. */
  predicate TailCancel(s: State, a: Action)
    requires Shaped(s)
  {
    a.Abort? && Is(s, a.r, Waiting) && s.waitingOn[a.r] in s.closed && s.last == Some(a.r)
  }

  ghost predicate NoTailCancel(s: State, acts: seq<Action>)
    requires Shaped(s) && Legal(s, acts, false)
    decreases |acts|
  {
    acts == [] || (!TailCancel(s, acts[0]) && NoTailCancel(Next(s, acts[0], false), acts[1..]))
  }

  lemma AwakeMeansNoLostWakeup(s: State)
    requires Shaped(s) && Safe(s) && Awake(s)
    ensures NoLostWakeup(s)
  {
    if s.current.None? {
      forall r: nat | Is(s, r, Waiting) && NoneWaiting(s.phase, -1, r)
        ensures s.waitingOn[r] in s.closed
      {
        assert Hands(s, s.prev[r], s.waitingOn[r]) && IsLive(s, s.prev[r]);
        assert PrevOk(s.phase, s.next, r, s.prev[r]);
      }
    }
  }

  lemma ArriveKeepsWoven(s: State)
    requires Shaped(s) && Safe(s) && Woven(s)
    ensures Woven(Enqueue(s))
  {
  }

  /** The oldest waiter follows nobody, or somebody who is gone; every other waiter follows a waiter. */
  lemma Follows(s: State, r: nat, j: nat)
    requires Shaped(s) && Linked(s) && Is(s, r, Waiting) && GoneBetween(s.phase, -1, r)
    requires Is(s, j, Waiting) && j != r
    ensures s.prev[j].Some? && Is(s, s.prev[j].value, Waiting)
    ensures s.prev[r].Some? ==> !Is(s, s.prev[r].value, Waiting)
    ensures s.last.Some? && Is(s, s.last.value, Waiting)
    ensures s.prev[j] == Some(r) <==> s.next[r] == Some(j)
  {
    assert PrevOk(s.phase, s.next, j, s.prev[j]) && PrevOk(s.phase, s.next, r, s.prev[r]);
    assert NextOk(s.phase, s.prev, r, s.next[r], s.last);
    assert s.phase[r] == Waiting;
  }

  lemma OldestFollowsNobody(s: State, r: nat)
    requires Shaped(s) && Linked(s) && Is(s, r, Waiting) && GoneBetween(s.phase, -1, r)
    ensures s.prev[r].Some? ==> s.prev[r].value < |s.phase| && s.phase[s.prev[r].value] == Done
    ensures s.last.Some? && Is(s, s.last.value, Waiting)
  {
    assert PrevOk(s.phase, s.next, r, s.prev[r]);
    assert s.phase[r] == Waiting;
  }

  lemma GrantKeepsWoven(s: State, r: nat)
    requires Shaped(s) && Safe(s) && Woven(s) && Is(s, r, Waiting) && r in s.closed
    ensures Woven(Grant(s, r))
  {
    var t := Grant(s, r);
    assert GoneBetween(s.phase, -1, r);
    OldestFollowsNobody(s, r);
    forall j: nat | Is(t, j, Waiting)
      ensures Hands(t, t.prev[j], t.waitingOn[j])
    {
      Follows(s, r, j);
      assert Hands(s, s.prev[j], s.waitingOn[j]);
    }
  }

  lemma CompleteKeepsWoven(s: State, r: nat)
    requires Shaped(s) && Safe(s) && Woven(s) && Is(s, r, Holding)
    ensures Woven(Release(Finish(s, r)))
  {
    var t := Release(Finish(s, r));
    assert s.current == Some(r) && s.next[r].None? && t.prev == s.prev && t.current.None?;
    CompleteKeepsHands(s, r, s.last, s.lastCompleteCh);
    forall j: nat | Is(t, j, Waiting)
      ensures Hands(t, t.prev[j], t.waitingOn[j])
    {
      assert Hands(s, s.prev[j], s.waitingOn[j]);
      CompleteKeepsHands(s, r, s.prev[j], s.waitingOn[j]);
    }
  }

  lemma CompleteKeepsHands(s: State, r: nat, p: Link, c: nat)
    requires Shaped(s) && Is(s, r, Holding) && s.current == Some(r) && Hands(s, p, c)
    ensures Hands(Release(Finish(s, r)), p, c)
  {
  }

  lemma CancelGrantedKeepsWoven(s: State, r: nat, repaired: bool)
    requires Shaped(s) && Safe(s) && Woven(s) && Is(s, r, Waiting) && r in s.closed
    ensures Woven(CancelGranted(s, r, repaired))
  {
    var t := CancelGranted(s, r, repaired);
    assert GoneBetween(s.phase, -1, r);
    OldestFollowsNobody(s, r);
    assert OwnsChannel(s.phase, r, s.notify[r], s.closed) && t.closed == s.closed + {s.notify[r].value};
    forall j: nat | Is(t, j, Waiting)
      ensures Hands(t, t.prev[j], t.waitingOn[j])
    {
      Follows(s, r, j);
      assert Hands(s, s.prev[j], s.waitingOn[j]);
    }
  }

  lemma CancelWaitingKeepsWoven(s: State, r: nat)
    requires Shaped(s) && Safe(s) && Woven(s) && Is(s, r, Waiting) && r !in s.closed
    ensures Woven(CancelWaiting(s, r))
  {
    var t := CancelWaiting(s, r);
    forall j: nat | Is(t, j, Waiting)
      ensures Hands(t, t.prev[j], t.waitingOn[j])
    {
      CancelWaitingKeepsWaiter(s, r, j);
    }
    CancelWaitingKeepsTail(s, r);
  }

  lemma CancelWaitingKeepsWaiter(s: State, r: nat, j: nat)
    requires Shaped(s) && Safe(s) && Woven(s) && Is(s, r, Waiting) && r !in s.closed && Is(s, j, Waiting) && j != r
    ensures var t := CancelWaiting(s, r); Hands(t, t.prev[j], t.waitingOn[j])
  {
    assert PrevOk(s.phase, s.next, r, s.prev[r]) && NextOk(s.phase, s.prev, r, s.next[r], s.last);
    assert PrevOk(s.phase, s.next, j, s.prev[j]);
    assert Hands(s, s.prev[r], r) && Hands(s, s.prev[j], j) && OwnsChannel(s.phase, r, s.notify[r], s.closed);
    if s.next[r] == Some(j) {
      CancelWaitingHandsOn(s, r);
    } else {
      assert s.prev[j] != Some(r);
      assert s.prev[j].None? ==> s.prev[r].Some? && Is(s, s.prev[r].value, Waiting) by {
        assert s.phase[j] == Waiting && s.phase[r] == Waiting;
      }
      CancelWaitingKeepsHands(s, r, s.prev[j], j);
    }
  }

  lemma CancelWaitingKeepsTail(s: State, r: nat)
    requires Shaped(s) && Safe(s) && Woven(s) && Is(s, r, Waiting) && r !in s.closed
    ensures var t := CancelWaiting(s, r); Hands(t, t.last, t.lastCompleteCh)
  {
    assert PrevOk(s.phase, s.next, r, s.prev[r]) && NextOk(s.phase, s.prev, r, s.next[r], s.last);
    assert Hands(s, s.prev[r], r) && OwnsChannel(s.phase, r, s.notify[r], s.closed);
    assert s.phase[r] == Waiting;
    if s.last == Some(r) {
      assert s.next[r].None?;
      CancelWaitingHandsOn(s, r);
    } else {
      assert s.next[r].Some? && s.last.Some?;
      CancelWaitingKeepsHands(s, r, s.last, |s.phase|);
    }
  }

  /** The channel of the request that skips its position passes to whoever was going to wake it. */
  lemma CancelWaitingHandsOn(s: State, r: nat)
    requires Shaped(s) && HolderIsCurrent(s) && Is(s, r, Waiting) && r !in s.closed
    requires Hands(s, s.prev[r], r) && s.notify[r].Some? && s.prev[r] != Some(r)
    ensures Hands(CancelWaiting(s, r), s.prev[r], s.notify[r].value)
  {
  }

  /** Whoever else was handed a channel still is. */
  lemma CancelWaitingKeepsHands(s: State, r: nat, p: Link, c: nat)
    requires Shaped(s) && HolderIsCurrent(s) && Is(s, r, Waiting) && Hands(s, p, c) && p != Some(r)
    requires p.Some? && Is(s, p.value, Waiting) ==> p != s.prev[r]
    requires p.None? ==> s.prev[r].Some? && Is(s, s.prev[r].value, Waiting)
    ensures Hands(CancelWaiting(s, r), p, c)
  {
  }

  lemma StepKeepsWoven(s: State, a: Action, repaired: bool)
    requires Shaped(s) && Safe(s) && Woven(s) && Enabled(s, a)
    ensures Woven(Next(s, a, repaired))
  {
    match a
    case Arrive => ArriveKeepsWoven(s);
    case Proceed(r) => GrantKeepsWoven(s, r);
    case Abort(r) =>
      if r in s.closed {
        CancelGrantedKeepsWoven(s, r, repaired);
      } else {
        CancelWaitingKeepsWoven(s, r);
      }
    case Complete(r) => CompleteKeepsWoven(s, r);
  }

  lemma {:induction false} RunKeepsWoven(s: State, acts: seq<Action>, repaired: bool)
    requires Shaped(s) && Safe(s) && Woven(s) && Legal(s, acts, repaired)
    ensures Safe(Run(s, acts, repaired)) && Woven(Run(s, acts, repaired))
    decreases |acts|
  {
    if acts != [] {
      StepKeepsSafe(s, acts[0], repaired);
      StepKeepsWoven(s, acts[0], repaired);
      RunKeepsWoven(Next(s, acts[0], repaired), acts[1..], repaired);
    }
  }

  // Only a cancel from the tail leaves a link to a request that is gone.

  lemma OldestKeepsRooted(s: State, r: nat, t: State)
    requires Shaped(s) && Safe(s) && Rooted(s) && Is(s, r, Waiting) && r in s.closed && Shaped(t)
    requires |t.phase| == |s.phase| && t.phase == s.phase[r := t.phase[r]] && t.phase[r] != Waiting
    requires forall j {:trigger t.prev[j]} :: 0 <= j < |s.phase| && j != r ==> t.prev[j] == if s.next[r] == Some(j) then None else s.prev[j]
    requires t.last == if s.last == Some(r) then None else s.last
    ensures Rooted(t)
  {
    assert GoneBetween(s.phase, -1, r);
    OldestFollowsNobody(s, r);
    forall j: nat | Is(t, j, Waiting)
      ensures IsLive(t, t.prev[j])
    {
      Follows(s, r, j);
    }
  }

  lemma CancelWaitingKeepsRooted(s: State, r: nat)
    requires Shaped(s) && Safe(s) && Rooted(s) && Is(s, r, Waiting)
    ensures Rooted(CancelWaiting(s, r))
  {
    var t := CancelWaiting(s, r);
    assert PrevOk(s.phase, s.next, r, s.prev[r]) && NextOk(s.phase, s.prev, r, s.next[r], s.last) && IsLive(s, s.prev[r]);
    forall j: nat | Is(t, j, Waiting)
      ensures IsLive(t, t.prev[j])
    {
      assert PrevOk(s.phase, s.next, j, s.prev[j]) && IsLive(s, s.prev[j]);
      assert s.prev[j] == Some(r) ==> s.next[r] == Some(j);
    }
  }

  lemma StepKeepsRooted(s: State, a: Action, repaired: bool)
    requires Shaped(s) && Safe(s) && Rooted(s) && Enabled(s, a)
    requires repaired || !TailCancel(s, a)
    ensures Rooted(Next(s, a, repaired))
  {
    match a
    case Arrive => ArriveKeepsRooted(s);
    case Complete(r) => CompleteKeepsRooted(s, r);
    case Proceed(r) => GrantKeepsRooted(s, r);
    case Abort(r) =>
      if r in s.closed {
        CancelGrantedKeepsRooted(s, r, repaired);
      } else {
        CancelWaitingKeepsRooted(s, r);
      }
  }

  lemma ArriveKeepsRooted(s: State)
    requires Shaped(s) && Rooted(s)
    ensures Rooted(Enqueue(s))
  {
  }

  lemma CompleteKeepsRooted(s: State, r: nat)
    requires Shaped(s) && Safe(s) && Rooted(s) && Is(s, r, Holding)
    ensures Rooted(Release(Finish(s, r)))
  {
    assert s.current == Some(r) && s.next[r].None?;
  }

  lemma GrantKeepsRooted(s: State, r: nat)
    requires Shaped(s) && Safe(s) && Rooted(s) && Is(s, r, Waiting) && r in s.closed
    ensures Rooted(Grant(s, r))
  {
    RootedOldest(s, r);
    OldestKeepsRooted(s, r, Grant(s, r));
  }

  lemma CancelGrantedKeepsRooted(s: State, r: nat, repaired: bool)
    requires Shaped(s) && Safe(s) && Rooted(s) && Is(s, r, Waiting) && r in s.closed
    requires repaired || s.last != Some(r)
    ensures Rooted(CancelGranted(s, r, repaired))
  {
    RootedOldest(s, r);
    OldestKeepsRooted(s, r, CancelGranted(s, r, repaired));
  }

  lemma RootedOldest(s: State, r: nat)
    requires Shaped(s) && Safe(s) && Rooted(s) && Is(s, r, Waiting) && r in s.closed
    ensures s.prev[r].None? && (s.next[r].None? <==> s.last == Some(r)) && s.current.None?
  {
    assert GoneBetween(s.phase, -1, r);
    OldestFollowsNobody(s, r);
    assert IsLive(s, s.prev[r]) && NextOk(s.phase, s.prev, r, s.next[r], s.last);
    LastHasNoNext(s, r);
    NoHolderBelow(s, r);
  }

  lemma LastHasNoNext(s: State, r: nat)
    requires Shaped(s) && Linked(s) && Is(s, r, Waiting)
    ensures s.next[r].None? <==> s.last == Some(r)
  {
    assert NextOk(s.phase, s.prev, r, s.next[r], s.last);
  }

  lemma NoHolderBelow(s: State, r: nat)
    requires Shaped(s) && ChannelsOrdered(s) && HolderIsCurrent(s) && Is(s, r, Waiting) && r in s.closed
    ensures s.current.None?
  {
    assert s.phase[r] == Waiting && GoneBetween(s.phase, -1, r);
  }

  lemma StepKeepsAwake(s: State, a: Action, repaired: bool)
    requires Shaped(s) && Safe(s) && Awake(s) && Enabled(s, a)
    requires repaired || !TailCancel(s, a)
    ensures Safe(Next(s, a, repaired)) && Awake(Next(s, a, repaired))
  {
    StepKeepsSafe(s, a, repaired);
    StepKeepsWoven(s, a, repaired);
    StepKeepsRooted(s, a, repaired);
  }

  lemma {:induction false} RunKeepsAwake(s: State, acts: seq<Action>, repaired: bool)
    requires Shaped(s) && Safe(s) && Awake(s) && Legal(s, acts, repaired)
    requires repaired || NoTailCancel(s, acts)
    ensures Safe(Run(s, acts, repaired)) && Awake(Run(s, acts, repaired))
    decreases |acts|
  {
    if acts != [] {
      StepKeepsAwake(s, acts[0], repaired);
      RunKeepsAwake(Next(s, acts[0], repaired), acts[1..], repaired);
    }
  }

  /** The requests met by following `prev` from `p`, oldest first. */
  ghost function Chain(prev: seq<Link>, p: Link): seq<nat>
    decreases if p.Some? then p.value + 1 else 0
  {
    if p.None? || p.value >= |prev| then []
    else if prev[p.value].Some? && prev[p.value].value >= p.value then [p.value]
    else Chain(prev, prev[p.value]) + [p.value]
  }

  /** The waiting requests below n, in arrival order. */
  ghost function Waiters(phase: seq<Phase>, n: nat): seq<nat>
    requires n <= |phase|
  {
    if n == 0 then [] else Waiters(phase, n - 1) + (if phase[n - 1] == Waiting then [n - 1] else [])
  }

  lemma {:induction false} WaitersSkip(phase: seq<Phase>, lo: nat, hi: nat)
    requires lo <= hi <= |phase| && NoneWaiting(phase, lo - 1, hi)
    ensures Waiters(phase, hi) == Waiters(phase, lo)
    decreases hi - lo
  {
    if lo < hi {
      WaitersSkip(phase, lo, hi - 1);
    }
  }

  lemma {:induction false} ChainIsWaiters(s: State, r: nat)
    requires Shaped(s) && Linked(s) && Awake(s) && Is(s, r, Waiting)
    ensures Chain(s.prev, Some(r)) == Waiters(s.phase, r + 1)
  {
    match s.prev[r]
    case None => WaitersSkip(s.phase, 0, r);
    case Some(p) =>
      ChainIsWaiters(s, p);
      WaitersSkip(s.phase, p + 1, r);
  }

  /**
   With `last` repaired, in every state of every interleaving: the list reached from `last` is exactly
   the waiting requests in arrival order, each waits on its live predecessor's channel, and a wakeup is
   never lost.
   */
  lemma RepairedQueueLosesNoWakeup(acts: seq<Action>)
    requires Legal(Initial, acts, true)
    ensures var s := Run(Initial, acts, true);
            Awake(s) && NoLostWakeup(s) && Chain(s.prev, s.last) == Waiters(s.phase, |s.phase|)
  {
    RunKeepsAwake(Initial, acts, true);
    ListIsWaiters(Run(Initial, acts, true));
  }

  lemma ListIsWaiters(s: State)
    requires Shaped(s) && Safe(s) && Awake(s)
    ensures NoLostWakeup(s) && Chain(s.prev, s.last) == Waiters(s.phase, |s.phase|)
  {
    AwakeMeansNoLostWakeup(s);
    match s.last
    case None => WaitersSkip(s.phase, 0, |s.phase|);
    case Some(l) =>
      ChainIsWaiters(s, l);
      WaitersSkip(s.phase, l + 1, |s.phase|);
  }

  /** The code as written loses no wakeup along any run in which no request cancels from the tail after its grant. */
  lemma QueueLosesNoWakeupWithoutTailCancel(acts: seq<Action>)
    requires Legal(Initial, acts, false) && NoTailCancel(Initial, acts)
    ensures var s := Run(Initial, acts, false);
            Awake(s) && NoLostWakeup(s) && Chain(s.prev, s.last) == Waiters(s.phase, |s.phase|)
  {
    RunKeepsAwake(Initial, acts, false);
    ListIsWaiters(Run(Initial, acts, false));
  }

  /** Nobody holds the green light and nobody, waiting or yet to come, will ever be given it. */
  ghost predicate Stuck(s: State)
    requires Shaped(s)
  {
    && s.current.None?
    && |s.phase| !in s.closed
    && (forall r {:trigger s.phase[r]} :: 0 <= r < |s.phase| && s.phase[r] == Waiting ==> r !in s.closed)
  }

  /** Five more actions, none of them a tail cancel. */
  function LosingRun(n: nat): seq<Action> {
    [Arrive, Proceed(n), Arrive, Abort(n + 1), Complete(n)]
  }

  /** An idle queue whose `last` is a request that is gone: the next two arrivals can lose the wakeup. */
  lemma DeadTailLosesWakeup(s: State, d: nat)
    requires Shaped(s) && Safe(s) && s.last == Some(d) && Is(s, d, Done) && |s.phase| in s.closed
    ensures var acts := LosingRun(|s.phase|);
            && Legal(s, acts, false) && NoTailCancel(s, acts)
            && !NoLostWakeup(Run(s, acts, false)) && Stuck(Run(s, acts, false))
  {
    DeadTailSurvivesGrant(s, d);
    DeadTailLoses(s, Grant(Enqueue(s), |s.phase|), d, |s.phase|);
  }

  /** What the next arrival leaves behind when it is given the green light over a dead tail d. */
  ghost predicate DeadTailHolder(s: State, d: nat, n: nat)
    requires Shaped(s)
  {
    && |s.phase| == n + 1 && s.last == Some(d) && d != n && Is(s, d, Done)
    && s.current == Some(n) && Is(s, n, Holding) && s.notify[n] == Some(n + 1) && s.next[n].None?
    && s.lastCompleteCh == n + 1 && s.channels == n + 2 && n + 1 !in s.closed && n + 2 !in s.closed
    && NoneWaiting(s.phase, -1, n + 1)
  }

  lemma DeadTailLoses(s: State, s2: State, d: nat, n: nat)
    requires Shaped(s) && Enabled(Enqueue(s), Proceed(n)) && s2 == Grant(Enqueue(s), n) && DeadTailHolder(s2, d, n)
    ensures var acts := LosingRun(n);
            && Legal(s, acts, false) && NoTailCancel(s, acts)
            && !NoLostWakeup(Run(s, acts, false)) && Stuck(Run(s, acts, false))
  {
    DeadTailTakesChannel(s2, d, n);
    LosingRunRuns(s, s2, CancelWaiting(Enqueue(s2), n + 1), n);
  }

  lemma LosingRunRuns(s: State, s2: State, s4: State, n: nat)
    requires Shaped(s) && Shaped(s2) && Shaped(s4)
    requires Enabled(Enqueue(s), Proceed(n)) && s2 == Grant(Enqueue(s), n)
    requires Enabled(Enqueue(s2), Abort(n + 1)) && s4 == Next(Enqueue(s2), Abort(n + 1), false)
    requires Enabled(s4, Complete(n)) && !TailCancel(Enqueue(s2), Abort(n + 1))
    ensures var acts := LosingRun(n);
            Legal(s, acts, false) && NoTailCancel(s, acts) && Run(s, acts, false) == Release(Finish(s4, n))
  {
    RunCons(s4, Complete(n), []);
    RunCons(Enqueue(s2), Abort(n + 1), [Complete(n)]);
    RunCons(s2, Arrive, [Abort(n + 1)] + [Complete(n)]);
    RunCons(Enqueue(s), Proceed(n), [Arrive] + ([Abort(n + 1)] + [Complete(n)]));
    RunCons(s, Arrive, [Proceed(n)] + ([Arrive] + ([Abort(n + 1)] + [Complete(n)])));
    assert [Complete(n)] + [] == [Complete(n)];
    assert LosingRun(n) == [Arrive] + ([Proceed(n)] + ([Arrive] + ([Abort(n + 1)] + [Complete(n)])));
  }

  /** After one arrival is given the green light, `last` is the request that is gone again. */
  lemma DeadTailSurvivesGrant(s: State, d: nat)
    requires Shaped(s) && Safe(s) && s.last == Some(d) && Is(s, d, Done) && |s.phase| in s.closed
    ensures Enabled(Enqueue(s), Proceed(|s.phase|))
    ensures DeadTailHolder(Grant(Enqueue(s), |s.phase|), d, |s.phase|)
  {
    assert GoneBetween(s.phase, -1, |s.phase|);
  }

  /** A later arrival that cancels gives its channel to the request that is gone, so nobody will close it. */
  lemma DeadTailTakesChannel(s: State, d: nat, n: nat)
    requires Shaped(s) && DeadTailHolder(s, d, n)
    ensures var s3 := Enqueue(s);
            var s4 := CancelWaiting(s3, n + 1);
            var s5 := Release(Finish(s4, n));
            && Is(s3, n + 1, Waiting) && s3.waitingOn[n + 1] !in s3.closed
            && Next(s3, Abort(n + 1), false) == s4
            && Is(s4, n, Holding)
            && Stuck(s5) && !NoLostWakeup(s5)
  {
    var s5 := Release(Finish(CancelWaiting(Enqueue(s), n + 1), n));
    assert s5.current.None? && s5.lastCompleteCh == n + 2 && n + 2 !in s5.closed && |s5.phase| == n + 2;
    assert NoneWaiting(s5.phase, -1, n + 2);
  }

  /** Running one action and then the rest. */
  lemma RunCons(s: State, a: Action, rest: seq<Action>)
    requires Shaped(s) && Enabled(s, a) && Legal(Next(s, a, false), rest, false)
    ensures Legal(s, [a] + rest, false)
    ensures Run(s, [a] + rest, false) == Run(Next(s, a, false), rest, false)
    ensures !TailCancel(s, a) && NoTailCancel(Next(s, a, false), rest) ==> NoTailCancel(s, [a] + rest)
  {
    assert ([a] + rest)[1..] == rest;
  }

  /** Some continuation without another tail cancel loses a wakeup. */
  ghost predicate CanLose(s: State)
    requires Shaped(s)
  {
    exists acts :: Legal(s, acts, false) && NoTailCancel(s, acts) && !NoLostWakeup(Run(s, acts, false))
  }

  lemma LostAlready(s: State)
    requires Shaped(s) && !NoLostWakeup(s)
    ensures CanLose(s)
  {
    assert Legal(s, [], false) && NoTailCancel(s, []) && Run(s, [], false) == s;
  }

  lemma CanLoseLater(s: State, a: Action)
    requires Shaped(s) && Enabled(s, a) && !TailCancel(s, a) && CanLose(Next(s, a, false))
    ensures CanLose(s)
  {
    var t := Next(s, a, false);
    var acts :| Legal(t, acts, false) && NoTailCancel(t, acts) && !NoLostWakeup(Run(t, acts, false));
    RunCons(s, a, acts);
  }

  lemma {:induction false} OldestWaiter(phase: seq<Phase>, n: nat) returns (r: nat)
    requires n <= |phase|
    ensures r <= n && NoneWaiting(phase, -1, r) && (r < n ==> phase[r] == Waiting)
  {
    if n == 0 {
      return 0;
    }
    r := OldestWaiter(phase, n - 1);
    if r == n - 1 && phase[r] != Waiting {
      r := n;
    }
  }

  lemma FindDeadLink(s: State) returns (r: nat)
    requires Shaped(s) && Safe(s) && !Rooted(s) && IsLive(s, s.last)
    ensures Is(s, r, Waiting) && s.prev[r].Some? && Is(s, s.prev[r].value, Done) && NoneWaiting(s.phase, -1, r)
  {
    r :| r < |s.phase| && s.phase[r] == Waiting && !IsLive(s, s.prev[r]);
    assert PrevOk(s.phase, s.next, r, s.prev[r]);
  }

  /** Waiter r stands behind a request that is gone while h holds the green light: if r cancels, h wakes nobody. */
  lemma CancelBehindDead(s: State, h: nat, r: nat, d: nat)
    requires Shaped(s) && Safe(s) && Is(s, h, Holding) && Is(s, r, Waiting) && s.prev[r] == Some(d) && Is(s, d, Done)
    ensures CanLose(s)
  {
    assert PrevOk(s.phase, s.next, r, s.prev[r]);
    assert h in s.closed && GoneBetween(s.phase, -1, h) && s.current == Some(h);
    assert OwnsChannel(s.phase, h, s.notify[h], s.closed) && s.notify[h].value <= r;
    NobodyBeyondIsClosed(s, h, r);
    var t := CancelWaiting(s, r);
    assert s.waitingOn[r] == r && Next(s, Abort(r), false) == t;
    var u := Release(Finish(t, h));
    assert u.closed == s.closed + {s.notify[h].value} && u.current.None? && u.phase == s.phase[r := Done][h := Done];
    assert u.waitingOn == s.waitingOn && u.lastCompleteCh == s.lastCompleteCh;
    WokenNobody(s, u, h, r);
    LostAlready(u);
    CanLoseLater(t, Complete(h));
    CanLoseLater(s, Abort(r));
  }

  /** Channels after the holder's are open, since the holder is still there. */
  lemma NobodyBeyondIsClosed(s: State, h: nat, r: nat)
    requires Shaped(s) && ChannelsOrdered(s) && Is(s, h, Holding) && h < r
    ensures forall c: nat :: r <= c ==> c !in s.closed
  {
    assert s.phase[h] == Holding;
  }

  lemma WokenNobody(s: State, u: State, h: nat, r: nat)
    requires Shaped(s) && Safe(s) && Shaped(u) && h < r && Is(s, h, Holding) && Is(s, r, Waiting) && NoneWaiting(s.phase, -1, r)
    requires forall c: nat :: r <= c ==> c !in s.closed
    requires s.notify[h].Some? && s.notify[h].value <= r && u.closed == s.closed + {s.notify[h].value}
    requires u.current.None? && u.phase == s.phase[r := Done][h := Done] && u.waitingOn == s.waitingOn && u.lastCompleteCh == s.lastCompleteCh
    ensures !NoLostWakeup(u)
  {
    var w := OldestWaiter(u.phase, |u.phase|);
    if w < |u.phase| {
      assert Is(u, w, Waiting) && w > r && u.waitingOn[w] == w;
    }
  }

  /** With a holder, any link to a request that is gone can lose a wakeup. */
  lemma DeadLinkUnderHolder(s: State, h: nat)
    requires Shaped(s) && Safe(s) && Is(s, h, Holding) && !Rooted(s)
    ensures CanLose(s)
  {
    if IsLive(s, s.last) {
      var r := FindDeadLink(s);
      CancelBehindDead(s, h, r, s.prev[r].value);
    } else {
      StepKeepsSafe(s, Arrive, false);
      CancelBehindDead(Enqueue(s), h, |s.phase|, s.last.value);
      CanLoseLater(s, Arrive);
    }
  }

  /** The oldest waiter can proceed, and leaves its dead link to whoever comes next. */
  lemma GrantKeepsDeadLink(s: State, r: nat)
    requires Shaped(s) && Safe(s) && Is(s, r, Waiting) && r in s.closed && !IsLive(s, s.prev[r])
    ensures CanLose(s)
  {
    var t := Grant(s, r);
    assert PrevOk(s.phase, s.next, r, s.prev[r]) && NextOk(s.phase, s.prev, r, s.next[r], s.last);
    assert s.waitingOn[r] == r && Next(s, Proceed(r), false) == t;
    if s.next[r].Some? {
      assert Is(t, s.next[r].value, Waiting) && !IsLive(t, t.prev[s.next[r].value]);
    } else {
      assert !IsLive(t, t.last);
    }
    StepKeepsSafe(s, Proceed(r), false);
    DeadLinkUnderHolder(t, r);
    CanLoseLater(s, Proceed(r));
  }

  lemma DeadLinkCanLose(s: State)
    requires Shaped(s) && Safe(s) && !Rooted(s)
    ensures CanLose(s)
  {
    if s.current.Some? {
      DeadLinkUnderHolder(s, s.current.value);
    } else if !NoLostWakeup(s) {
      LostAlready(s);
    } else if IsLive(s, s.last) {
      var r := FindDeadLink(s);
      assert s.waitingOn[r] == r;
      GrantKeepsDeadLink(s, r);
    } else {
      assert NoneWaiting(s.phase, -1, |s.phase|);
      StepKeepsSafe(s, Arrive, false);
      GrantKeepsDeadLink(Enqueue(s), |s.phase|);
      CanLoseLater(s, Arrive);
    }
  }

  /**
   The exact condition, for every reachable state of the code as written: some continuation without another
   tail cancel loses a wakeup if and only if some link names a request that has left the queue.
   */
  lemma WakeupsAreSafeFromHereIff(past: seq<Action>)
    requires Legal(Initial, past, false)
    ensures var s := Run(Initial, past, false);
            CanLose(s) <==> !Rooted(s)
  {
    RunKeepsWoven(Initial, past, false);
    WakeupsAreSafeIffRooted(Run(Initial, past, false));
  }

  lemma WakeupsAreSafeIffRooted(s: State)
    requires Shaped(s) && Safe(s) && Woven(s)
    ensures CanLose(s) <==> !Rooted(s)
  {
    if Rooted(s) {
      forall acts | Legal(s, acts, false) && NoTailCancel(s, acts)
        ensures NoLostWakeup(Run(s, acts, false))
      {
        RunKeepsAwake(s, acts, false);
        AwakeMeansNoLostWakeup(Run(s, acts, false));
      }
    } else {
      DeadLinkCanLose(s);
    }
  }

  /**
   The branch at fault: after a cancel-after-grant from a state in which no wakeup can be lost, some
   continuation without another tail cancel loses one if and only if the cancelled request was `last`.
   */
  lemma CancelAfterGrantKeepsWakeupsIffNotTail(s: State, r: nat)
    requires Shaped(s) && Safe(s) && Awake(s) && Is(s, r, Waiting) && s.waitingOn[r] in s.closed
    ensures var t := CancelGranted(s, r, false);
            CanLose(t) <==> s.last == Some(r)
  {
    var t := CancelGranted(s, r, false);
    assert Next(s, Abort(r), false) == t;
    StepKeepsSafe(s, Abort(r), false);
    StepKeepsWoven(s, Abort(r), false);
    if s.last != Some(r) {
      StepKeepsRooted(s, Abort(r), false);
    } else {
      assert !IsLive(t, t.last);
    }
    WakeupsAreSafeIffRooted(t);
  }

  /** From a stuck state no interleaving of any length gives another green light. */
  lemma {:induction false} StuckForever(s: State, acts: seq<Action>)
    requires Shaped(s) && Safe(s) && Stuck(s) && Legal(s, acts, false)
    ensures Stuck(Run(s, acts, false)) && Run(s, acts, false).granted == s.granted
    decreases |acts|
  {
    if acts != [] {
      StepKeepsSafe(s, acts[0], false);
      var t := Next(s, acts[0], false);
      assert Stuck(t) && t.granted == s.granted;
      StuckForever(t, acts[1..]);
    }
  }

  /**
   The failing run: the first caller cancels after its grant, the second is given the green light, the
   third cancels while waiting, the second completes.  From then on nobody is ever served.
   */
  lemma LostWakeupRun()
    ensures var acts := [Arrive, Abort(0)] + LosingRun(1);
            && Legal(Initial, acts, false)
            && !NoLostWakeup(Run(Initial, acts, false))
            && Stuck(Run(Initial, acts, false))
  {
    var s1 := Enqueue(Initial);
    var s2 := CancelGranted(s1, 0, false);
    ArriveKeepsSafe(Initial);
    CancelGrantedKeepsSafe(s1, 0, false);
    DeadTailLosesWakeup(s2, 0);
    RunCons(s1, Abort(0), LosingRun(1));
    RunCons(Initial, Arrive, [Abort(0)] + LosingRun(1));
    assert [Arrive, Abort(0)] + LosingRun(1) == [Arrive] + ([Abort(0)] + LosingRun(1));
  }
}
