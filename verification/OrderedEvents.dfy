/**
 Ordered port events.  Each position waits for the channel of the position before it, sends, and
 closes its own channel; a completion position only signals that the queue has drained.
 */
module OrderedEvents {
  import opened Prelude
  import opened Channels

  /** Where the goroutine of a queue position stands. */
  datatype Stage = Queued | Sending | Sent

  datatype State = State(
    stage: seq<Stage>,
    prev: seq<Option<nat>>,
    next: seq<nat>,
    completion: seq<bool>,
    last: Option<nat>,
    channels: nat,
    closed: set<nat>,
    signalled: set<nat>,  // completion positions whose caller has been told the queue is empty
    begun: seq<nat>,      // positions in the order in which they started to send
    panicked: bool)

  const Initial := State([], [], [], [], None, 0, {}, {}, [], false)

  datatype Action =
    | Assign(completion: bool)
    | Begin(i: nat)   // the previous channel is closed, or there is none
    | Signal(i: nat)  // a completion position tells its caller
    | Finish(i: nat)  // notify the next in line

  predicate Shaped(s: State) {
    |s.prev| == |s.stage| && |s.next| == |s.stage| && |s.completion| == |s.stage|
  }

  predicate Enabled(s: State, a: Action)
    requires Shaped(s)
  {
    match a
    case Assign(_) => true
    case Begin(i) => i < |s.stage| && s.stage[i] == Queued && (s.prev[i].Some? ==> s.prev[i].value in s.closed)
    case Signal(i) => i < |s.stage| && s.stage[i] == Sending && s.completion[i] && i !in s.signalled
    case Finish(i) => i < |s.stage| && s.stage[i] == Sending && (s.completion[i] ==> i in s.signalled)
  }

  function Next(s: State, a: Action): (t: State)
    requires Shaped(s) && Enabled(s, a)
    ensures Shaped(t)
  {
    match a
    case Assign(c) =>
      s.(stage := s.stage + [Queued],
         prev := s.prev + [s.last],
         next := s.next + [s.channels],
         completion := s.completion + [c],
         last := Some(s.channels),
         channels := s.channels + 1)
    case Begin(i) => s.(stage := s.stage[i := Sending], begun := s.begun + [i])
    case Signal(i) => s.(signalled := s.signalled + {i})
    case Finish(i) =>
      s.(stage := s.stage[i := Sent],
         closed := s.closed + {s.next[i]},
         panicked := s.panicked || s.next[i] in s.closed)
  }

  ghost predicate Legal(s: State, acts: seq<Action>)
    requires Shaped(s)
    decreases |acts|
  {
    acts == [] || (Enabled(s, acts[0]) && Legal(Next(s, acts[0]), acts[1..]))
  }

  ghost function Run(s: State, acts: seq<Action>): (t: State)
    requires Shaped(s) && Legal(s, acts)
    ensures Shaped(t)
    decreases |acts|
  {
    if acts == [] then s else Run(Next(s, acts[0]), acts[1..])
  }

  /** Positions form one chain, and exactly the positions that have begun precede those that have not. */
  ghost predicate Inv(s: State)
    requires Shaped(s)
  {
    && !s.panicked
    && s.channels == |s.stage|
    && s.last == (if s.stage == [] then None else Some(|s.stage| - 1))
    && (forall i {:trigger s.next[i]} :: 0 <= i < |s.stage| ==> s.next[i] == i)
    && (forall i {:trigger s.prev[i]} :: 0 <= i < |s.stage| ==> s.prev[i] == if i == 0 then None else Some(i - 1))
    && (forall c: nat :: c in s.closed <==> c < |s.stage| && s.stage[c] == Sent)
    && |s.begun| <= |s.stage|
    && (forall i {:trigger s.begun[i]} :: 0 <= i < |s.begun| ==> s.begun[i] == i)
    && (forall i {:trigger s.stage[i]} :: 0 <= i < |s.stage| ==> (s.stage[i] != Queued <==> i < |s.begun|))
    && (forall i {:trigger s.stage[i]} :: 0 <= i < |s.begun| - 1 ==> s.stage[i] == Sent)
    && (forall i <- s.signalled :: i < |s.begun| && s.completion[i])
    && (forall i {:trigger s.completion[i]} :: 0 <= i < |s.stage| && s.completion[i] && s.stage[i] == Sent ==> i in s.signalled)
  }

  lemma StepKeepsInv(s: State, a: Action)
    requires Shaped(s) && Inv(s) && Enabled(s, a)
    ensures Inv(Next(s, a))
  {
    if a.Begin? {
      assert s.stage[a.i] == Queued && a.i >= |s.begun|;
      assert a.i > 0 ==> s.stage[a.i - 1] == Sent;
    }
  }

  lemma {:induction false} RunKeepsInv(s: State, acts: seq<Action>)
    requires Shaped(s) && Inv(s) && Legal(s, acts)
    ensures Inv(Run(s, acts))
    decreases |acts|
  {
    if acts != [] {
      StepKeepsInv(s, acts[0]);
      RunKeepsInv(Next(s, acts[0]), acts[1..]);
    }
  }

  /**
   In every interleaving: events start in the order in which positions were assigned, with no gap;
   two are never being sent at once; no channel is closed twice; and somebody can always move on.
   */
  lemma EventsAreOrdered(acts: seq<Action>)
    requires Legal(Initial, acts)
    ensures var s := Run(Initial, acts);
            && !s.panicked
            && (forall k {:trigger s.begun[k]} :: 0 <= k < |s.begun| ==> s.begun[k] == k)
            && (forall i, j :: 0 <= i < |s.stage| && 0 <= j < |s.stage| && s.stage[i] == Sending && s.stage[j] == Sending ==> i == j)
            && ((exists i :: 0 <= i < |s.stage| && s.stage[i] != Sent) ==> exists a: Action :: !a.Assign? && Enabled(s, a))
  {
    RunKeepsInv(Initial, acts);
    var s := Run(Initial, acts);
    var k := |s.begun|;
    if 0 < k && s.stage[k - 1] == Sending {
      assert Enabled(s, if s.completion[k - 1] && k - 1 !in s.signalled then Signal(k - 1) else Finish(k - 1));
    } else if k < |s.stage| {
      assert 0 < k ==> s.stage[k - 1] == Sent;
      assert Enabled(s, Begin(k));
    }
  }

  // What the history variables record, read off the actions alone.

  /** The kinds of the positions assigned, in order. */
  function Kinds(acts: seq<Action>): seq<bool> {
    if acts == [] then [] else (if acts[0].Assign? then [acts[0].completion] else []) + Kinds(acts[1..])
  }

  /** The positions that started to send, in order. */
  function Begun(acts: seq<Action>): seq<nat> {
    if acts == [] then [] else (if acts[0].Begin? then [acts[0].i] else []) + Begun(acts[1..])
  }

  lemma NextHistory(s: State, a: Action)
    requires Shaped(s) && Enabled(s, a)
    ensures Next(s, a).completion == s.completion + if a.Assign? then [a.completion] else []
    ensures Next(s, a).begun == s.begun + if a.Begin? then [a.i] else []
  {
  }

  lemma {:induction false} KindsAre(s: State, acts: seq<Action>)
    requires Shaped(s) && Legal(s, acts)
    ensures Run(s, acts).completion == s.completion + Kinds(acts)
    decreases |acts|
  {
    if acts != [] {
      NextHistory(s, acts[0]);
      KindsAre(Next(s, acts[0]), acts[1..]);
      ConcatIsAssociative(s.completion, if acts[0].Assign? then [acts[0].completion] else [], Kinds(acts[1..]));
    }
  }

  lemma {:induction false} BegunAre(s: State, acts: seq<Action>)
    requires Shaped(s) && Legal(s, acts)
    ensures Run(s, acts).begun == s.begun + Begun(acts)
    decreases |acts|
  {
    if acts != [] {
      NextHistory(s, acts[0]);
      BegunAre(Next(s, acts[0]), acts[1..]);
      ConcatIsAssociative(s.begun, if acts[0].Begin? then [acts[0].i] else [], Begun(acts[1..]));
    }
  }

  /**
   In every run: the positions start to send in the order of their numbers, every position has the kind it was
   assigned with, a position assigned for a caller is done only after that caller has been told, and nobody
   else is told.
   */
  lemma SignalsAreForCompletions(acts: seq<Action>)
    requires Legal(Initial, acts)
    ensures var s := Run(Initial, acts);
            && |s.stage| == |Kinds(acts)|
            && (forall k :: 0 <= k < |Begun(acts)| ==> Begun(acts)[k] == k)
            && (forall i <- s.signalled :: i < |Kinds(acts)| && Kinds(acts)[i])
            && (forall i :: 0 <= i < |Kinds(acts)| && Kinds(acts)[i] && s.stage[i] == Sent ==> i in s.signalled)
  {
    RunKeepsInv(Initial, acts);
    KindsAre(Initial, acts);
    BegunAre(Initial, acts);
    var s := Run(Initial, acts);
    assert s.completion == Kinds(acts) && s.begun == Begun(acts);
    InvMeansSignals(s, Kinds(acts), Begun(acts));
  }

  lemma InvMeansSignals(s: State, kinds: seq<bool>, begun: seq<nat>)
    requires Shaped(s) && Inv(s) && kinds == s.completion && begun == s.begun
    ensures |s.stage| == |kinds|
    ensures forall k :: 0 <= k < |begun| ==> begun[k] == k
    ensures forall i <- s.signalled :: i < |kinds| && kinds[i]
    ensures forall i :: 0 <= i < |kinds| && kinds[i] && s.stage[i] == Sent ==> i in s.signalled
  {
  }

  /** The drain barrier: a caller is told that the queue is empty only after every earlier position has sent. */
  lemma DrainBarrier(acts: seq<Action>, i: nat, j: nat)
    requires Legal(Initial, acts) && i in Run(Initial, acts).signalled && j < i
    ensures var s := Run(Initial, acts); j < |s.stage| && s.stage[j] == Sent
  {
    RunKeepsInv(Initial, acts);
  }

  /** A place in the queue, as handed to the goroutine that will send. */
  datatype QueuePosition = QueuePosition(prev: Chan?, next: Chan)

  /** The queue's one field, replaced under its mutex. */
  class Queue {
    var last: Chan?

    ghost var model: State
    ghost var chans: seq<Chan>

    ghost predicate Valid()
      reads this, chans
    {
      && Shaped(model) && Inv(model)
      && |chans| == model.channels && ClosedMatch(chans, model.closed)
      && KnownChan(chans, last) && model.last == ChanLink(last)
    }

    constructor ()
      ensures Valid() && model == Initial && chans == []
    {
      last, model, chans := null, Initial, [];
    }

    method AssignQueuePosition(ghost completion: bool) returns (qp: QueuePosition)
      requires Valid()
      modifies this
      ensures Valid() && model == Next(old(model), Assign(completion))
      ensures chans == old(chans) + [qp.next] && fresh(qp.next) && !qp.next.closed && last == qp.next
      ensures qp.prev == old(last) && qp.next.number == model.next[|old(model).stage|]
    {
      StepKeepsInv(model, Assign(completion));
      var next := new Chan(false, |chans|);
      qp := QueuePosition(last, next);
      assert ClosedMatch(chans + [next], model.closed);
      last, chans := next, chans + [next];
      model := Next(model, Assign(completion));
    }

    /** The end of send and of sendCompletion: close(qp.next) cannot panic. */
    method NotifyNext(qp: QueuePosition, ghost i: nat)
      requires Valid() && Enabled(model, Finish(i)) && KnownChan(chans, qp.next) && qp.next.number == model.next[i]
      modifies this`model, qp.next`closed
      ensures Valid() && model == Next(old(model), Finish(i))
    {
      StepKeepsInv(model, Finish(i));
      Close(qp.next, chans, model.closed);
      model := Next(model, Finish(i));
    }
  }
}
