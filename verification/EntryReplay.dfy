/**
 What the entries and the store hold, read off the calls alone: a plain map on which every create, update and
 delete acts in the order in which the calls took effect.
 */
module EntryReplay {
  import opened Prelude
  import opened EntryLoader

  // ---------------------------------------------------------------------------------------------
  // The reference: plain maps, and the entry that each thread asked for

  type Entries = map<nat, Entry>

  /** Mapping a missing entry, updating one, and taking one out of the map. */
  function ReplayEntry(m: Entries, asked: seq<Entry>, a: Action): Entries {
    match a
    case LookupOrCreate(t) => if t < |asked| && asked[t].id !in m then m[asked[t].id := asked[t]] else m
    case Update(_, e, ok) => if ok then m[e.id := e] else m
    case Revert(t) => if t < |asked| then m - {asked[t].id} else m
    case Unmap(t) => if t < |asked| then m - {asked[t].id} else m
    case _ => m
  }

  /** Storing, updating and removing, whenever the call succeeds. */
  function ReplayStore(kv: Entries, asked: seq<Entry>, a: Action): Entries {
    match a
    case Store(t, ok) => if ok && t < |asked| then kv[asked[t].id := asked[t]] else kv
    case Update(_, e, ok) => if ok then kv[e.id := e] else kv
    case Delete(t, ok) => if ok && t < |asked| then kv - {asked[t].id} else kv
    case _ => kv
  }

  function Asked(asked: seq<Entry>, a: Action): seq<Entry> {
    if a.Start? then asked + [a.want] else asked
  }

  function ReplayEntries(m: Entries, asked: seq<Entry>, acts: seq<Action>): Entries
    decreases |acts|
  {
    if acts == [] then m else ReplayEntries(ReplayEntry(m, asked, acts[0]), Asked(asked, acts[0]), acts[1..])
  }

  function ReplayStored(kv: Entries, asked: seq<Entry>, acts: seq<Action>): Entries
    decreases |acts|
  {
    if acts == [] then kv else ReplayStored(ReplayStore(kv, asked, acts[0]), Asked(asked, acts[0]), acts[1..])
  }

  // ---------------------------------------------------------------------------------------------
  // The state machine

  /** The mapped entries, by id. */
  ghost function Contents(s: State): Entries
    requires Shaped(s)
  {
    map id | id in s.entries :: s.entry[s.entries[id]]
  }

  /** Thread t is about the entry it asked for. */
  ghost predicate AskedFor(s: State, asked: seq<Entry>, t: nat)
    requires Shaped(s) && t < |s.pc| == |asked|
  {
    match s.pc[t]
    case Looking(want, _) => want == asked[t]
    case Creating(want) => want == asked[t]
    case Waiting(want, _, _) => want == asked[t]
    case Inspecting(want, _, _) => want == asked[t]
    case Storing(c) => s.entry[c] == asked[t]
    case Finished => true
    case _ => s.entry[s.pc[t].chunk].id == asked[t].id
  }

  ghost predicate AllAskedFor(s: State, asked: seq<Entry>)
    requires Shaped(s)
  {
    |asked| == |s.pc| && forall t: nat {:trigger AskedFor(s, asked, t)} :: t < |s.pc| ==> AskedFor(s, asked, t)
  }

  lemma OtherAskedFor(s: State, s': State, t: nat, c: Option<nat>, asked: seq<Entry>, asked': seq<Entry>, u: nat)
    requires Shaped(s) && Shaped(s') && Frame(s, s', t, c) && u < |s.pc| == |asked| && u != t && ThreadOk(s, u) && AskedFor(s, asked, u)
    requires |asked'| == |s'.pc| && asked'[u] == asked[u]
    ensures AskedFor(s', asked', u)
  {
    assert SameThread(s, s', u);
    if OwnsSome(s.pc[u]) {
      assert SameChunk(s, s', s.pc[u].chunk);
    }
  }

  lemma OwnAskedFor(s: State, a: Action, asked: seq<Entry>)
    requires Shaped(s) && Enabled(s, a) && ActorOk(s, a) && |asked| == |s.pc| && (!a.Start? ==> AskedFor(s, asked, a.t))
    ensures |Asked(asked, a)| == |Next(s, a).pc| && AskedFor(Next(s, a), Asked(asked, a), Who(s, a))
  {
    if IsChunkStep(s, a) {
      ChunkStepAskedFor(s, a, asked);
    } else {
      MapStepAskedFor(s, a, asked);
    }
  }

  lemma ChunkStepAskedFor(s: State, a: Action, asked: seq<Entry>)
    requires Shaped(s) && Enabled(s, a) && ActorOk(s, a) && IsChunkStep(s, a) && |asked| == |s.pc| && AskedFor(s, asked, a.t)
    ensures |Next(s, a).pc| == |asked| && AskedFor(Next(s, a), asked, a.t)
  {
    ChunkStepEffect(s, a);
  }

  lemma MapStepAskedFor(s: State, a: Action, asked: seq<Entry>)
    requires Shaped(s) && Enabled(s, a) && ActorOk(s, a) && !IsChunkStep(s, a) && |asked| == |s.pc| && (!a.Start? ==> AskedFor(s, asked, a.t))
    ensures |Asked(asked, a)| == |Next(s, a).pc| && AskedFor(Next(s, a), Asked(asked, a), Who(s, a))
  {
  }

  lemma StepKeepsAsked(s: State, a: Action, asked: seq<Entry>)
    requires Shaped(s) && Inv(s) && Enabled(s, a) && KeepsId(s, a) && AllAskedFor(s, asked)
    ensures AllAskedFor(Next(s, a), Asked(asked, a))
  {
    assert ActorOk(s, a);
    assert !a.Start? ==> AskedFor(s, asked, a.t);
    OwnAskedFor(s, a, asked);
    OwnStep(s, a);
    forall u: nat | u < |Next(s, a).pc|
      ensures AskedFor(Next(s, a), Asked(asked, a), u)
    {
      if u != Who(s, a) {
        assert ThreadOk(s, u) && AskedFor(s, asked, u);
        OtherAskedFor(s, Next(s, a), Who(s, a), What(s, a), asked, Asked(asked, a), u);
      }
    }
  }

  // ---------------------------------------------------------------------------------------------
  // One step

  lemma SameContents(s: State, s': State)
    requires Shaped(s) && Shaped(s') && s'.entries == s.entries && s'.entry == s.entry
    ensures Contents(s') == Contents(s)
  {
  }

  lemma UnmappingContents(s: State, a: Action, asked: seq<Entry>)
    requires Shaped(s) && Enabled(s, a) && ActorOk(s, a) && (a.Revert? || a.Unmap?) && |asked| == |s.pc| && AskedFor(s, asked, a.t)
    ensures Contents(Next(s, a)) == Contents(s) - {asked[a.t].id}
  {
    var c := s.pc[a.t].chunk;
    ChunkStepEffect(s, a);
    assert Next(s, a).entries == s.entries - {s.entry[c].id};
  }

  lemma CreatingContents(s: State, a: Action, asked: seq<Entry>)
    requires Shaped(s) && Enabled(s, a) && a.LookupOrCreate? && |asked| == |s.pc| && AskedFor(s, asked, a.t)
    ensures Contents(Next(s, a)) == ReplayEntry(Contents(s), asked, a)
  {
    var s' := Next(s, a);
    if asked[a.t].id !in s.entries {
      assert s'.entry == s.entry + [asked[a.t]] && s'.entries == s.entries[asked[a.t].id := |s.entry|];
    }
  }

  lemma UpdatingContents(s: State, a: Action)
    requires Shaped(s) && Inv(s) && Enabled(s, a) && KeepsId(s, a) && a.Update?
    ensures Contents(Next(s, a)) == if a.ok then Contents(s)[a.entry.id := a.entry] else Contents(s)
  {
    assert ThreadOk(s, a.t);
    var s', c := Next(s, a), s.pc[a.t].chunk;
    if a.ok {
      assert s'.entries == s.entries && s'.entry == s.entry[c := a.entry];
      forall id | id in s.entries && id != a.entry.id
        ensures s.entries[id] != c
      {
        assert IdOk(s, id);
      }
    }
  }

  lemma StepReplaysEntry(s: State, a: Action, asked: seq<Entry>)
    requires Shaped(s) && Inv(s) && Enabled(s, a) && KeepsId(s, a) && AllAskedFor(s, asked)
    ensures Contents(Next(s, a)) == ReplayEntry(Contents(s), asked, a)
  {
    assert ActorOk(s, a);
    assert !a.Start? ==> AskedFor(s, asked, a.t);
    if a.Update? {
      UpdatingContents(s, a);
    } else if a.LookupOrCreate? {
      CreatingContents(s, a, asked);
    } else if a.Revert? || a.Unmap? {
      UnmappingContents(s, a, asked);
    } else {
      if IsChunkStep(s, a) {
        ChunkStepEffect(s, a);
      }
      SameContents(s, Next(s, a));
    }
  }

  lemma StoringKv(s: State, a: Action, asked: seq<Entry>)
    requires Shaped(s) && Enabled(s, a) && ActorOk(s, a) && (a.Store? || a.Delete?) && s.mirrored && |asked| == |s.pc| && AskedFor(s, asked, a.t)
    ensures Next(s, a).kv == ReplayStore(s.kv, asked, a)
  {
    var c := s.pc[a.t].chunk;
    assert s.entry[c].id == asked[a.t].id;
    if !a.ok {
      WriteEffect(s, a.t, c, OnChunk(Read(s, a.t, c), s.mirrored, a.t, c, a));
    }
  }

  lemma StepReplaysStore(s: State, a: Action, asked: seq<Entry>)
    requires Shaped(s) && Inv(s) && Enabled(s, a) && KeepsId(s, a) && AllAskedFor(s, asked) && s.mirrored
    ensures Next(s, a).kv == ReplayStore(s.kv, asked, a)
  {
    assert ActorOk(s, a);
    assert !a.Start? ==> AskedFor(s, asked, a.t);
    if a.Store? || a.Delete? {
      StoringKv(s, a, asked);
    } else if IsChunkStep(s, a) {
      ChunkStepEffect(s, a);
    }
  }

  // ---------------------------------------------------------------------------------------------
  // Every run

  /**
   In every reachable state, with and without a store, the mapped entries are those that replaying the calls
   on a plain map gives: a create maps the entry that was asked for if its id is not mapped, a successful
   update replaces it, and a delete or a failed create takes it out.
   */
  lemma {:induction false} ContentsAreReplayed(s: State, acts: seq<Action>, asked: seq<Entry>)
    requires Shaped(s) && Inv(s) && Legal(s, acts) && KeepsIds(s, acts) && AllAskedFor(s, asked)
    ensures Contents(Run(s, acts)) == ReplayEntries(Contents(s), asked, acts)
    decreases |acts|
  {
    if acts != [] {
      StepKeepsInv(s, acts[0]);
      StepKeepsAsked(s, acts[0], asked);
      StepReplaysEntry(s, acts[0], asked);
      ContentsAreReplayed(Next(s, acts[0]), acts[1..], Asked(asked, acts[0]));
    }
  }

  /** In every reachable state the store holds what replaying the successful calls gives. */
  lemma {:induction false} StoreIsReplayed(s: State, acts: seq<Action>, asked: seq<Entry>)
    requires Shaped(s) && Inv(s) && s.mirrored && Legal(s, acts) && KeepsIds(s, acts) && AllAskedFor(s, asked)
    ensures Run(s, acts).kv == ReplayStored(s.kv, asked, acts)
    decreases |acts|
  {
    if acts != [] {
      StepKeepsInv(s, acts[0]);
      StepKeepsAsked(s, acts[0], asked);
      StepReplaysStore(s, acts[0], asked);
      RunKeepsMirrored(s, [acts[0]]);
      assert [acts[0]][1..] == [];
      StoreIsReplayed(Next(s, acts[0]), acts[1..], Asked(asked, acts[0]));
    }
  }

  /**
   From loading on: an entry that nobody has locked, or that somebody has a handle on, is in the map and in the
   store what the last successful write of its id made it, or what was loaded if there is none.
   */
  lemma UnlockedEntryIsLastWritten(s0: State, acts: seq<Action>, id: nat)
    requires Shaped(s0) && Inv(s0) && s0.mirrored && s0.pc == [] && Legal(s0, acts) && KeepsIds(s0, acts)
    ensures var s := Run(s0, acts);
            if id !in s.entries then id !in ReplayStored(s0.kv, [], acts)
            else
              var c := s.entries[id];
              s.owner[c].None? || (s.owner[c].value < |s.pc| && s.pc[s.owner[c].value] == Holding(c)) ==>
                && id in ReplayStored(s0.kv, [], acts) && id in s.kv
                && s.entry[c] == ReplayStored(s0.kv, [], acts)[id] == s.kv[id]
  {
    StoreIsReplayed(s0, acts, []);
    KvAgreement(s0, acts, id);
  }

  // ---------------------------------------------------------------------------------------------
  // What a caller gets

  /** Lock gives up exactly when the id is not mapped; otherwise the thread goes for the chunk mapped there. */
  lemma LockGivesUpIff(s: State, t: nat)
    requires Shaped(s) && Inv(s) && t < |s.pc| && s.pc[t].Looking?
    ensures var p, p' := s.pc[t], Next(s, Lookup(t)).pc[t];
            && (p'.Finished? <==> !p.create && p.want.id !in Contents(s))
            && (p'.Creating? <==> p.create && p.want.id !in Contents(s))
            && (p'.Waiting? ==> Mapped(s, p'.chunk) && s.entry[p'.chunk].id == p.want.id)
  {
    assert IdOk(s, s.pc[t].want.id);
  }

  /** A thread that has locked a chunk gets a handle exactly when the chunk is still the mapped one, and otherwise retries. */
  lemma HandleIfStillMapped(s: State, t: nat)
    requires Shaped(s) && Inv(s) && t < |s.pc| && s.pc[t].Inspecting?
    ensures var c, p' := s.pc[t].chunk, Next(s, Inspect(t)).pc[t];
            && (p' == Holding(c) <==> Mapped(s, c))
            && (!Mapped(s, c) ==> p' == Looking(s.pc[t].want, s.pc[t].create) && Next(s, Inspect(t)).owner[c].None?)
  {
    assert ThreadOk(s, t);
  }
}
