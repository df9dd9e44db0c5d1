/**
 Entries that are locked one by one: a map from id to chunk under one lock, a lock and a tombstone in every
 chunk, and, when `mirrored`, a copy of every entry in a key-value store.  Any number of threads run the
 operations, interleaved between the points where they take or release a lock or call the store.
 */
module EntryLoader {
  import opened Prelude

  /** A stored entry: its id and everything else about it. */
  datatype Entry = Entry(id: nat, content: int)

  /** Where a thread stands. */
  datatype Pc =
    | Looking(want: Entry, create: bool)                 // about to read the map
    | Creating(want: Entry)                              // found nothing, about to take the map lock
    | Waiting(want: Entry, create: bool, chunk: nat)     // about to lock the chunk it found
    | Inspecting(want: Entry, create: bool, chunk: nat)  // has the chunk's lock, about to read its tombstone
    | Storing(chunk: nat)                                // has mapped a new chunk, about to store it
    | Reverting(chunk: nat)                              // storing failed, about to take it out of the map
    | Discarding(chunk: nat)                             // out of the map, about to mark and unlock it
    | Holding(chunk: nat)                                // has a handle
    | Removed(chunk: nat)                                // deleted it from the store, about to unmap it
    | Unmapped(chunk: nat)                               // unmapped it, about to unlock it
    | Finished                                           // has no handle, or one whose chunk is nil

  datatype State = State(
    mirrored: bool,
    pc: seq<Pc>,
    taken: seq<nat>,    // how often each thread has locked a chunk
    given: seq<nat>,    // how often it has unlocked one
    entry: seq<Entry>,  // chunk by chunk: its entry, the thread that has its lock, its tombstone
    owner: seq<Option<nat>>,
    deleted: seq<bool>,
    entries: map<nat, nat>,
    kv: map<nat, Entry>,
    panicked: bool)

  datatype Action =
    | Start(want: Entry, create: bool)
    | Lookup(t: nat)
    | LookupOrCreate(t: nat)
    | Acquire(t: nat)
    | Inspect(t: nat)
    | Store(t: nat, ok: bool)
    | Revert(t: nat)
    | Discard(t: nat)
    | Update(t: nat, entry: Entry, ok: bool)
    | Delete(t: nat, ok: bool)
    | Unmap(t: nat)
    | Unlock(t: nat)

  predicate Shaped(s: State) {
    && |s.taken| == |s.pc| && |s.given| == |s.pc|
    && |s.owner| == |s.entry| && |s.deleted| == |s.entry|
    && (forall t :: 0 <= t < |s.pc| ==> ChunkExists(s, s.pc[t]))
    && (forall id :: id in s.entries ==> s.entries[id] < |s.entry|)
  }

  predicate ChunkExists(s: State, pc: Pc) {
    match pc
    case Looking(_, _) => true
    case Creating(_) => true
    case Finished => true
    case _ => pc.chunk < |s.entry|
  }

  predicate Enabled(s: State, a: Action)
    requires Shaped(s)
  {
    match a
    case Start(_, _) => true
    case Lookup(t) => t < |s.pc| && s.pc[t].Looking?
    case LookupOrCreate(t) => t < |s.pc| && s.pc[t].Creating?
    case Acquire(t) => t < |s.pc| && s.pc[t].Waiting? && s.owner[s.pc[t].chunk].None?
    case Inspect(t) => t < |s.pc| && s.pc[t].Inspecting?
    case Store(t, _) => t < |s.pc| && s.pc[t].Storing?
    case Revert(t) => t < |s.pc| && s.pc[t].Reverting?
    case Discard(t) => t < |s.pc| && s.pc[t].Discarding?
    case Update(t, _, ok) => t < |s.pc| && s.pc[t].Holding? && (ok || s.mirrored)
    case Delete(t, ok) => t < |s.pc| && s.pc[t].Holding? && (ok || s.mirrored)
    case Unmap(t) => t < |s.pc| && s.pc[t].Removed?
    case Unlock(t) => t < |s.pc| && (s.pc[t].Holding? || s.pc[t].Unmapped? || s.pc[t].Finished?)
  }

  /** What a step on chunk c by thread t can see and change: the thread, the chunk, and the chunk's id in the map and the store. */
  datatype View = View(pc: Pc, taken: nat, given: nat, entry: Entry, owner: Option<nat>, deleted: bool,
                       mapping: Option<nat>, stored: Option<Entry>, panicked: bool)

  function Get<T>(m: map<nat, T>, id: nat): Option<T> {
    if id in m then Some(m[id]) else None
  }

  function Put<T>(m: map<nat, T>, id: nat, v: Option<T>): map<nat, T> {
    if v.Some? then m[id := v.value] else m - {id}
  }

  function Read(s: State, t: nat, c: nat): View
    requires Shaped(s) && t < |s.pc| && c < |s.entry|
  {
    View(s.pc[t], s.taken[t], s.given[t], s.entry[c], s.owner[c], s.deleted[c],
         Get(s.entries, s.entry[c].id), Get(s.kv, s.entry[c].id), s.panicked)
  }

  function Write(s: State, t: nat, c: nat, v: View): (s': State)
    requires Shaped(s) && t < |s.pc| && c < |s.entry|
    requires ChunkExists(s, v.pc) && (v.mapping.Some? ==> v.mapping.value < |s.entry|)
    ensures Shaped(s')
  {
    var id := s.entry[c].id;
    s.(pc := s.pc[t := v.pc], taken := s.taken[t := v.taken], given := s.given[t := v.given],
       entry := s.entry[c := v.entry], owner := s.owner[c := v.owner], deleted := s.deleted[c := v.deleted],
       entries := Put(s.entries, id, v.mapping), kv := Put(s.kv, id, v.stored), panicked := v.panicked)
  }

  /** Thread t goes on at pc. */
  function Goto(s: State, t: nat, pc: Pc): (s': State)
    requires Shaped(s) && t < |s.pc| && ChunkExists(s, pc)
    ensures Shaped(s')
  {
    s.(pc := s.pc[t := pc])
  }

  /** A new chunk in the map, locked by thread t, which goes on at pc. */
  function Create(s: State, t: nat, want: Entry): (s': State)
    requires Shaped(s) && t < |s.pc|
    ensures Shaped(s')
  {
    var c := |s.entry|;
    s.(entry := s.entry + [want], deleted := s.deleted + [false], owner := s.owner + [Some(t)],
       entries := s.entries[want.id := c],
       pc := s.pc[t := if s.mirrored then Storing(c) else Holding(c)],
       taken := s.taken[t := s.taken[t] + 1])
  }

  /** The thread unlocks its chunk; unlocking what it has not locked is counted as a panic. */
  function Unlocked(v: View, t: nat, pc: Pc): View {
    v.(pc := pc, owner := None, given := v.given + 1, panicked := v.panicked || v.owner != Some(t))
  }

  /** A step of thread t on chunk c. */
  function OnChunk(v: View, mirrored: bool, t: nat, c: nat, a: Action): View
    requires a.Inspect? || a.Acquire? ==> v.pc.Waiting? || v.pc.Inspecting?
  {
    match a
    case Acquire(_) => v.(pc := Inspecting(v.pc.want, v.pc.create, c), owner := Some(t), taken := v.taken + 1)
    case Inspect(_) => if v.deleted then Unlocked(v, t, Looking(v.pc.want, v.pc.create)) else v.(pc := Holding(c))
    case Store(_, ok) => if ok then v.(pc := Holding(c), stored := Some(v.entry)) else v.(pc := Reverting(c))
    case Revert(_) => v.(pc := Discarding(c), mapping := None)
    case Discard(_) => Unlocked(v.(deleted := true), t, Finished)
    case Delete(_, ok) => if ok then v.(pc := Removed(c), deleted := true, stored := if mirrored then None else v.stored) else v
    case Unmap(_) => v.(pc := Unmapped(c), mapping := None)
    case Unlock(_) => Unlocked(v, t, Finished)
    case _ => v
  }

  function Next(s: State, a: Action): (s': State)
    requires Shaped(s) && Enabled(s, a)
    ensures Shaped(s')
  {
    match a
    case Start(want, create) => s.(pc := s.pc + [Looking(want, create)], taken := s.taken + [0], given := s.given + [0])
    case Lookup(t) =>
      var p := s.pc[t];
      Goto(s, t, if p.want.id in s.entries then Waiting(p.want, p.create, s.entries[p.want.id])
                 else if p.create then Creating(p.want) else Finished)
    case LookupOrCreate(t) =>
      var want := s.pc[t].want;
      if want.id in s.entries then Goto(s, t, Waiting(want, true, s.entries[want.id])) else Create(s, t, want)
    case Update(t, e, ok) =>
      if ok then s.(kv := if s.mirrored then s.kv[e.id := e] else s.kv, entry := s.entry[s.pc[t].chunk := e]) else s
    case _ =>
      if s.pc[a.t].Finished? then s
      else
        var t, c := a.t, s.pc[a.t].chunk;
        Write(s, t, c, OnChunk(Read(s, t, c), s.mirrored, t, c, a))
  }

  ghost predicate Legal(s: State, acts: seq<Action>)
    requires Shaped(s)
    decreases |acts|
  {
    acts == [] || (Enabled(s, acts[0]) && Legal(Next(s, acts[0]), acts[1..]))
  }

  ghost function Run(s: State, acts: seq<Action>): (t: State)
    requires Shaped(s) && Legal(s, acts)
    ensures Shaped(t)
    decreases |acts|
  {
    if acts == [] then s else Run(Next(s, acts[0]), acts[1..])
  }

  /** The action updates an entry under the id of the chunk it holds. */
  ghost predicate KeepsId(s: State, a: Action)
    requires Shaped(s) && Enabled(s, a)
  {
    a.Update? ==> a.entry.id == s.entry[s.pc[a.t].chunk].id
  }

  ghost predicate KeepsIds(s: State, acts: seq<Action>)
    requires Shaped(s) && Legal(s, acts)
    decreases |acts|
  {
    acts != [] ==> KeepsId(s, acts[0]) && KeepsIds(Next(s, acts[0]), acts[1..])
  }

  // ---------------------------------------------------------------------------------------------
  // The invariant

  predicate Owns(pc: Pc, c: nat) {
    match pc
    case Looking(_, _) => false
    case Creating(_) => false
    case Waiting(_, _, _) => false
    case Finished => false
    case _ => pc.chunk == c
  }

  predicate OwnsSome(pc: Pc) {
    !pc.Looking? && !pc.Creating? && !pc.Waiting? && !pc.Finished?
  }

  predicate Mapped(s: State, c: nat)
    requires c < |s.entry|
  {
    s.entry[c].id in s.entries && s.entries[s.entry[c].id] == c
  }

  /** What holds of thread t where it stands. */
  ghost predicate ThreadOk(s: State, t: nat)
    requires Shaped(s) && t < |s.pc|
  {
    var p := s.pc[t];
    && s.taken[t] == s.given[t] + (if OwnsSome(p) then 1 else 0)
    && (OwnsSome(p) ==> s.owner[p.chunk] == Some(t))
    && match p
       case Waiting(want, _, c) => s.entry[c].id == want.id
       case Inspecting(want, _, c) => s.entry[c].id == want.id && (s.deleted[c] <==> !Mapped(s, c))
       case Storing(c) => s.mirrored && !s.deleted[c] && Mapped(s, c)
       case Reverting(c) => s.mirrored && !s.deleted[c] && Mapped(s, c)
       case Discarding(c) => !s.deleted[c] && !Mapped(s, c)
       case Holding(c) => !s.deleted[c] && Mapped(s, c)
       case Removed(c) => s.deleted[c] && Mapped(s, c)
       case Unmapped(c) => s.deleted[c] && !Mapped(s, c)
       case _ => true
  }

  /** What holds of chunk c: its owner knows, and without one it is mapped exactly if it is not deleted. */
  ghost predicate ChunkOk(s: State, c: nat)
    requires Shaped(s) && c < |s.entry|
  {
    if s.owner[c].Some? then s.owner[c].value < |s.pc| && Owns(s.pc[s.owner[c].value], c)
    else s.deleted[c] <==> !Mapped(s, c)
  }

  /** The owner of chunk c is between changing the map and changing the store. */
  ghost predicate InFlux(s: State, c: nat)
    requires Shaped(s) && c < |s.entry|
  {
    && s.owner[c].Some? && s.owner[c].value < |s.pc|
    && var p := s.pc[s.owner[c].value];
       p == Storing(c) || p == Reverting(c) || p == Removed(c)
  }

  /** What holds of an id: the map leads to a chunk of that id, and the store agrees with it. */
  ghost predicate IdOk(s: State, id: nat)
    requires Shaped(s)
  {
    && (id in s.entries ==> s.entry[s.entries[id]].id == id)
    && (s.mirrored ==>
          if id !in s.entries || InFlux(s, s.entries[id]) then id !in s.kv
          else id in s.kv && s.kv[id] == s.entry[s.entries[id]])
  }

  ghost predicate Inv(s: State)
    requires Shaped(s)
  {
    && !s.panicked
    && (forall t: nat {:trigger ThreadOk(s, t)} :: t < |s.pc| ==> ThreadOk(s, t))
    && (forall c: nat {:trigger ChunkOk(s, c)} :: c < |s.entry| ==> ChunkOk(s, c))
    && (forall id: nat {:trigger IdOk(s, id)} :: IdOk(s, id))
  }

  /** What the thread that takes the step knows about the chunk or the id it is about. */
  ghost predicate ActorOk(s: State, a: Action)
    requires Shaped(s) && Enabled(s, a)
  {
    && KeepsId(s, a)
    && (!a.Start? ==>
          && ThreadOk(s, a.t)
          && (s.pc[a.t].Looking? || s.pc[a.t].Creating? ==> IdOk(s, s.pc[a.t].want.id))
          && (OwnsSome(s.pc[a.t]) || s.pc[a.t].Waiting? ==> ChunkOk(s, s.pc[a.t].chunk) && IdOk(s, s.entry[s.pc[a.t].chunk].id)))
  }

  /** The thread that takes a step. */
  function Who(s: State, a: Action): nat {
    if a.Start? then |s.pc| else a.t
  }

  /** The chunk that a step is about, if any. */
  function What(s: State, a: Action): Option<nat>
    requires Shaped(s) && Enabled(s, a)
  {
    if a.Start? || a.Lookup? then None
    else if a.LookupOrCreate? then if s.pc[a.t].want.id in s.entries then None else Some(|s.entry|)
    else if s.pc[a.t].Finished? then None else Some(s.pc[a.t].chunk)
  }

  ghost predicate SameId(s: State, s': State, id: nat) {
    && (id in s.entries <==> id in s'.entries) && (id in s.entries ==> s.entries[id] == s'.entries[id])
    && (id in s.kv <==> id in s'.kv) && (id in s.kv ==> s.kv[id] == s'.kv[id])
  }

  ghost predicate SameThread(s: State, s': State, u: nat)
    requires Shaped(s) && Shaped(s')
  {
    u < |s.pc| ==> u < |s'.pc| && s'.pc[u] == s.pc[u] && s'.taken[u] == s.taken[u] && s'.given[u] == s.given[u]
  }

  ghost predicate SameChunk(s: State, s': State, d: nat)
    requires Shaped(s) && Shaped(s')
  {
    d < |s.entry| ==> d < |s'.entry| && s'.entry[d] == s.entry[d] && s'.owner[d] == s.owner[d] && s'.deleted[d] == s.deleted[d]
  }

  /** What a step does to its own chunk c: the id stays, and the map entry of that id is c's or as before. */
  ghost predicate OwnChunk(s: State, s': State, t: nat, c: nat)
    requires Shaped(s) && Shaped(s')
  {
    && c < |s'.entry|
    && (c < |s.entry| ==> s'.entry[c].id == s.entry[c].id && (s.owner[c].None? || s.owner[c] == Some(t)))
    && var id := s'.entry[c].id;
       SameId(s, s', id) || ((id in s.entries ==> s.entries[id] == c) && (id in s'.entries ==> s'.entries[id] == c))
  }

  /** Everything but thread t, chunk c and the id of chunk c is as before, and no other thread has chunk c. */
  ghost predicate Frame(s: State, s': State, t: nat, c: Option<nat>)
    requires Shaped(s) && Shaped(s')
  {
    && s'.mirrored == s.mirrored && |s.pc| <= |s'.pc| && |s.entry| <= |s'.entry|
    && (forall u: nat {:trigger SameThread(s, s', u)} :: u != t ==> SameThread(s, s', u))
    && (forall d: nat {:trigger SameChunk(s, s', d)} :: c != Some(d) ==> SameChunk(s, s', d))
    && (c.Some? ==> OwnChunk(s, s', t, c.value))
    && (forall id: nat {:trigger SameId(s, s', id)} :: c.None? || id != s'.entry[c.value].id ==> SameId(s, s', id))
  }

  lemma WriteIsLocal(s: State, t: nat, c: nat, v: View)
    requires Shaped(s) && t < |s.pc| && c < |s.entry| && (s.owner[c].None? || s.owner[c] == Some(t))
    requires ChunkExists(s, v.pc) && v.entry.id == s.entry[c].id
    requires v.mapping == Get(s.entries, v.entry.id) || (v.mapping.None? && s.entries[v.entry.id] == c)
    requires v.stored == Get(s.kv, v.entry.id) || (v.entry.id in s.entries && s.entries[v.entry.id] == c && v.mapping == Some(c))
    ensures Frame(s, Write(s, t, c, v), t, Some(c))
  {
  }

  /** The step is about a chunk that its thread waits for or has. */
  predicate IsChunkStep(s: State, a: Action)
    requires Shaped(s) && Enabled(s, a)
  {
    !a.Start? && !a.Lookup? && !a.LookupOrCreate? && !a.Update? && !s.pc[a.t].Finished?
  }

  /** What a step on a chunk leaves alone. */
  lemma ChunkStepEffect(s: State, a: Action)
    requires Shaped(s) && Enabled(s, a) && IsChunkStep(s, a)
    ensures var s', c := Next(s, a), s.pc[a.t].chunk;
            && s'.entry == s.entry && s'.mirrored == s.mirrored
            && s'.owner == s.owner[c := s'.owner[c]] && (a.Store? || a.Revert? || a.Delete? || a.Unmap? ==> s'.owner == s.owner)
            && s'.deleted == s.deleted[c := s'.deleted[c]] && (!a.Delete? && !a.Discard? ==> s'.deleted == s.deleted)
            && (!a.Revert? && !a.Unmap? ==> s'.entries == s.entries)
            && (!a.Store? && !a.Delete? ==> s'.kv == s.kv)
  {
    ChunkStepOnChunk(s, a);
    ChunkStepOnMaps(s, a);
  }

  lemma ChunkStepOnChunk(s: State, a: Action)
    requires Shaped(s) && Enabled(s, a) && IsChunkStep(s, a)
    ensures var s', c := Next(s, a), s.pc[a.t].chunk;
            && s'.entry == s.entry && s'.mirrored == s.mirrored
            && s'.owner == s.owner[c := s'.owner[c]] && (a.Store? || a.Revert? || a.Delete? || a.Unmap? ==> s'.owner == s.owner)
            && s'.deleted == s.deleted[c := s'.deleted[c]] && (!a.Delete? && !a.Discard? ==> s'.deleted == s.deleted)
  {
    var t, c := a.t, s.pc[a.t].chunk;
    WriteEffect(s, t, c, OnChunk(Read(s, t, c), s.mirrored, t, c, a));
  }

  lemma ChunkStepOnMaps(s: State, a: Action)
    requires Shaped(s) && Enabled(s, a) && IsChunkStep(s, a)
    ensures !a.Revert? && !a.Unmap? ==> Next(s, a).entries == s.entries
    ensures !a.Store? && !a.Delete? ==> Next(s, a).kv == s.kv
  {
    var t, c := a.t, s.pc[a.t].chunk;
    WriteEffect(s, t, c, OnChunk(Read(s, t, c), s.mirrored, t, c, a));
  }

  lemma WriteEffect(s: State, t: nat, c: nat, v: View)
    requires Shaped(s) && t < |s.pc| && c < |s.entry|
    requires ChunkExists(s, v.pc) && (v.mapping.Some? ==> v.mapping.value < |s.entry|)
    ensures var s' := Write(s, t, c, v);
            && s'.owner == s.owner[c := v.owner] && s'.deleted == s.deleted[c := v.deleted]
            && (v.entry == s.entry[c] ==> s'.entry == s.entry)
            && (v.owner == s.owner[c] ==> s'.owner == s.owner)
            && (v.deleted == s.deleted[c] ==> s'.deleted == s.deleted)
            && (v.mapping == Get(s.entries, s.entry[c].id) ==> s'.entries == s.entries)
            && (v.stored == Get(s.kv, s.entry[c].id) ==> s'.kv == s.kv)
  {
  }

  lemma ChunkStepIsLocal(s: State, a: Action)
    requires Shaped(s) && Enabled(s, a) && ActorOk(s, a) && IsChunkStep(s, a)
    ensures Frame(s, Next(s, a), a.t, What(s, a))
  {
    var t, c := a.t, s.pc[a.t].chunk;
    WriteIsLocal(s, t, c, OnChunk(Read(s, t, c), s.mirrored, t, c, a));
  }

  lemma MapStepIsLocal(s: State, a: Action)
    requires Shaped(s) && Enabled(s, a) && ActorOk(s, a) && !IsChunkStep(s, a)
    ensures Frame(s, Next(s, a), Who(s, a), What(s, a))
  {
    if a.Update? {
      UpdateIsLocal(s, a);
    } else if What(s, a).Some? {
      CreateIsLocal(s, a);
    } else {
      LookingIsLocal(s, a);
    }
  }

  lemma UpdateIsLocal(s: State, a: Action)
    requires Shaped(s) && Enabled(s, a) && ActorOk(s, a) && a.Update?
    ensures Frame(s, Next(s, a), a.t, What(s, a))
  {
  }

  lemma CreateIsLocal(s: State, a: Action)
    requires Shaped(s) && Enabled(s, a) && ActorOk(s, a) && a.LookupOrCreate? && What(s, a).Some?
    ensures Frame(s, Next(s, a), a.t, What(s, a))
  {
  }

  lemma LookingIsLocal(s: State, a: Action)
    requires Shaped(s) && Enabled(s, a) && !IsChunkStep(s, a) && What(s, a).None?
    ensures Frame(s, Next(s, a), Who(s, a), None)
  {
  }

  lemma OtherMapping(s: State, s': State, t: nat, c: Option<nat>, d: nat)
    requires Shaped(s) && Shaped(s') && Frame(s, s', t, c) && d < |s.entry| && c != Some(d)
    ensures s'.entry[d] == s.entry[d] && (Mapped(s', d) <==> Mapped(s, d))
  {
    assert SameChunk(s, s', d);
    assert SameId(s, s', s.entry[d].id) || c.Some?;
  }

  lemma OtherThread(s: State, s': State, t: nat, c: Option<nat>, u: nat)
    requires Shaped(s) && Shaped(s') && Frame(s, s', t, c) && u < |s.pc| && u != t && ThreadOk(s, u)
    ensures ThreadOk(s', u)
  {
    assert SameThread(s, s', u);
    if OwnsSome(s.pc[u]) {
      var d := s.pc[u].chunk;
      OtherMapping(s, s', t, c, d);
      assert SameChunk(s, s', d);
    } else if s.pc[u].Waiting? {
      assert SameChunk(s, s', s.pc[u].chunk) || c == Some(s.pc[u].chunk);
    }
  }

  lemma OtherChunk(s: State, s': State, t: nat, c: Option<nat>, d: nat)
    requires Shaped(s) && Shaped(s') && Frame(s, s', t, c) && d < |s.entry| && c != Some(d) && ChunkOk(s, d)
    requires s.owner[d] != Some(t)
    ensures ChunkOk(s', d)
  {
    assert SameChunk(s, s', d);
    assert s.owner[d].Some? ==> SameThread(s, s', s.owner[d].value);
    OtherMapping(s, s', t, c, d);
  }

  lemma OtherId(s: State, s': State, t: nat, c: Option<nat>, id: nat)
    requires Shaped(s) && Shaped(s') && Frame(s, s', t, c) && IdOk(s, id)
    requires c.Some? ==> id != s'.entry[c.value].id
    requires id in s.entries ==> ChunkOk(s, s.entries[id]) && c != Some(s.entries[id]) && s.owner[s.entries[id]] != Some(t)
    ensures IdOk(s', id)
  {
    assert SameId(s, s', id);
    if id in s.entries {
      var d := s.entries[id];
      assert SameChunk(s, s', d);
      assert s.owner[d].Some? ==> SameThread(s, s', s.owner[d].value);
    }
  }

  /** The step's own thread, chunk and id. */
  ghost predicate OwnOk(s: State, t: nat, c: Option<nat>)
    requires Shaped(s)
  {
    && t < |s.pc| && ThreadOk(s, t)
    && (c.Some? ==> c.value < |s.entry| && ChunkOk(s, c.value) && IdOk(s, s.entry[c.value].id))
  }

  lemma LockingKeepsOwn(s: State, a: Action)
    requires Shaped(s) && Enabled(s, a) && ActorOk(s, a) && IsChunkStep(s, a) && (a.Acquire? || a.Inspect?)
    ensures OwnOk(Next(s, a), a.t, What(s, a))
  {
  }

  lemma UnlockingKeepsOwn(s: State, a: Action)
    requires Shaped(s) && Enabled(s, a) && ActorOk(s, a) && IsChunkStep(s, a) && (a.Discard? || a.Unlock?)
    ensures OwnOk(Next(s, a), a.t, What(s, a))
  {
  }

  lemma StoringKeepsOwn(s: State, a: Action)
    requires Shaped(s) && Enabled(s, a) && ActorOk(s, a) && IsChunkStep(s, a)
    requires a.Store? || a.Revert? || a.Delete? || a.Unmap?
    ensures OwnOk(Next(s, a), a.t, What(s, a))
  {
  }

  lemma MapStepKeepsOwn(s: State, a: Action)
    requires Shaped(s) && Enabled(s, a) && ActorOk(s, a) && !IsChunkStep(s, a)
    ensures OwnOk(Next(s, a), Who(s, a), What(s, a))
  {
  }

  lemma OwnStep(s: State, a: Action)
    requires Shaped(s) && Enabled(s, a) && ActorOk(s, a)
    ensures Frame(s, Next(s, a), Who(s, a), What(s, a))
    ensures OwnOk(Next(s, a), Who(s, a), What(s, a))
  {
    if !IsChunkStep(s, a) {
      MapStepIsLocal(s, a);
      MapStepKeepsOwn(s, a);
    } else {
      ChunkStepIsLocal(s, a);
      if a.Acquire? || a.Inspect? {
        LockingKeepsOwn(s, a);
      } else if a.Discard? || a.Unlock? {
        UnlockingKeepsOwn(s, a);
      } else {
        StoringKeepsOwn(s, a);
      }
    }
  }

  /** The step's thread has no other chunk, and its chunk is the only one its id could be mapped to. */
  ghost predicate Alone(s: State, s': State, t: nat, c: Option<nat>)
    requires Shaped(s) && Shaped(s')
  {
    && |s'.pc| == (if t < |s.pc| then |s.pc| else |s.pc| + 1)
    && |s'.entry| == (if c == Some(|s.entry|) then |s.entry| + 1 else |s.entry|)
    && t <= |s.pc| && (c.Some? ==> c.value <= |s.entry|)
    && (forall d {:trigger s.owner[d]} :: 0 <= d < |s.entry| && s.owner[d] == Some(t) ==> c == Some(d))
  }

  lemma StepIsAlone(s: State, a: Action)
    requires Shaped(s) && Inv(s) && Enabled(s, a)
    ensures Alone(s, Next(s, a), Who(s, a), What(s, a))
  {
    forall d | 0 <= d < |s.entry| && s.owner[d] == Some(Who(s, a))
      ensures What(s, a) == Some(d)
    {
      assert ChunkOk(s, d);
    }
  }

  lemma {:induction false} FrameKeepsInv(s: State, s': State, t: nat, c: Option<nat>)
    requires Shaped(s) && Shaped(s') && Inv(s) && !s'.panicked
    requires Frame(s, s', t, c) && OwnOk(s', t, c) && Alone(s, s', t, c)
    ensures Inv(s')
  {
    forall u: nat | u < |s'.pc|
      ensures ThreadOk(s', u)
    {
      if u != t {
        assert ThreadOk(s, u);
        OtherThread(s, s', t, c, u);
      }
    }
    forall d: nat | d < |s'.entry|
      ensures ChunkOk(s', d)
    {
      if c != Some(d) {
        assert ChunkOk(s, d);
        OtherChunk(s, s', t, c, d);
      }
    }
    forall id: nat
      ensures IdOk(s', id)
    {
      assert IdOk(s, id);
      if c.None? || id != s'.entry[c.value].id {
        if id in s.entries {
          assert ChunkOk(s, s.entries[id]);
        }
        OtherId(s, s', t, c, id);
      }
    }
  }

  lemma StepKeepsInv(s: State, a: Action)
    requires Shaped(s) && Inv(s) && Enabled(s, a) && KeepsId(s, a)
    ensures Inv(Next(s, a))
  {
    assert ActorOk(s, a);
    assert !Next(s, a).panicked;
    OwnStep(s, a);
    StepIsAlone(s, a);
    FrameKeepsInv(s, Next(s, a), Who(s, a), What(s, a));
  }

  lemma {:induction false} RunKeepsInv(s: State, acts: seq<Action>)
    requires Shaped(s) && Inv(s) && Legal(s, acts) && KeepsIds(s, acts)
    ensures Inv(Run(s, acts))
    decreases |acts|
  {
    if acts != [] {
      StepKeepsInv(s, acts[0]);
      RunKeepsInv(Next(s, acts[0]), acts[1..]);
    }
  }

  // ---------------------------------------------------------------------------------------------
  // What every interleaving guarantees

  /** A list of exactly the entries in the store. */
  ghost predicate Lists(listed: seq<Entry>, kv: map<nat, Entry>) {
    && (forall i :: 0 <= i < |listed| ==> listed[i].id in kv && kv[listed[i].id] == listed[i])
    && (forall i, j :: 0 <= i < j < |listed| ==> listed[i].id != listed[j].id)
    && (forall id :: id in kv ==> exists i :: 0 <= i < |listed| && listed[i].id == id)
  }

  /**
   Load, once, before any thread starts.  It establishes the invariant unless listing the store failed and
   the store is not empty.
   */
  method Load(kv: map<nat, Entry>, listing: Option<seq<Entry>>) returns (s: State)
    requires listing.Some? ==> Lists(listing.value, kv)
    ensures s.mirrored && s.pc == [] && s.kv == kv && Shaped(s)
    ensures Inv(s) <==> listing.Some? || kv == map[]
  {
    s := State(true, [], [], [], [], [], [], map[], kv, false);
    if listing.None? {
      assert forall id: nat :: id in kv ==> !IdOk(s, id);
      return;
    }
    var ports := listing.value;
    for i := 0 to |ports|
      invariant IsLoading(s, kv, ports[..i])
    {
      LoadingGrows(s, kv, ports, i);
      s := s.(entry := s.entry + [ports[i]], owner := s.owner + [None], deleted := s.deleted + [false],
              entries := s.entries[ports[i].id := i]);
    }
    assert ports[..|ports|] == ports;
    LoadedIsOk(s, ports);
  }

  /** No thread has started, and the entries so far have a chunk each. */
  ghost predicate IsLoading(s: State, kv: map<nat, Entry>, ports: seq<Entry>) {
    && s.mirrored && s.pc == [] && s.kv == kv && Shaped(s) && !s.panicked && s.entry == ports
    && (forall c :: 0 <= c < |ports| ==> s.owner[c].None? && !s.deleted[c] && Mapped(s, c))
    && (forall id :: id in s.entries ==> s.entry[s.entries[id]].id == id)
  }

  lemma LoadingGrows(s: State, kv: map<nat, Entry>, ports: seq<Entry>, i: nat)
    requires i < |ports| && IsLoading(s, kv, ports[..i]) && Lists(ports, kv)
    ensures IsLoading(s.(entry := s.entry + [ports[i]], owner := s.owner + [None], deleted := s.deleted + [false],
                         entries := s.entries[ports[i].id := i]), kv, ports[..i + 1])
  {
    var t := s.(entry := s.entry + [ports[i]], owner := s.owner + [None], deleted := s.deleted + [false],
                entries := s.entries[ports[i].id := i]);
    assert t.entry == ports[..i + 1];
    forall c | 0 <= c <= i
      ensures t.owner[c].None? && !t.deleted[c] && Mapped(t, c)
    {
      assert c < i ==> Mapped(s, c) && t.entry[c] == ports[c] && s.entry[c] == ports[c];
    }
  }

  lemma LoadedIsOk(s: State, ports: seq<Entry>)
    requires IsLoading(s, s.kv, ports) && Lists(ports, s.kv)
    ensures Inv(s)
  {
    forall id: nat
      ensures IdOk(s, id)
    {
      if id in s.kv {
        var i :| 0 <= i < |ports| && ports[i].id == id;
        assert Mapped(s, i);
      }
    }
  }

  /**
   The store agrees with the map in every reachable state: an id that is not mapped is not stored, and an
   entry that nobody has locked, or that somebody has a handle on, is not deleted and is stored as it is.
   */
  lemma KvAgreement(s0: State, acts: seq<Action>, id: nat)
    requires Shaped(s0) && Inv(s0) && s0.mirrored && Legal(s0, acts) && KeepsIds(s0, acts)
    ensures var s := Run(s0, acts);
            if id !in s.entries then id !in s.kv
            else
              var c := s.entries[id];
              s.owner[c].None? || (s.owner[c].value < |s.pc| && s.pc[s.owner[c].value] == Holding(c)) ==>
                !s.deleted[c] && id in s.kv && s.kv[id] == s.entry[c]
  {
    RunKeepsInv(s0, acts);
    RunKeepsMirrored(s0, acts);
    var s := Run(s0, acts);
    assert IdOk(s, id);
    if id in s.entries {
      var c := s.entries[id];
      assert ChunkOk(s, c);
      if s.owner[c].Some? {
        assert ThreadOk(s, s.owner[c].value);
      }
    }
  }

  lemma {:induction false} RunKeepsMirrored(s: State, acts: seq<Action>)
    requires Shaped(s) && Legal(s, acts)
    ensures Run(s, acts).mirrored == s.mirrored
    decreases |acts|
  {
    if acts != [] {
      RunKeepsMirrored(Next(s, acts[0]), acts[1..]);
    }
  }

  /** There is at most one handle for an id; its chunk is the mapped one, it is not deleted, and its lock is held. */
  lemma HandleExclusivity(s0: State, acts: seq<Action>, t: nat, u: nat)
    requires Shaped(s0) && Inv(s0) && Legal(s0, acts) && KeepsIds(s0, acts)
    requires t < |Run(s0, acts).pc| && Run(s0, acts).pc[t].Holding?
    requires u < |Run(s0, acts).pc| && Run(s0, acts).pc[u].Holding?
    ensures var s := Run(s0, acts);
            var c := s.pc[t].chunk;
            && !s.deleted[c] && s.owner[c] == Some(t)
            && s.entry[c].id in s.entries && s.entries[s.entry[c].id] == c
            && (s.entry[s.pc[u].chunk].id == s.entry[c].id ==> t == u)
  {
    RunKeepsInv(s0, acts);
    var s := Run(s0, acts);
    assert ThreadOk(s, t) && ThreadOk(s, u);
  }

  /** Every lock that a thread takes it gives back exactly once, also when it calls both Delete and Unlock, or Unlock twice. */
  lemma LocksAreGivenBackOnce(s0: State, acts: seq<Action>, t: nat)
    requires Shaped(s0) && Inv(s0) && Legal(s0, acts) && KeepsIds(s0, acts) && t < |Run(s0, acts).pc|
    ensures var s := Run(s0, acts);
            && !s.panicked
            && s.given[t] <= s.taken[t] <= s.given[t] + 1
            && (s.pc[t].Finished? ==> s.given[t] == s.taken[t])
            && (s.taken[t] == s.given[t] + 1 ==> exists c :: 0 <= c < |s.owner| && s.owner[c] == Some(t))
  {
    RunKeepsInv(s0, acts);
    var s := Run(s0, acts);
    assert ThreadOk(s, t);
    if OwnsSome(s.pc[t]) {
      assert s.owner[s.pc[t].chunk] == Some(t);
    }
  }

  /** No deadlock: while a thread is not finished, some thread can take a step. */
  lemma NeverStuck(s0: State, acts: seq<Action>, t: nat)
    requires Shaped(s0) && Inv(s0) && Legal(s0, acts) && KeepsIds(s0, acts)
    requires t < |Run(s0, acts).pc| && !Run(s0, acts).pc[t].Finished?
    ensures exists a: Action :: Enabled(Run(s0, acts), a) && !a.Start? && !Run(s0, acts).pc[a.t].Finished?
  {
    RunKeepsInv(s0, acts);
    var s := Run(s0, acts);
    if s.pc[t].Waiting? && s.owner[s.pc[t].chunk].Some? {
      assert ChunkOk(s, s.pc[t].chunk);
      CanMove(s, s.owner[s.pc[t].chunk].value);
    } else {
      CanMove(s, t);
    }
  }

  lemma CanMove(s: State, t: nat)
    requires Shaped(s) && t < |s.pc| && !s.pc[t].Finished?
    requires s.pc[t].Waiting? ==> s.owner[s.pc[t].chunk].None?
    ensures exists a: Action :: Enabled(s, a) && !a.Start? && a.t == t
  {
    var a := match s.pc[t]
      case Looking(_, _) => Lookup(t)
      case Creating(_) => LookupOrCreate(t)
      case Waiting(_, _, _) => Acquire(t)
      case Inspecting(_, _, _) => Inspect(t)
      case Storing(_) => Store(t, true)
      case Reverting(_) => Revert(t)
      case Discarding(_) => Discard(t)
      case Removed(_) => Unmap(t)
      case _ => Unlock(t);
    assert Enabled(s, a);
  }

  /** NewCache: empty, and without a store. */
  const NewCache := State(false, [], [], [], [], [], [], map[], map[], false)

  /**
   The flow cache, from its creation and in every interleaving of threads that keep flow ids: two handles on
   one id are the same thread's, every handle is on the mapped chunk with its lock held, every lock is given
   back once, and threads that are not finished do not block each other for ever.
   */
  lemma CacheGuarantees(acts: seq<Action>, t: nat, u: nat)
    requires Shaped(NewCache) && Legal(NewCache, acts) && KeepsIds(NewCache, acts)
    requires t < |Run(NewCache, acts).pc| && u < |Run(NewCache, acts).pc|
    ensures var s := Run(NewCache, acts);
            && !s.panicked && (s.pc[t].Finished? ==> s.given[t] == s.taken[t])
            && (s.pc[t].Holding? ==>
                  && s.owner[s.pc[t].chunk] == Some(t) && !s.deleted[s.pc[t].chunk] && Mapped(s, s.pc[t].chunk)
                  && (s.pc[u].Holding? && s.entry[s.pc[u].chunk].id == s.entry[s.pc[t].chunk].id ==> t == u))
            && (!s.pc[t].Finished? ==> exists a: Action :: Enabled(s, a) && !a.Start? && !s.pc[a.t].Finished?)
  {
    assert Inv(NewCache);
    LocksAreGivenBackOnce(NewCache, acts, t);
    var s := Run(NewCache, acts);
    if s.pc[t].Holding? {
      HandleExclusivity(NewCache, acts, t, t);
      if s.pc[u].Holding? {
        HandleExclusivity(NewCache, acts, t, u);
      }
    }
    if !s.pc[t].Finished? {
      NeverStuck(NewCache, acts, t);
    }
  }

  /** Chunk c is out of the map, and thread t has nothing to do with it. */
  ghost predicate Gone(s: State, t: nat, c: nat)
    requires Shaped(s)
  {
    && t < |s.pc| && c < |s.entry|
    && (forall id {:trigger s.entries[id]} :: id in s.entries ==> s.entries[id] != c)
    && (OwnsSome(s.pc[t]) || s.pc[t].Waiting? ==> s.pc[t].chunk != c)
  }

  lemma StepKeepsGone(s: State, a: Action, t: nat, c: nat)
    requires Shaped(s) && Enabled(s, a) && Gone(s, t, c)
    ensures Gone(Next(s, a), t, c)
  {
    if IsChunkStep(s, a) {
      var u, d := a.t, s.pc[a.t].chunk;
      WriteKeepsGone(s, u, d, OnChunk(Read(s, u, d), s.mirrored, u, d, a), t, c);
    }
  }

  lemma WriteKeepsGone(s: State, u: nat, d: nat, v: View, t: nat, c: nat)
    requires Shaped(s) && Gone(s, t, c) && u < |s.pc| && d < |s.entry|
    requires ChunkExists(s, v.pc) && (v.mapping.None? || v.mapping == Get(s.entries, s.entry[d].id))
    requires OwnsSome(v.pc) || v.pc.Waiting? ==> (OwnsSome(s.pc[u]) || s.pc[u].Waiting?) && v.pc.chunk == d == s.pc[u].chunk
    ensures Gone(Write(s, u, d, v), t, c)
  {
  }

  lemma {:induction false} RunKeepsGone(s: State, acts: seq<Action>, t: nat, c: nat)
    requires Shaped(s) && Legal(s, acts) && Gone(s, t, c)
    ensures Gone(Run(s, acts), t, c)
    decreases |acts|
  {
    if acts != [] {
      StepKeepsGone(s, acts[0], t, c);
      RunKeepsGone(Next(s, acts[0]), acts[1..], t, c);
    }
  }

  /**
   Retries make progress: in a reachable state, a thread that has locked a chunk and finds it deleted never
   waits for, locks or holds that chunk again, whatever happens afterwards.
   */
  lemma RetryNeverMeetsTheSameChunk(s: State, t: nat, acts: seq<Action>)
    requires Shaped(s) && Inv(s) && t < |s.pc| && s.pc[t].Inspecting? && s.deleted[s.pc[t].chunk]
    requires Legal(Next(s, Inspect(t)), acts)
    ensures var s' := Run(Next(s, Inspect(t)), acts);
            Gone(s', t, s.pc[t].chunk)
  {
    var c := s.pc[t].chunk;
    assert ThreadOk(s, t);
    forall id: nat | id in s.entries
      ensures s.entries[id] != c
    {
      assert IdOk(s, id);
    }
    assert Gone(Next(s, Inspect(t)), t, c);
    RunKeepsGone(Next(s, Inspect(t)), acts, t, c);
  }

  /** The store agrees about the ids of all unlocked entries. */
  ghost predicate Agrees(s: State)
    requires Shaped(s)
  {
    forall id: nat {:trigger id in s.kv} ::
      if id !in s.entries then id !in s.kv
      else s.owner[s.entries[id]].None? ==> id in s.kv && s.kv[id] == s.entry[s.entries[id]]
  }

  /** Updating through a handle and unlocking keeps the agreement exactly when the update keeps the entry's id. */
  lemma UpdateKeepsAgreementIff(s: State, t: nat, e: Entry)
    requires Shaped(s) && Inv(s) && s.mirrored && t < |s.pc| && s.pc[t].Holding?
    ensures var s' := Next(Next(s, Update(t, e, true)), Unlock(t));
            Agrees(s') <==> e.id == s.entry[s.pc[t].chunk].id
  {
    var s1 := Next(s, Update(t, e, true));
    var s' := Next(s1, Unlock(t));
    var id := s.entry[s.pc[t].chunk].id;
    assert ThreadOk(s, t);
    if e.id == id {
      StepKeepsInv(s, Update(t, e, true));
      StepKeepsInv(s1, Unlock(t));
      InvAgrees(s');
    } else {
      assert IdOk(s, id);
      assert id in s'.entries && s'.entries[id] == s.pc[t].chunk && s'.owner[s.pc[t].chunk].None?;
      assert s'.entry[s.pc[t].chunk] == e && s'.kv[id].id == id;
    }
  }

  lemma InvAgrees(s: State)
    requires Shaped(s) && Inv(s) && s.mirrored
    ensures Agrees(s)
  {
    forall id: nat
      ensures id !in s.entries ==> id !in s.kv
      ensures id in s.entries && s.owner[s.entries[id]].None? ==> id in s.kv && s.kv[id] == s.entry[s.entries[id]]
    {
      assert IdOk(s, id);
    }
  }
}
