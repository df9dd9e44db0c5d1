/**
 The loader as the source builds it: chunks on the heap that the map, the waiting threads and the handles
 share, updated in place.  Each method is what runs between two points where a thread may be interrupted,
 and refines one step of EntryLoader.
 */
module PortLoader {
  import opened Prelude
  import opened EntryLoader

  class Chunk {
    ghost const number: nat
    var port: Entry
    var deleted: bool
    var holder: Option<nat>  // the chunk's mutex: the thread that has locked it

    constructor (port: Entry, holder: nat, ghost number: nat)
      ensures this.port == port && !deleted && this.holder == Some(holder) && this.number == number
    {
      this.port, deleted, this.holder, this.number := port, false, Some(holder), number;
    }
  }

  /** Invalid once its chunk is nil. */
  class Handle {
    var chunk: Chunk?

    constructor (chunk: Chunk)
      ensures this.chunk == chunk
    {
      this.chunk := chunk;
    }
  }

  ghost predicate Numbered(chunks: seq<Chunk>) {
    forall i {:trigger chunks[i]} :: 0 <= i < |chunks| ==> chunks[i].number == i
  }

  ghost predicate Known(chunks: seq<Chunk>, c: Chunk) {
    c.number < |chunks| && chunks[c.number] == c
  }

  ghost predicate ChunksMatch(chunks: seq<Chunk>, entry: seq<Entry>, owner: seq<Option<nat>>, deleted: seq<bool>)
    reads chunks
  {
    && |entry| == |chunks| && |owner| == |chunks| && |deleted| == |chunks|
    && (forall i {:trigger entry[i]} :: 0 <= i < |chunks| ==> chunks[i].port == entry[i])
    && (forall i {:trigger owner[i]} :: 0 <= i < |chunks| ==> chunks[i].holder == owner[i])
    && (forall i {:trigger deleted[i]} :: 0 <= i < |chunks| ==> chunks[i].deleted == deleted[i])
  }

  ghost predicate PortsMatch(chunks: seq<Chunk>, ports: map<nat, Chunk>, entries: map<nat, nat>) {
    && ports.Keys == entries.Keys
    && forall id {:trigger ports[id]} :: id in ports ==> Known(chunks, ports[id]) && ports[id].number == entries[id]
  }

  // Writes to one chunk.

  method SetHolder(c: Chunk, holder: Option<nat>, ghost chunks: seq<Chunk>, ghost m: State)
    requires Numbered(chunks) && Known(chunks, c) && ChunksMatch(chunks, m.entry, m.owner, m.deleted)
    modifies c`holder
    ensures c.holder == holder && ChunksMatch(chunks, m.entry, m.owner[c.number := holder], m.deleted)
  {
    c.holder := holder;
  }

  /** Unlocking a mutex that is not locked would panic. */
  method Release(c: Chunk, ghost t: nat, ghost chunks: seq<Chunk>, ghost m: State)
    requires c.holder == Some(t)
    requires Numbered(chunks) && Known(chunks, c) && ChunksMatch(chunks, m.entry, m.owner, m.deleted)
    modifies c`holder
    ensures c.holder == None && ChunksMatch(chunks, m.entry, m.owner[c.number := None], m.deleted)
  {
    SetHolder(c, None, chunks, m);
  }

  method SetPort(c: Chunk, port: Entry, ghost chunks: seq<Chunk>, ghost m: State)
    requires Numbered(chunks) && Known(chunks, c) && ChunksMatch(chunks, m.entry, m.owner, m.deleted)
    modifies c`port
    ensures c.port == port && ChunksMatch(chunks, m.entry[c.number := port], m.owner, m.deleted)
  {
    c.port := port;
  }

  method MarkDeleted(c: Chunk, ghost chunks: seq<Chunk>, ghost m: State)
    requires Numbered(chunks) && Known(chunks, c) && ChunksMatch(chunks, m.entry, m.owner, m.deleted)
    modifies c`deleted
    ensures c.deleted && ChunksMatch(chunks, m.entry, m.owner, m.deleted[c.number := true])
  {
    c.deleted := true;
  }

  lemma ExtendChunks(chunks: seq<Chunk>, c: Chunk, m: State)
    requires Numbered(chunks) && ChunksMatch(chunks, m.entry, m.owner, m.deleted) && c.number == |chunks|
    ensures Numbered(chunks + [c]) && Known(chunks + [c], c)
    ensures ChunksMatch(chunks + [c], m.entry + [c.port], m.owner + [c.holder], m.deleted + [c.deleted])
  {
    var cs := chunks + [c];
    forall i | 0 <= i < |chunks|
      ensures cs[i].port == m.entry[i] && cs[i].holder == m.owner[i] && cs[i].deleted == m.deleted[i]
    {
      assert m.entry[i] == chunks[i].port && m.owner[i] == chunks[i].holder && m.deleted[i] == chunks[i].deleted;
    }
  }

  lemma ExtendPorts(chunks: seq<Chunk>, ports: map<nat, Chunk>, entries: map<nat, nat>, c: Chunk, id: nat)
    requires PortsMatch(chunks, ports, entries) && c.number == |chunks|
    ensures PortsMatch(chunks + [c], ports[id := c], entries[id := c.number])
  {
    var cs, ps := chunks + [c], ports[id := c];
    forall k | k in ps
      ensures Known(cs, ps[k]) && ps[k].number == entries[id := c.number][k]
    {
      assert k != id ==> Known(chunks, ports[k]) && cs[ports[k].number] == chunks[ports[k].number];
    }
  }

  class Loader {
    const mirrored: bool
    var ports: map<nat, Chunk>
    var kv: map<nat, Entry>
    ghost var chunks: seq<Chunk>
    ghost var model: State

    ghost predicate Represents()
      reads this, chunks
    {
      && Numbered(chunks)
      && ChunksMatch(chunks, model.entry, model.owner, model.deleted)
      && PortsMatch(chunks, ports, model.entries)
      && kv == model.kv && mirrored == model.mirrored
    }

    ghost predicate Valid()
      reads this, chunks
    {
      Represents() && Shaped(model) && Inv(model)
    }

    /** NewLoader with nothing stored, or NewCache. */
    constructor (mirrored: bool)
      ensures Valid() && this.mirrored == mirrored && model.pc == [] && kv == map[]
    {
      this.mirrored, ports, kv, chunks := mirrored, map[], map[], [];
      model := State(mirrored, [], [], [], [], [], [], map[], map[], false);
    }

    /** A thread enters Lock or LockOrCreate. */
    ghost method Begin(want: Entry, create: bool) returns (t: nat)
      requires Valid()
      modifies this`model
      ensures Valid() && model == Next(old(model), Start(want, create)) && t == |old(model).pc|
    {
      t := |model.pc|;
      StepKeepsInv(model, Start(want, create));
      model := Next(model, Start(want, create));
    }

    /** Lock: look the id up under the map's lock. */
    method Find(t: nat, id: nat) returns (entry: Chunk?)
      requires Valid() && t < |model.pc| && model.pc[t].Looking? && model.pc[t].want.id == id
      modifies this`model
      ensures Valid() && model == Next(old(model), Lookup(t))
      ensures entry != null ==> Known(chunks, entry) && model.pc[t] == Waiting(old(model).pc[t].want, old(model).pc[t].create, entry.number)
      ensures entry == null ==> !model.pc[t].Waiting?
      ensures entry == null <==> id !in ports
    {
      entry := if id in ports then ports[id] else null;
      StepKeepsInv(model, Lookup(t));
      model := Next(model, Lookup(t));
    }

    /** Blocks until the chunk's mutex is free, so it runs only then. */
    method AcquireLock(t: nat, entry: Chunk)
      requires Valid() && Known(chunks, entry)
      requires t < |model.pc| && model.pc[t].Waiting? && model.pc[t].chunk == entry.number && entry.holder.None?
      modifies this`model, entry`holder
      ensures Valid() && model == Next(old(model), Acquire(t)) && entry.holder == Some(t)
    {
      assert model.owner[entry.number].None?;
      StepKeepsInv(model, Acquire(t));
      ChunkStepEffect(model, Acquire(t));
      SetHolder(entry, Some(t), chunks, model);
      model := Next(model, Acquire(t));
    }

    /** Lock and LockOrCreate, once they have the chunk: a tombstone sends the thread back to the map. */
    method CheckDeleted(t: nat, entry: Chunk) returns (handle: Handle?)
      requires Valid() && Known(chunks, entry)
      requires t < |model.pc| && model.pc[t].Inspecting? && model.pc[t].chunk == entry.number
      modifies this`model, entry`holder
      ensures Valid() && model == Next(old(model), Inspect(t))
      ensures handle == null <==> old(entry.deleted)
      ensures entry.holder == if old(entry.deleted) then None else Some(t)
      ensures handle != null ==> fresh(handle) && handle.chunk == entry && model.pc[t] == Holding(entry.number)
    {
      assert ThreadOk(model, t) && model.owner[entry.number] == Some(t);
      StepKeepsInv(model, Inspect(t));
      ChunkStepEffect(model, Inspect(t));
      assert model.deleted[entry.number] == entry.deleted;
      handle := null;
      if entry.deleted {
        Release(entry, t, chunks, model);
      } else {
        handle := new Handle(entry);
      }
      model := Next(model, Inspect(t));
    }

    /** LockOrCreate under the map's write lock: the mapped chunk, or a new one that is already locked. */
    method FindOrCreate(t: nat, port: Entry) returns (entry: Chunk, created: bool)
      requires Valid() && t < |model.pc| && model.pc[t] == Creating(port)
      modifies this`ports, this`chunks, this`model
      ensures Valid() && model == Next(old(model), LookupOrCreate(t))
      ensures Known(chunks, entry) && (created <==> port.id !in old(ports)) && (created ==> fresh(entry))
      ensures port.id in ports && ports[port.id] == entry && entry.port.id == port.id && (created ==> entry.port == port)
      ensures model.pc[t] == if !created then Waiting(port, true, entry.number) else if mirrored then Storing(entry.number) else Holding(entry.number)
    {
      created := port.id !in ports;
      if created {
        entry := AddChunk(t, port);
      } else {
        entry := ports[port.id];
        assert IdOk(model, port.id) && model.entry[entry.number] == entry.port;
        StepKeepsInv(model, LookupOrCreate(t));
        model := Next(model, LookupOrCreate(t));
      }
    }

    method AddChunk(t: nat, port: Entry) returns (entry: Chunk)
      requires Valid() && t < |model.pc| && model.pc[t] == Creating(port) && port.id !in ports
      modifies this`ports, this`chunks, this`model
      ensures Valid() && model == Next(old(model), LookupOrCreate(t))
      ensures Known(chunks, entry) && fresh(entry) && entry.number == |old(chunks)|
      ensures ports == old(ports)[port.id := entry] && entry.port == port
    {
      StepKeepsInv(model, LookupOrCreate(t));
      entry := new Chunk(port, t, |chunks|);
      ExtendChunks(chunks, entry, model);
      ExtendPorts(chunks, ports, model.entries, entry, port.id);
      ports := ports[port.id := entry];
      chunks := chunks + [entry];
      model := Next(model, LookupOrCreate(t));
    }

    /** LockOrCreate: store the new entry; a failed call has no effect on the store. */
    method StoreNew(t: nat, entry: Chunk, ok: bool) returns (handle: Handle?)
      requires Valid() && Known(chunks, entry) && t < |model.pc| && model.pc[t] == Storing(entry.number)
      modifies this`kv, this`model
      ensures Valid() && model == Next(old(model), Store(t, ok))
      ensures if ok then handle != null && fresh(handle) && handle.chunk == entry && model.pc[t] == Holding(entry.number)
              else handle == null && model.pc[t] == Reverting(entry.number)
      ensures kv == if ok then old(kv)[entry.port.id := entry.port] else old(kv)
    {
      StepKeepsInv(model, Store(t, ok));
      ChunkStepEffect(model, Store(t, ok));
      assert model.entry[entry.number] == entry.port;
      handle := null;
      if ok {
        kv := kv[entry.port.id := entry.port];
        handle := new Handle(entry);
      }
      model := Next(model, Store(t, ok));
    }

    /** LockOrCreate, after the store failed: take the chunk out of the map. */
    method RevertMap(t: nat, entry: Chunk)
      requires Valid() && Known(chunks, entry) && t < |model.pc| && model.pc[t] == Reverting(entry.number)
      modifies this`ports, this`model
      ensures Valid() && model == Next(old(model), Revert(t)) && ports == old(ports) - {entry.port.id}
    {
      StepKeepsInv(model, Revert(t));
      ChunkStepEffect(model, Revert(t));
      assert model.entry[entry.number] == entry.port;
      ports := ports - {entry.port.id};
      model := Next(model, Revert(t));
    }

    /** LockOrCreate, after the map was reverted: leave a tombstone for those who wait for the chunk. */
    method DiscardChunk(t: nat, entry: Chunk)
      requires Valid() && Known(chunks, entry) && t < |model.pc| && model.pc[t] == Discarding(entry.number)
      modifies this`model, entry`deleted, entry`holder
      ensures Valid() && model == Next(old(model), Discard(t)) && entry.deleted && entry.holder == None
    {
      StepKeepsInv(model, Discard(t));
      ChunkStepEffect(model, Discard(t));
      assert ThreadOk(model, t) && model.owner[entry.number] == Some(t);
      MarkDeleted(entry, chunks, model);
      Release(entry, t, chunks, model.(deleted := model.deleted[entry.number := true]));
      model := Next(model, Discard(t));
    }

    /** Handle.Update.  The loader stays valid if the update fails or the entry keeps its id. */
    method UpdateEntry(t: nat, h: Handle, port: Entry, ok: bool)
      requires Valid() && h.chunk != null && Known(chunks, h.chunk) && t < |model.pc| && model.pc[t] == Holding(h.chunk.number)
      requires ok || mirrored
      modifies this`kv, this`model, h.chunk`port
      ensures Represents() && Shaped(model) && model == Next(old(model), Update(t, port, ok))
      ensures !ok || port.id == old(h.chunk.port.id) ==> Valid()
      ensures h.chunk.port == if ok then port else old(h.chunk.port)
      ensures kv == if ok && mirrored then old(kv)[port.id := port] else old(kv)
    {
      assert model.entry[h.chunk.number] == h.chunk.port;
      ghost var before := model;
      if ok {
        StoreUpdate(t, h.chunk, port);
      }
      if port.id == before.entry[h.chunk.number].id {
        StepKeepsInv(before, Update(t, port, ok));
      }
    }

    method StoreUpdate(t: nat, c: Chunk, port: Entry)
      requires Represents() && Shaped(model) && Known(chunks, c) && t < |model.pc| && model.pc[t] == Holding(c.number)
      modifies this`kv, this`model, c`port
      ensures Represents() && Shaped(model) && model == Next(old(model), Update(t, port, true))
      ensures c.port == port && kv == if mirrored then old(kv)[port.id := port] else old(kv)
    {
      if mirrored {
        kv := kv[port.id := port];
      }
      SetPort(c, port, chunks, model);
      model := Next(model, Update(t, port, true));
    }

    /** Handle.Delete: remove from the store and leave the tombstone. */
    method RemoveEntry(t: nat, h: Handle, ok: bool)
      requires Valid() && h.chunk != null && Known(chunks, h.chunk) && t < |model.pc| && model.pc[t] == Holding(h.chunk.number)
      requires ok || mirrored
      modifies this`kv, this`model, h.chunk`deleted
      ensures Valid() && model == Next(old(model), Delete(t, ok))
      ensures kv == if ok && mirrored then old(kv) - {h.chunk.port.id} else old(kv)
      ensures h.chunk.deleted <==> old(h.chunk.deleted) || ok
    {
      assert model.entry[h.chunk.number] == h.chunk.port;
      StepKeepsInv(model, Delete(t, ok));
      ChunkStepEffect(model, Delete(t, ok));
      if ok {
        if mirrored {
          kv := kv - {h.chunk.port.id};
        }
        MarkDeleted(h.chunk, chunks, model);
      }
      model := Next(model, Delete(t, ok));
    }

    /** Handle.Delete: take the chunk out of the map. */
    method UnmapEntry(t: nat, h: Handle)
      requires Valid() && h.chunk != null && Known(chunks, h.chunk) && t < |model.pc| && model.pc[t] == Removed(h.chunk.number)
      modifies this`ports, this`model
      ensures Valid() && model == Next(old(model), Unmap(t)) && ports == old(ports) - {h.chunk.port.id}
    {
      assert model.entry[h.chunk.number] == h.chunk.port;
      StepKeepsInv(model, Unmap(t));
      ChunkStepEffect(model, Unmap(t));
      ports := ports - {h.chunk.port.id};
      model := Next(model, Unmap(t));
    }

    /** Handle.Unlock, which may be called again, or after Delete, without effect. */
    method UnlockHandle(t: nat, h: Handle)
      requires Valid() && t < |model.pc|
      requires if h.chunk == null then model.pc[t].Finished?
               else Known(chunks, h.chunk) && (model.pc[t] == Holding(h.chunk.number) || model.pc[t] == Unmapped(h.chunk.number))
      modifies this`model, h, h.chunk
      ensures Valid() && model == Next(old(model), Unlock(t))
      ensures h.chunk == null && model.pc[t].Finished? && (old(h.chunk) != null ==> old(h.chunk).holder == None)
    {
      StepKeepsInv(model, Unlock(t));
      if h.chunk != null {
        ChunkStepEffect(model, Unlock(t));
        assert ThreadOk(model, t) && model.owner[h.chunk.number] == Some(t);
        Release(h.chunk, t, chunks, model);
        h.chunk := null;
      }
      model := Next(model, Unlock(t));
    }
  }
}
