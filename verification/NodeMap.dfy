/** The node store of open62541: an open-addressing hash map with double hashing, tombstones,
    prime sizes, growth and shrinking, refining a finite map from node ids to entries. */
module NodeMap {
  import opened Basics
  import opened Probing

  const MINSIZE: nat := 64
  const UINT32_MAX: nat := 0xFFFF_FFFF
  // Below this many nodes none of the store's 32-bit products (size * 3, count * 8) wraps around.
  const CAPACITY: nat := 0x1000_0000

  const PRIMES: seq<nat> := [
    7, 13, 31, 61, 127, 251,
    509, 1021, 2039, 4093, 8191, 16381,
    32749, 65521, 131071, 262139, 524287, 1048573,
    2097143, 4194301, 8388593, 16777213, 33554393, 67108859,
    134217689, 268435399, 536870909, 1073741789, 2147483647, 4294967291
  ]

  ghost predicate PrimeTable() { forall i :: 0 <= i < |PRIMES| ==> IsPrime(PRIMES[i]) }

  lemma PrimesIncrease(i: nat, j: nat)
    requires i <= j < |PRIMES|
    ensures PRIMES[i] <= PRIMES[j]
  {
    if i < j { PrimesIncrease(i, j - 1); }
  }

  datatype NodeId = Numeric(ns: nat, value: nat) | Other(ns: nat, key: string)

  /** An entry pointer together with the parts of the node that never change once it is stored. */
  datatype Entry = Entry(handle: nat, id: NodeId, orig: Option<nat>)
  /** The mutable part of an entry. A handle without a cell has been freed. */
  datatype Cell = Cell(refCount: nat, deleted: bool)
  datatype Slot = Null | Tombstone | Live(entry: Entry, nodeIdHash: nat)
  datatype Status = Good | BadNodeIdUnknown | BadNodeIdExists | BadInternalError

  type Hash = NodeId -> nat

  // ------------------------------------------------------------------ the table invariant

  /** Every stored id has exactly one live slot, and `at` names it. */
  ghost predicate Indexed(hash: Hash, slots: seq<Slot>, at: map<NodeId, nat>)
  {
    && (forall id :: id in at ==> at[id] < |slots| && slots[at[id]].Live? && slots[at[id]].entry.id == id)
    && (forall i :: 0 <= i < |slots| && slots[i].Live? ==>
          slots[i].entry.id in at && at[slots[i].entry.id] == i && slots[i].nodeIdHash == hash(slots[i].entry.id))
  }

  /** No NULL slot precedes a live entry on its probe path. */
  ghost predicate Reachable(hash: Hash, slots: seq<Slot>, at: map<NodeId, nat>)
    requires |slots| > 2
  {
    forall id, j: nat, k: nat ::
      id in at && j < k < |slots| && Probe(hash(id), |slots|, k) == at[id] ==>
          slots[Probe(hash(id), |slots|, j)] != Null
  }

  ghost predicate Table(hash: Hash, slots: seq<Slot>, at: map<NodeId, nat>)
  {
    |slots| > 2 && Indexed(hash, slots, at) && Reachable(hash, slots, at)
  }

  predicate Holds(slot: Slot, id: NodeId) { slot.Live? && slot.entry.id == id }

  /** The finite map a table stands for. */
  ghost function Model(slots: seq<Slot>, at: map<NodeId, nat>): map<NodeId, Entry>
    requires forall id :: id in at ==> at[id] < |slots| && slots[at[id]].Live?
  {
    map id | id in at :: slots[at[id]].entry
  }

  ghost predicate Unused(m: map<NodeId, Entry>, h: nat)
  {
    forall id :: id in m ==> m[id].handle != h
  }

  lemma StoredSlot(hash: Hash, slots: seq<Slot>, at: map<NodeId, nat>, i: nat)
    requires Table(hash, slots, at) && i < |slots| && slots[i].Live?
    ensures slots[i].entry.id in at && at[slots[i].entry.id] == i
    ensures slots[i].nodeIdHash == hash(slots[i].entry.id)
  {
  }

  /** The search may stop at a NULL slot or after a full turn: the id is not stored. */
  lemma SearchExhausted(hash: Hash, slots: seq<Slot>, at: map<NodeId, nat>, id: NodeId, k: nat)
    requires Table(hash, slots, at) && IsPrime(|slots|) && k <= |slots|
    requires forall j: nat :: j < k ==> !Holds(slots[Probe(hash(id), |slots|, j)], id)
    requires k == |slots| || slots[Probe(hash(id), |slots|, k)] == Null
    ensures id !in at
  {
    if id in at {
      var n := WalkReaches(Mod(hash(id), |slots|), Mod2(hash(id), |slots|), |slots|, at[id]);
      assert Probe(hash(id), |slots|, n) == at[id];
      assert Holds(slots[at[id]], id);
    }
  }

  /** Writing an entry into the first free slot of its probe path keeps the table searchable. */
  lemma StoreKeepsTable(hash: Hash, slots: seq<Slot>, at: map<NodeId, nat>, e: Entry, k: nat)
    requires Table(hash, slots, at) && IsPrime(|slots|)
    requires e.id !in at && k < |slots|
    requires !slots[Probe(hash(e.id), |slots|, k)].Live?
    requires forall j: nat :: j < k ==> slots[Probe(hash(e.id), |slots|, j)].Live?
    ensures var i := Probe(hash(e.id), |slots|, k);
            Table(hash, slots[i := Live(e, hash(e.id))], at[e.id := i])
  {
    var i := Probe(hash(e.id), |slots|, k);
    var slots', at' := slots[i := Live(e, hash(e.id))], at[e.id := i];
    forall id, j: nat, n: nat | id in at' && j < n < |slots'| && Probe(hash(id), |slots'|, n) == at'[id]
      ensures slots'[Probe(hash(id), |slots'|, j)] != Null
    {
      if id == e.id {
        if k < n { WalkInjective(Mod(hash(id), |slots|), Mod2(hash(id), |slots|), |slots|, k, n); }
      }
    }
  }

  lemma TombstoneKeepsTable(hash: Hash, slots: seq<Slot>, at: map<NodeId, nat>, id: NodeId)
    requires Table(hash, slots, at) && id in at
    ensures Table(hash, slots[at[id] := Tombstone], at - {id})
  {
  }

  ghost function LiveSlots(slots: seq<Slot>): set<int>
  {
    set i | 0 <= i < |slots| && slots[i].Live?
  }

  lemma NothingIndexed(hash: Hash, slots: seq<Slot>)
    requires Indexed(hash, slots, map[])
    ensures LiveSlots(slots) == {}
  {
  }

  lemma UnindexOne(hash: Hash, slots: seq<Slot>, at: map<NodeId, nat>, id: NodeId)
    requires Indexed(hash, slots, at) && id in at
    ensures at[id] < |slots|
    ensures Indexed(hash, slots[at[id] := Tombstone], at - {id})
    ensures |at| == |at - {id}| + 1
    ensures |LiveSlots(slots)| == |LiveSlots(slots[at[id] := Tombstone])| + 1
  {
    assert LiveSlots(slots) == LiveSlots(slots[at[id] := Tombstone]) + {at[id]};
    assert at.Keys == (at - {id}).Keys + {id};
  }

  /** The number of stored ids is the number of live slots. */
  lemma {:induction false} StoredCount(hash: Hash, slots: seq<Slot>, at: map<NodeId, nat>)
    requires Indexed(hash, slots, at)
    ensures |at| == |LiveSlots(slots)|
    decreases |at|
  {
    hide Indexed;
    if at == map[] {
      NothingIndexed(hash, slots);
    } else {
      var id :| id in at;
      UnindexOne(hash, slots, at, id);
      StoredCount(hash, slots[at[id] := Tombstone], at - {id});
    }
  }

  /** A table that is not full has a slot that is not live. */
  lemma RoomLeft(hash: Hash, slots: seq<Slot>, at: map<NodeId, nat>)
    requires Table(hash, slots, at)
    requires forall i :: 0 <= i < |slots| ==> slots[i].Live?
    ensures |at| == |slots|
  {
    StoredCount(hash, slots, at);
    BelowSize(|slots|);
    forall i | i in LiveSlots(slots) ensures i in Below(|slots|) { assert (i as nat) < |slots|; }
    forall i | i in Below(|slots|) ensures i in LiveSlots(slots) { }
    assert LiveSlots(slots) == Below(|slots|);
  }

  /** If all residues are taken as numeric ids, at least `size` nodes are stored. */
  lemma {:induction false} ResiduesTaken(ns: nat, size: nat, ids: set<NodeId>)
    requires forall x: nat :: x < size ==> Numeric(ns, x) in ids
    ensures |ids| >= size
  {
    if size > 0 {
      ResiduesTaken(ns, size - 1, ids - {Numeric(ns, size - 1)});
    }
  }

  // ------------------------------------------------------------------ entry lifetimes

  /** Stored entries are allocated and not deleted, no entry is stored twice, and an entry
      marked deleted is only kept while somebody still references it. */
  ghost predicate Lifetimes(slots: seq<Slot>, memory: map<nat, Cell>)
  {
    && (forall i :: 0 <= i < |slots| && slots[i].Live? ==>
          slots[i].entry.handle in memory && !memory[slots[i].entry.handle].deleted)
    && (forall i, j :: 0 <= i < j < |slots| && slots[i].Live? && slots[j].Live? ==>
          slots[i].entry.handle != slots[j].entry.handle)
    && (forall h :: h in memory && memory[h].deleted ==> memory[h].refCount > 0)
  }

  /** cleanupNodeMapEntry: free the entry once it is deleted and unreferenced. */
  function Cleanup(memory: map<nat, Cell>, h: nat): (m: map<nat, Cell>)
    requires h in memory
    ensures h in m <==> memory[h].refCount > 0 || !memory[h].deleted
    ensures m - {h} == memory - {h}
    ensures h in m ==> m[h] == memory[h]
  {
    if memory[h].refCount == 0 && memory[h].deleted then memory - {h} else memory
  }

  function Retain(memory: map<nat, Cell>, h: nat): map<nat, Cell>
    requires h in memory
  {
    memory[h := memory[h].(refCount := memory[h].refCount + 1)]
  }

  /** A removed or replaced entry is marked deleted, and freed at once unless it is referenced. */
  function Unlink(memory: map<nat, Cell>, h: nat): (m: map<nat, Cell>)
    requires h in memory
    ensures h in m <==> memory[h].refCount > 0
    ensures h in m ==> m[h] == Cell(memory[h].refCount, true)
    ensures m - {h} == memory - {h}
  {
    Cleanup(memory[h := memory[h].(deleted := true)], h)
  }

  /** Index of the smallest table size that is at least n, by binary search. */
  method HigherPrimeIndex(n: nat) returns (low: nat)
    ensures low <= |PRIMES|
    ensures forall i :: 0 <= i < low ==> PRIMES[i] < n
    ensures low < |PRIMES| ==> n <= PRIMES[low]
  {
    low := 0;
    var high := |PRIMES|;
    while low != high
      invariant low <= high <= |PRIMES|
      invariant forall i :: 0 <= i < low ==> PRIMES[i] < n
      invariant high < |PRIMES| ==> n <= PRIMES[high]
      decreases high - low
    {
      var mid := low + (high - low) / 2;
      if n > PRIMES[mid] {
        forall i | 0 <= i < mid + 1 ensures PRIMES[i] < n { PrimesIncrease(i, mid); }
        low := mid + 1;
      } else {
        high := mid;
      }
    }
  }

  class NodeStore {
    const hash: Hash
    var slots: array<Slot>
    var size: nat
    var count: nat
    var sizePrimeIndex: nat
    var memory: map<nat, Cell>
    ghost var at: map<NodeId, nat>

    /** The table part of the invariant, without the count: it also holds in the middle of a rehash. */
    ghost predicate TableValid()
      reads this, slots
    {
      && slots.Length == size > 2
      && IsPrime(size)
      && Table(hash, slots[..], at)
    }

    ghost predicate Valid()
      reads this, slots
    {
      && TableValid()
      && count == |at| <= CAPACITY
      && sizePrimeIndex <= 27 && size == PRIMES[sizePrimeIndex]
      && Lifetimes(slots[..], memory)
    }

    /** The finite map this store implements. */
    ghost function Contents(): map<NodeId, Entry>
      reads this, slots
      requires TableValid()
    {
      Model(slots[..], at)
    }

    /** `count` is the number of live slots, and the table is never full. */
    lemma CountIsLiveSlots()
      requires Valid()
      ensures count == |LiveSlots(slots[..])|
      ensures count == |Contents()|
    {
      StoredCount(hash, slots[..], at);
      assert Contents().Keys == at.Keys;
    }

    constructor (hash: Hash)
      requires PrimeTable()
      ensures Valid() && fresh(slots)
      ensures Contents() == map[]
      ensures size == 127 && this.hash == hash && memory == map[]
    {
      this.hash := hash;
      sizePrimeIndex, size, count := 4, 127, 0;
      slots := new Slot[127](_ => Null);
      memory := map[];
      at := map[];
      new;
      var i := HigherPrimeIndex(MINSIZE);
      assert PRIMES[3] == 61 && PRIMES[4] == 127;
      if i < 4 { PrimesIncrease(i, 3); }
      assert i == 4;
    }

    method FindOccupiedSlot(id: NodeId) returns (r: Option<nat>)
      requires TableValid()
      ensures r.Some? <==> id in at
      ensures r.Some? ==> r.value == at[id]
    {
      hide Mod, Mod2, IsPrime, Table;
      var h := hash(id);
      var idx := Mod(h, size);
      var start, stride := idx, Mod2(h, size);
      ghost var k: nat := 0;
      WalkReturns(start, stride, size);
      while true
        invariant k < size && idx == Probe(h, size, k)
        invariant forall j: nat :: j < k ==> !Holds(slots[Probe(h, size, j)], id)
        decreases size - k
      {
        if slots[idx].Live? {
          StoredSlot(hash, slots[..], at, idx);
          if slots[idx].nodeIdHash == h && slots[idx].entry.id == id { return Some(idx); }
        } else if slots[idx].Null? {
          SearchExhausted(hash, slots[..], at, id, k);
          return None;
        }
        idx := Advance(idx, stride, size);
        k := k + 1;
        if idx == start {
          if k < size { WalkInjective(start, stride, size, 0, k); }
          break;
        }
      }
      SearchExhausted(hash, slots[..], at, id, size);
      r := None;
    }

    /** First tombstone on the probe path, or else its first NULL slot. */
    method FindFreeSlot(id: NodeId) returns (r: Option<nat>, ghost steps: nat)
      requires TableValid()
      ensures r.None? ==> id in at || |at| == size
      ensures r.Some? ==> id !in at && steps < size && r.value == Probe(hash(id), size, steps) && !slots[r.value].Live?
      ensures r.Some? ==> forall j: nat :: j < steps ==> slots[Probe(hash(id), size, j)].Live?
    {
      hide Mod, Mod2, IsPrime, Table;
      var h := hash(id);
      var idx := Mod(h, size);
      var start, stride := idx, Mod2(h, size);
      r, steps := None, 0;
      ghost var k: nat := 0;
      WalkReturns(start, stride, size);
      while true
        invariant k < size && idx == Probe(h, size, k)
        invariant forall j: nat :: j < k ==> !Holds(slots[Probe(h, size, j)], id)
        invariant r.None? ==> forall j: nat :: j < k ==> slots[Probe(h, size, j)].Live?
        invariant r.Some? ==> steps < k && r.value == Probe(h, size, steps) && !slots[r.value].Live?
        invariant r.Some? ==> forall j: nat :: j < steps ==> slots[Probe(h, size, j)].Live?
        decreases size - k
      {
        if slots[idx].Live? {
          StoredSlot(hash, slots[..], at, idx);
          if slots[idx].nodeIdHash == h && slots[idx].entry.id == id { return None, 0; }
        } else {
          if r.None? { r, steps := Some(idx), k; }
          if slots[idx].Null? {
            SearchExhausted(hash, slots[..], at, id, k);
            return;
          }
        }
        idx := Advance(idx, stride, size);
        k := k + 1;
        if idx == start {
          if k < size { WalkInjective(start, stride, size, 0, k); }
          break;
        }
      }
      SearchExhausted(hash, slots[..], at, id, size);
      if r.None? {
        forall i: nat | i < size ensures slots[..][i].Live? {
          var n := WalkReaches(start, stride, size, i);
          assert Probe(h, size, n) == i;
        }
        RoomLeft(hash, slots[..], at);
      }
    }

    /** Rehash into the smallest table of at least twice the live count; about half full afterwards. */
    method Expand()
      requires PrimeTable() && Valid()
      modifies this
      ensures Valid() && (slots == old(slots) || fresh(slots))
      ensures Contents() == old(Contents()) && count == old(count) && memory == old(memory)
      ensures slots == old(slots) ==>
              size == old(size) && count * 2 < size && slots[..] == old(slots[..]) && at == old(at)
      ensures slots != old(slots) ==> size > 2 * count && forall i :: 0 <= i < size ==> slots[i] != Tombstone
      ensures slots == old(slots) <==> count * 2 < old(size) && (count * 8 > old(size) || old(size) <= MINSIZE)
      ensures slots != old(slots) ==> forall i :: 0 <= i < sizePrimeIndex ==> PRIMES[i] < 2 * count
    {
      hide Table, IsPrime, Lifetimes, PRIMES, Model;
      var osize, oslots := size, slots;
      if count * 2 < osize && (count * 8 > osize || osize <= MINSIZE) { return; }
      var nindex := HigherPrimeIndex(count * 2);
      LargeEnough(count * 2, nindex);
      ghost var oat, oseq := at, slots[..];
      size, sizePrimeIndex := PRIMES[nindex], nindex;
      slots := new Slot[size](_ => Null);
      at := map[];
      EmptyTable(hash, slots[..], oseq, oat);
      Rehash(oslots, oat);
    }

    /** The rehash loop: recompute the place of every live entry of the old slots. */
    method Rehash(oslots: array<Slot>, ghost oat: map<NodeId, nat>)
      requires TableValid() && oslots != slots && at == map[] && count == |oat| && |oat| < size
      requires forall n :: 0 <= n < size ==> slots[n] == Null
      requires Table(hash, oslots[..], oat) && Lifetimes(oslots[..], memory)
      modifies this`at, slots
      ensures TableValid() && Lifetimes(slots[..], memory)
      ensures Contents() == Model(oslots[..], oat) && |at| == |oat|
      ensures forall n :: 0 <= n < size ==> slots[n] != Tombstone
    {
      hide Table, IsPrime, Lifetimes, Moved, Model, PRIMES, Probe, Mod, Mod2, Unused;
      EmptyTable(hash, slots[..], oslots[..], oat);
      var i, j := 0, 0;
      while i < oslots.Length && j < count
        invariant i <= oslots.Length && j == |at| <= count
        invariant oslots[..] == old(oslots[..])
        invariant TableValid()
        invariant forall n :: 0 <= n < size ==> slots[n] != Tombstone
        invariant Moved(oslots[..], oat, i, slots[..], at)
      {
        if oslots[i].Live? {
          NotYetMoved(hash, oslots[..], oat, i, slots[..], at);
          MovedFewer(hash, oslots[..], oat, i, slots[..], at);
          ghost var before, at' := slots[..], at;
          var s := Place(oslots[i]);
          MovedOne(hash, oslots[..], oat, i, before, at', s);
          j := j + 1;
        } else {
          MovedNone(hash, oslots[..], oat, i, slots[..], at);
        }
        i := i + 1;
      }
      MovedAll(hash, oslots[..], oat, i, slots[..], at, memory);
    }

    /** createEntry: the allocator returns an address that is not in use. */
    method NewNode(h: nat, id: NodeId, orig: Option<nat>) returns (e: Entry)
      requires Valid() && h !in memory
      modifies this`memory
      ensures Valid() && e == Entry(h, id, orig)
      ensures memory == old(memory)[h := Cell(0, false)] && !Stored(h)
    {
      memory := memory[h := Cell(0, false)];
      e := Entry(h, id, orig);
    }

    method DeleteNode(h: nat)
      requires Valid() && Owned(h)
      modifies this`memory
      ensures Valid() && Contents() == old(Contents()) && memory == old(memory) - {h}
    {
      hide Table, Lifetimes, Model, IsPrime, PRIMES, Unused;
      DropOwned(hash, slots[..], at, memory, h);
      memory := memory - {h};
    }

    ghost predicate Stored(h: nat)
      reads this, slots
      requires TableValid()
    {
      !Unused(Contents(), h)
    }

    /** A node handed to the store by its owner: allocated, and not part of the table. */
    ghost predicate Owned(h: nat)
      reads this, slots
      requires TableValid()
    {
      h in memory && !memory[h].deleted && !Stored(h)
    }

    method GetNode(id: NodeId) returns (r: Option<Entry>)
      requires Valid()
      modifies this`memory
      ensures Valid() && Contents() == old(Contents())
      ensures r == if id in Contents() then Some(Contents()[id]) else None
      ensures r.None? ==> memory == old(memory)
      ensures r.Some? ==> r.value.handle in old(memory)
      ensures r.Some? ==>
                memory == old(memory)[r.value.handle := Cell(old(memory)[r.value.handle].refCount + 1,
                                                             old(memory)[r.value.handle].deleted)]
    {
      var slot := FindOccupiedSlot(id);
      if slot.None? { return None; }
      var e := slots[slot.value].entry;
      memory := Retain(memory, e.handle);
      r := Some(e);
    }

    /** Only an unreferenced, deleted entry is freed; every other entry is untouched. */
    method ReleaseNode(h: nat)
      requires Valid() && h in memory && memory[h].refCount > 0
      modifies this`memory
      ensures Valid() && Contents() == old(Contents())
      ensures h !in memory <==> old(memory)[h].refCount == 1 && old(memory)[h].deleted
      ensures h in memory ==> memory[h] == old(memory)[h].(refCount := old(memory)[h].refCount - 1)
      ensures memory - {h} == old(memory) - {h}
    {
      memory := memory[h := memory[h].(refCount := memory[h].refCount - 1)];
      memory := Cleanup(memory, h);
    }

    /** UA_NodeMap_getNodeCopy: the copy remembers the entry it was made from. */
    method GetNodeCopy(id: NodeId, h: nat) returns (st: Status, copy: Option<Entry>)
      requires Valid() && h !in memory
      modifies this`memory
      ensures Valid() && Contents() == old(Contents())
      ensures st == if id in Contents() then Good else BadNodeIdUnknown
      ensures id in Contents() ==> copy == Some(Entry(h, id, Some(Contents()[id].handle))) && Owned(h)
      ensures memory == if id in Contents() then old(memory)[h := Cell(0, false)] else old(memory)
    {
      var slot := FindOccupiedSlot(id);
      if slot.None? { return BadNodeIdUnknown, None; }
      var e := NewNode(h, id, Some(slots[slot.value].entry.handle));
      return Good, Some(e);
    }

    method RemoveNode(id: NodeId) returns (st: Status)
      requires PrimeTable() && Valid()
      modifies this, slots
      ensures Valid() && (slots == old(slots) || fresh(slots))
      ensures st == if id in old(Contents()) then Good else BadNodeIdUnknown
      ensures Contents() == old(Contents()) - {id}
      ensures id !in old(Contents()) ==> memory == old(memory)
      ensures id in old(Contents()) ==> old(Contents())[id].handle in old(memory)
      ensures id in old(Contents()) ==> memory == Unlink(old(memory), old(Contents())[id].handle)
      ensures slots != old(slots) <==>
                id in old(Contents()) && (old(count) - 1) * 8 < old(size) && old(size) > MINSIZE
    {
      hide Table, Lifetimes, Model, IsPrime, PRIMES, Unlink, PrimeTable;
      ModelAt(hash, slots[..], at, memory, id);
      var slot := FindOccupiedSlot(id);
      if slot.None? {
        return BadNodeIdUnknown;
      }
      var h := slots[slot.value].entry.handle;
      RemoveEffect(hash, slots[..], at, memory, id);
      slots[slot.value] := Tombstone;
      at := at - {id};
      memory := Unlink(memory, h);
      count := count - 1;
      if count * 8 < size && size > MINSIZE { Expand(); }
      st := Good;
    }

    method ReplaceNode(e: Entry) returns (st: Status)
      requires Valid() && Owned(e.handle)
      modifies this`memory, slots
      ensures Valid() && count == old(count)
      ensures e.id !in old(Contents()) ==> st == BadNodeIdUnknown
      ensures e.id in old(Contents()) ==>
                st == if e.orig == Some(old(Contents())[e.id].handle) then Good else BadInternalError
      ensures st == Good ==> Contents() == old(Contents())[e.id := e]
      ensures st == Good ==> old(Contents())[e.id].handle in old(memory)
      ensures st == Good ==> memory == Unlink(old(memory), old(Contents())[e.id].handle)
      ensures st != Good ==> Contents() == old(Contents()) && memory == old(memory) - {e.handle}
    {
      hide Table, Lifetimes, Model, IsPrime, PRIMES, Unused, Unlink;
      ModelAt(hash, slots[..], at, memory, e.id);
      var slot := FindOccupiedSlot(e.id);
      if slot.None? {
        DeleteNode(e.handle);
        return BadNodeIdUnknown;
      }
      var oldEntry := slots[slot.value].entry;
      if e.orig != Some(oldEntry.handle) {
        DeleteNode(e.handle);
        return BadInternalError;
      }
      ReplaceEffect(hash, slots[..], at, memory, e);
      slots[slot.value] := Live(e, slots[slot.value].nodeIdHash);
      memory := Unlink(memory, oldEntry.handle);
      st := Good;
    }

    /** Choose an unused numeric id: start above 50000 and step by a stride below the prime table size,
        wrapping at the size. Some id is always found before the start is met again. */
    method ChooseId(ns: nat) returns (id: NodeId, slot: Option<nat>, ghost steps: nat)
      requires TableValid() && count == |at| < size <= PRIMES[27]
      ensures id.Numeric? && id.ns == ns && id !in at
      ensures Numeric(ns, 50001 + size) !in at ==> id == Numeric(ns, 50001 + size)
      ensures slot.Some? && steps < size && slot.value == Probe(hash(id), size, steps) && !slots[slot.value].Live?
      ensures forall j: nat :: j < steps ==> slots[Probe(hash(id), size, j)].Live?
    {
      hide Table, IsPrime, Mod, Mod2, Probe;
      assert PRIMES[27] == 1073741789;
      hide PRIMES;
      var identifier, increase := (50000 + size + 1) % UINT32_MAX, Mod2(count + 1, size);
      var startId := identifier;
      ghost var base: nat := 0;
      ghost var k: nat := 0;
      id, slot, steps := Numeric(ns, identifier), None, 0;
      while true
        invariant identifier <= startId == 50001 + size
        invariant identifier == startId || Numeric(ns, startId) in at
        invariant identifier < size ==> base < size && k < size && identifier == Walk(base, increase, size, k)
        invariant identifier < size ==> forall j: nat :: j < k ==> Numeric(ns, Walk(base, increase, size, j)) in at
        decreases if identifier >= size then size + identifier else size - k
      {
        id := Numeric(ns, identifier);
        slot, steps := FindFreeSlot(id);
        if slot.Some? { break; }
        if identifier < size {
          k := k + 1;
          if k == size { AllTaken(hash, slots[..], at, ns, base, increase); }
        }
        ghost var previous := identifier;
        identifier := identifier + increase;
        if identifier >= size { identifier := identifier - size; }
        if previous >= size && identifier < size { base, k := identifier, 0; }
        if identifier == startId { break; }
      }
    }

    /** The place of an insertion: under the id of the entry, or under one that is chosen for it. */
    method FindPlace(given: NodeId) returns (id: NodeId, slot: Option<nat>, ghost steps: nat)
      requires Valid() && count < size
      ensures given != Numeric(given.ns, 0) ==> id == given && (slot.None? <==> id in Contents())
      ensures given == Numeric(given.ns, 0) ==> slot.Some? && id.Numeric? && id.ns == given.ns
      ensures given == Numeric(given.ns, 0) && Numeric(given.ns, 50001 + size) !in Contents() ==>
                id == Numeric(given.ns, 50001 + size)
      ensures slot.Some? ==>
                id !in at && steps < size && slot.value == Probe(hash(id), size, steps) && !slots[slot.value].Live?
      ensures slot.Some? ==> forall j: nat :: j < steps ==> slots[Probe(hash(id), size, j)].Live?
    {
      hide Table, Lifetimes, IsPrime, PRIMES, Probe;
      if given == Numeric(given.ns, 0) {
        SizeBound(sizePrimeIndex);
        id, slot, steps := ChooseId(given.ns);
      } else {
        id := given;
        slot, steps := FindFreeSlot(id);
      }
    }

    /** The table grows first if it is three quarters full. */
    method InsertNode(e: Entry) returns (st: Status, added: NodeId)
      requires PrimeTable() && Valid() && count < CAPACITY && Owned(e.handle)
      modifies this, slots
      ensures Valid() && (slots == old(slots) || fresh(slots))
      ensures e.id != Numeric(e.id.ns, 0) ==> added == e.id
      ensures e.id != Numeric(e.id.ns, 0) ==> st == if e.id in old(Contents()) then BadNodeIdExists else Good
      ensures e.id == Numeric(e.id.ns, 0) ==> st == Good && added.Numeric? && added.ns == e.id.ns
      ensures st == Good ==> added !in old(Contents()) && memory == old(memory)
      ensures st == Good ==> Contents() == old(Contents())[added := e.(id := added)]
      ensures slots == old(slots) <==> old(size) * 3 > old(count) * 4
      ensures size * 3 > old(count) * 4
      ensures e.id == Numeric(e.id.ns, 0) && Numeric(e.id.ns, 50001 + size) !in old(Contents()) ==>
                added == Numeric(e.id.ns, 50001 + size)
      ensures st != Good ==> Contents() == old(Contents()) && memory == old(memory) - {e.handle}
    {
      hide Table, Lifetimes, Model, IsPrime, PRIMES, PrimeTable, Probe, Unused;
      if size * 3 <= count * 4 { Expand(); }
      var slot: Option<nat>;
      ghost var steps: nat;
      added, slot, steps := FindPlace(e.id);
      ModelAt(hash, slots[..], at, memory, added);
      if slot.None? {
        DeleteNode(e.handle);
        return BadNodeIdExists, added;
      }
      Write(e.(id := added), slot.value, steps);
      st := Good;
    }

    /** The tail of an insertion: write the entry into the slot that was found for it. */
    method Write(e: Entry, slot: nat, ghost steps: nat)
      requires Valid() && count < CAPACITY && Owned(e.handle)
      requires e.id !in at && steps < size && slot == Probe(hash(e.id), size, steps) && !slots[slot].Live?
      requires forall j: nat :: j < steps ==> slots[Probe(hash(e.id), size, j)].Live?
      modifies this`count, this`at, slots
      ensures Valid() && Contents() == old(Contents())[e.id := e]
    {
      hide Table, Lifetimes, Model, IsPrime, PRIMES, Probe, Unused;
      InsertEffect(hash, slots[..], at, memory, e, steps);
      slots[slot] := Live(e, hash(e.id));
      at := at[e.id := slot];
      count := count + 1;
    }

    /** Store a slot in the first free place on its probe path. */
    method Place(slot: Slot) returns (s: nat)
      requires TableValid() && |at| < size
      requires slot.Live? && slot.entry.id !in at && slot.nodeIdHash == hash(slot.entry.id)
      modifies this`at, slots
      ensures TableValid() && s < size && !old(slots[s]).Live?
      ensures slots[..] == old(slots[..])[s := slot] && at == old(at)[slot.entry.id := s]
    {
      var free, steps := FindFreeSlot(slot.entry.id);
      s := free.value;
      StoreKeepsTable(hash, slots[..], at, slot.entry, steps);
      slots[s] := slot;
      at := at[slot.entry.id := s];
    }
  }

  // ------------------------------------------------------------------ effects on the finite map

  lemma RemoveEffect(hash: Hash, slots: seq<Slot>, at: map<NodeId, nat>, memory: map<nat, Cell>, id: NodeId)
    requires Table(hash, slots, at) && Lifetimes(slots, memory) && id in at
    ensures var slots' := slots[at[id] := Tombstone];
            && Table(hash, slots', at - {id})
            && Model(slots', at - {id}) == Model(slots, at) - {id}
            && |at - {id}| == |at| - 1
            && Lifetimes(slots', Unlink(memory, slots[at[id]].entry.handle))
  {
    TombstoneKeepsTable(hash, slots, at, id);
    assert at.Keys == (at - {id}).Keys + {id};
    RemoveLifetimes(slots, memory, at[id]);
    hide Lifetimes, Unlink, Reachable;
  }

  lemma RemoveLifetimes(slots: seq<Slot>, memory: map<nat, Cell>, i: nat)
    requires i < |slots| && slots[i].Live? && Lifetimes(slots, memory)
    ensures Lifetimes(slots[i := Tombstone], Unlink(memory, slots[i].entry.handle))
  {
  }

  lemma ModelAt(hash: Hash, slots: seq<Slot>, at: map<NodeId, nat>, memory: map<nat, Cell>, id: NodeId)
    requires Table(hash, slots, at) && Lifetimes(slots, memory)
    ensures id in Model(slots, at) <==> id in at
    ensures id in at ==> at[id] < |slots| && slots[at[id]].Live? && Model(slots, at)[id] == slots[at[id]].entry
    ensures id in at ==> slots[at[id]].entry.handle in memory
    ensures id !in at ==> Model(slots, at) - {id} == Model(slots, at)
  {
  }

  lemma HandleUnused(hash: Hash, slots: seq<Slot>, at: map<NodeId, nat>, h: nat)
    requires Table(hash, slots, at)
    requires Unused(Model(slots, at), h)
    ensures forall i :: 0 <= i < |slots| && slots[i].Live? ==> slots[i].entry.handle != h
  {
    forall i: nat | i < |slots| && slots[i].Live? ensures slots[i].entry.handle != h {
      StoredSlot(hash, slots, at, i);
      assert slots[i].entry.id in Model(slots, at);
    }
  }

  lemma InsertEffect(hash: Hash, slots: seq<Slot>, at: map<NodeId, nat>, memory: map<nat, Cell>, e: Entry, k: nat)
    requires Table(hash, slots, at) && IsPrime(|slots|) && Lifetimes(slots, memory)
    requires e.handle in memory && !memory[e.handle].deleted
    requires Unused(Model(slots, at), e.handle)
    requires e.id !in at && k < |slots| && |slots| > 2
    requires !slots[Probe(hash(e.id), |slots|, k)].Live?
    requires forall j: nat :: j < k ==> slots[Probe(hash(e.id), |slots|, j)].Live?
    ensures var i := Probe(hash(e.id), |slots|, k); var slots', at' := slots[i := Live(e, hash(e.id))], at[e.id := i];
            && Table(hash, slots', at')
            && Model(slots', at') == Model(slots, at)[e.id := e]
            && |at'| == |at| + 1
            && Lifetimes(slots', memory)
  {
    hide IsPrime, Table, Unused, Lifetimes, Model, Probe;
    var i := Probe(hash(e.id), |slots|, k);
    StoreKeepsTable(hash, slots, at, e, k);
    HandleUnused(hash, slots, at, e.handle);
    InsertLifetimes(slots, memory, i, Live(e, hash(e.id)));
    InsertModel(hash, slots, at, i, Live(e, hash(e.id)));
    assert at[e.id := i].Keys == at.Keys + {e.id};
  }

  lemma InsertLifetimes(slots: seq<Slot>, memory: map<nat, Cell>, i: nat, s: Slot)
    requires Lifetimes(slots, memory) && i < |slots| && s.Live?
    requires s.entry.handle in memory && !memory[s.entry.handle].deleted
    requires forall j :: 0 <= j < |slots| && slots[j].Live? ==> slots[j].entry.handle != s.entry.handle
    ensures Lifetimes(slots[i := s], memory)
  {
  }

  lemma InsertModel(hash: Hash, slots: seq<Slot>, at: map<NodeId, nat>, i: nat, s: Slot)
    requires Table(hash, slots, at) && i < |slots| && s.Live? && !slots[i].Live?
    requires Table(hash, slots[i := s], at[s.entry.id := i])
    ensures Model(slots[i := s], at[s.entry.id := i]) == Model(slots, at)[s.entry.id := s.entry]
  {
    hide Reachable;
  }

  lemma ReplaceEffect(hash: Hash, slots: seq<Slot>, at: map<NodeId, nat>, memory: map<nat, Cell>, e: Entry)
    requires Table(hash, slots, at) && Lifetimes(slots, memory) && e.id in at
    requires e.handle in memory && !memory[e.handle].deleted
    requires Unused(Model(slots, at), e.handle)
    ensures var slots' := slots[at[e.id] := Live(e, slots[at[e.id]].nodeIdHash)];
            && Table(hash, slots', at)
            && Model(slots', at) == Model(slots, at)[e.id := e]
            && Lifetimes(slots', Unlink(memory, slots[at[e.id]].entry.handle))
  {
    HandleUnused(hash, slots, at, e.handle);
  }

  lemma DropOwned(hash: Hash, slots: seq<Slot>, at: map<NodeId, nat>, memory: map<nat, Cell>, h: nat)
    requires Table(hash, slots, at) && Lifetimes(slots, memory)
    requires Unused(Model(slots, at), h)
    ensures Lifetimes(slots, memory - {h})
  {
    HandleUnused(hash, slots, at, h);
  }

  lemma SizeBound(i: nat)
    requires i <= 27
    ensures |PRIMES| == 30 && PRIMES[i] <= PRIMES[27]
  {
    PrimesIncrease(i, 27);
  }

  /** If a full turn of candidate ids is taken, the table is full. */
  lemma AllTaken(hash: Hash, slots: seq<Slot>, at: map<NodeId, nat>, ns: nat, base: nat, increase: nat)
    requires |slots| > 2 && IsPrime(|slots|) && base < |slots| && 0 < increase < |slots|
    requires forall j: nat :: j < |slots| ==> Numeric(ns, Walk(base, increase, |slots|, j)) in at
    ensures |at| >= |slots|
  {
    forall x: nat | x < |slots| ensures Numeric(ns, x) in at.Keys {
      var j := WalkReaches(base, increase, |slots|, x);
    }
    ResiduesTaken(ns, |slots|, at.Keys);
  }

  // ------------------------------------------------------------------ rehashing

  /** The first i slots of the old table have been moved, and nothing else has been stored. */
  ghost predicate Moved(oslots: seq<Slot>, oat: map<NodeId, nat>, i: nat, slots: seq<Slot>, at: map<NodeId, nat>)
  {
    && (forall id :: id in at ==>
          id in oat && oat[id] < i && oat[id] < |oslots| && at[id] < |slots| && slots[at[id]] == oslots[oat[id]])
    && (forall id :: id in oat && oat[id] < i ==> id in at)
  }

  lemma EmptyTable(hash: Hash, slots: seq<Slot>, oslots: seq<Slot>, oat: map<NodeId, nat>)
    requires |slots| > 2 && forall i :: 0 <= i < |slots| ==> slots[i] == Null
    ensures Table(hash, slots, map[])
    ensures Moved(oslots, oat, 0, slots, map[])
  {
  }

  lemma NotYetMoved(hash: Hash, oslots: seq<Slot>, oat: map<NodeId, nat>, i: nat, slots: seq<Slot>,
                    at: map<NodeId, nat>)
    requires Table(hash, oslots, oat) && Moved(oslots, oat, i, slots, at)
    requires i < |oslots| && oslots[i].Live?
    ensures oslots[i].entry.id !in at && oslots[i].nodeIdHash == hash(oslots[i].entry.id)
  {
  }

  lemma MovedOne(hash: Hash, oslots: seq<Slot>, oat: map<NodeId, nat>, i: nat, slots: seq<Slot>, at: map<NodeId, nat>,
                 s: nat)
    requires Table(hash, oslots, oat) && Table(hash, slots, at) && Moved(oslots, oat, i, slots, at)
    requires i < |oslots| && oslots[i].Live? && s < |slots| && !slots[s].Live?
    ensures Moved(oslots, oat, i + 1, slots[s := oslots[i]], at[oslots[i].entry.id := s])
  {
    hide Reachable;
    var id := oslots[i].entry.id;
    assert oat[id] == i;
    assert forall x :: x in at ==> slots[at[x]].Live?;
  }

  lemma MovedFewer(hash: Hash, oslots: seq<Slot>, oat: map<NodeId, nat>, i: nat, slots: seq<Slot>, at: map<NodeId, nat>)
    requires Table(hash, oslots, oat) && Moved(oslots, oat, i, slots, at)
    requires i < |oslots| && oslots[i].Live?
    ensures |at| < |oat|
  {
    hide Reachable;
    var id := oslots[i].entry.id;
    SubsetSize(at.Keys + {id}, oat.Keys);
  }

  lemma MovedNone(hash: Hash, oslots: seq<Slot>, oat: map<NodeId, nat>, i: nat, slots: seq<Slot>, at: map<NodeId, nat>)
    requires Table(hash, oslots, oat) && Moved(oslots, oat, i, slots, at)
    requires i < |oslots| && !oslots[i].Live?
    ensures Moved(oslots, oat, i + 1, slots, at)
  {
    hide Reachable;
  }

  /** When every old slot was scanned, or as many entries were moved as were stored, all were moved. */
  lemma MovedAll(hash: Hash, oslots: seq<Slot>, oat: map<NodeId, nat>, i: nat, slots: seq<Slot>, at: map<NodeId, nat>,
                 memory: map<nat, Cell>)
    requires Table(hash, oslots, oat) && Table(hash, slots, at) && Moved(oslots, oat, i, slots, at)
    requires i == |oslots| || |at| == |oat|
    requires Lifetimes(oslots, memory)
    ensures Model(slots, at) == Model(oslots, oat) && |at| == |oat|
    ensures Lifetimes(slots, memory)
  {
    hide Reachable;
    SubsetSize(at.Keys, oat.Keys);
    assert at.Keys == oat.Keys;
  }

  /** Twice a count within capacity always has a prime above it in the table. */
  lemma LargeEnough(n: nat, i: nat)
    requires n % 2 == 0 && n <= 2 * CAPACITY && i <= |PRIMES|
    requires forall j :: 0 <= j < i ==> PRIMES[j] < n
    requires i < |PRIMES| ==> n <= PRIMES[i]
    ensures i <= 27 && i < |PRIMES| && 2 < PRIMES[i] && n < PRIMES[i]
  {
    assert PRIMES[27] == 1073741789;
  }
}
