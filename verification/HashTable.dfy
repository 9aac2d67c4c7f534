/** The process-wide table of proxies: open addressing with triangular probing, tombstones, reuse of
    tombstones, and growth at 3/4 load. Every operation is proved against the finite map
    `contents` from object address to proxy. The caller holds the table lock throughout. */
module HashTable {
  import opened Common
  import opened Probing
  import opened Buckets
  import opened TableMap

  const BUCKETS_INITIAL: nat := 1024
  const BUCKETS_MAX: nat := 1024 * 1024

  class Proxy {
    var useCount: int

    constructor (useCount: int)
      ensures this.useCount == useCount
    {
      this.useCount := useCount;
    }
  }

  /** How a probe for a key ends. */
  datatype Probe = Hit(idx: nat) | Vacant(slot: nat) | Exhausted

  lemma InitialIsPow2()
    ensures IsPow2(BUCKETS_INITIAL)
  {
    assert Pow2(2) == 4 && Pow2(4) == 16 && Pow2(6) == 64 && Pow2(8) == 256 && Pow2(10) == 1024;
  }

  lemma DoubleIsPow2(n: nat)
    requires IsPow2(n)
    ensures IsPow2(2 * n)
  {
    var k: nat :| n == Pow2(k);
    assert Pow2(k + 1) == 2 * n;
  }

  lemma EmptyTable(hash: Addr -> nat, s: seq<Bucket<Proxy>>)
    requires IsPow2(|s|) && forall i :: 0 <= i < |s| ==> s[i] == Bucket(NULL, None)
    ensures WellFormed(hash, s) && Stands(s, map[]) && NoTombstones(s)
  {
  }

  lemma {:induction false} Pow2Monotone(i: nat, j: nat)
    requires i <= j
    ensures Pow2(i) <= Pow2(j)
  {
    if i < j {
      Pow2Monotone(i, j - 1);
    }
  }

  /** Below the maximum there is always room to double. */
  lemma RoomToDouble(n: nat)
    requires IsPow2(n) && n < BUCKETS_MAX
    ensures 2 * n <= BUCKETS_MAX
  {
    var k: nat :| n == Pow2(k);
    assert Pow2(5) == 32 && Pow2(10) == 32 * 32 && Pow2(15) == 32 * 1024 && Pow2(20) == 1024 * 1024;
    if k >= 20 {
      Pow2Monotone(20, k);
    } else {
      Pow2Monotone(k + 1, 20);
    }
  }

  lemma FourDivides(n: nat)
    requires IsPow2(n) && n >= 4
    ensures n % 4 == 0
  {
    var k: nat :| n == Pow2(k);
    assert Pow2(0) == 1 && Pow2(1) == 2;
    assert Pow2(k) == 2 * Pow2(k - 1) && Pow2(k - 1) == 2 * Pow2(k - 2);
  }

  // ---------------------------------------------------------------- copying a table

  /** `m` holds exactly the entries of the first `i` old buckets. */
  ghost predicate Copied(s: seq<Bucket<Proxy>>, i: nat, contents: map<Addr, Proxy>, m: map<Addr, Proxy>)
    requires i <= |s|
  {
    && (forall k {:trigger k in m} :: k in m ==> k in contents && m[k] == contents[k] && Has(s[..i], k))
    && (forall j {:trigger s[j].key} :: 0 <= j < i && Live(s[j]) ==> s[j].key in m)
  }

  lemma CopySkip(s: seq<Bucket<Proxy>>, i: nat, contents: map<Addr, Proxy>, m: map<Addr, Proxy>)
    requires i < |s| && Copied(s, i, contents, m) && !Live(s[i])
    ensures Copied(s, i + 1, contents, m)
  {
    forall k | k in m ensures Has(s[..i + 1], k) {
      HasMore(s, i, k);
    }
  }

  lemma HasMore(s: seq<Bucket<Proxy>>, i: nat, k: Addr)
    requires i < |s| && Has(s[..i], k)
    ensures Has(s[..i + 1], k)
  {
    var j :| 0 <= j < i && s[..i][j].key == k;
    assert s[..i + 1][j].key == k;
  }

  /** The next live bucket is not there yet: keys are unique. */
  lemma NotCopiedYet(hash: Addr -> nat, s: seq<Bucket<Proxy>>, i: nat, contents: map<Addr, Proxy>, m: map<Addr, Proxy>)
    requires WellFormed(hash, s) && i < |s| && Copied(s, i, contents, m) && Live(s[i])
    ensures s[i].key !in m
  {
    assert forall j :: 0 <= j < i ==> s[j].key != s[i].key;
    assert !Has(s[..i], s[i].key);
  }

  lemma CopyNext(s: seq<Bucket<Proxy>>, i: nat, contents: map<Addr, Proxy>, m: map<Addr, Proxy>, p: Proxy)
    requires i < |s| && Copied(s, i, contents, m) && Live(s[i]) && s[i].key in contents && contents[s[i].key] == p
    ensures Copied(s, i + 1, contents, m[s[i].key := p])
  {
    assert s[..i + 1][i].key == s[i].key;
    forall k | k in m ensures Has(s[..i + 1], k) {
      HasMore(s, i, k);
    }
  }

  lemma CopyDone(s: seq<Bucket<Proxy>>, contents: map<Addr, Proxy>, m: map<Addr, Proxy>)
    requires Copied(s, |s|, contents, m) && Stands(s, contents)
    ensures m == contents
  {
    forall k | k in contents ensures k in m {
      assert Has(s, k);
      var i :| 0 <= i < |s| && s[i].key == k;
    }
  }

  lemma SubmapCard(m: map<Addr, Proxy>, contents: map<Addr, Proxy>)
    requires forall k :: k in m ==> k in contents
    ensures |m| <= |contents|
  {
    SubsetCard(m.Keys, contents.Keys);
  }

  /** `slot` is the first slot of the key's probe path that is not live. */
  ghost predicate EarliestFree(hash: Addr -> nat, s: seq<Bucket<Proxy>>, key: Addr, slot: nat)
    requires |s| > 0
  {
    exists u: nat :: FreeAt(hash, s, key, u) && Slot(hash(key), u, |s|) == slot
  }

  ghost predicate FreeAt(hash: Addr -> nat, s: seq<Bucket<Proxy>>, key: Addr, u: nat)
    requires |s| > 0
  {
    Insertable(hash, s, key, u) && LivePath(hash, s, key, u)
  }

  /** The first `step` slots of the key's probe path hold neither NULL nor the key. */
  ghost predicate ProbedPast(hash: Addr -> nat, s: seq<Bucket<Proxy>>, key: Addr, step: nat)
    requires |s| > 0
  {
    forall t {:trigger Slot(hash(key), t, |s|)} :: 0 <= t < step ==>
      s[Slot(hash(key), t, |s|)].key != NULL && s[Slot(hash(key), t, |s|)].key != key
  }

  /** The first `step` slots of the key's probe path are live. */
  ghost predicate LivePath(hash: Addr -> nat, s: seq<Bucket<Proxy>>, key: Addr, step: nat)
    requires |s| > 0
  {
    forall t {:trigger Slot(hash(key), t, |s|)} :: 0 <= t < step ==> Live(s[Slot(hash(key), t, |s|)])
  }

  lemma VacantFound(hash: Addr -> nat, s: seq<Bucket<Proxy>>, key: Addr, step: nat, u: nat)
    requires WellFormed(hash, s) && key != NULL && key != DELETED && u <= step < |s|
    requires ProbedPast(hash, s, key, step) && LivePath(hash, s, key, u)
    requires s[Slot(hash(key), step, |s|)].key == NULL && !Live(s[Slot(hash(key), u, |s|)])
    ensures !Has(s, key) && Has(s, NULL) && EarliestFree(hash, s, key, Slot(hash(key), u, |s|))
  {
    MissAtNull(hash, s, key, step);
    assert FreeAt(hash, s, key, u);
  }

  lemma PathExhausted(hash: Addr -> nat, s: seq<Bucket<Proxy>>, key: Addr)
    requires WellFormed(hash, s) && |s| > 0 && ProbedPast(hash, s, key, |s|)
    ensures !Has(s, key) && !Has(s, NULL)
  {
    MissAfterAll(hash, s, key);
    NoNullAnywhere(hash, s, key);
  }

  /** Different keys have different proxies. */
  ghost predicate Injective(m: map<Addr, Proxy>) {
    forall j, k {:trigger m[j], m[k]} :: j in m && k in m && j != k ==> m[j] != m[k]
  }

  /** Outcomes of the allocations a call may make: the first table, a bigger table, a proxy; and the
      result of the proxy's initialisation. */
  datatype Memory = Memory(table: bool, bigger: bool, proxy: bool, init: int)

  predicate Plenty(memory: Memory) {
    memory.table && memory.bigger && Makes(memory)
  }

  /** A new proxy can be allocated and initialised. */
  predicate Makes(memory: Memory) {
    memory.proxy && memory.init == 0
  }

  /** The probe loop of find_or_create: stops at the key, or at the first NULL, or after a full turn,
      remembering the first tombstone it passes. */
  method ProbeLoop(hash: Addr -> nat, buckets: array<Bucket<Proxy>>, key: Addr)
    returns (r: Probe, ghost step: nat, ghost first: nat)
    requires IsPow2(buckets.Length) && key != NULL && key != DELETED
    ensures buckets.Length > 0
    ensures r.Hit? ==> r.idx < buckets.Length && buckets[r.idx].key == key
    ensures r.Vacant? ==>
      var s := buckets[..];
      && first <= step < |s| && ProbedPast(hash, s, key, step) && LivePath(hash, s, key, first)
      && s[Slot(hash(key), step, |s|)].key == NULL
      && r.slot == Slot(hash(key), first, |s|) && !Live(s[r.slot])
    ensures r.Exhausted? ==> ProbedPast(hash, buckets[..], key, buckets.Length)
  {
    ghost var s := buckets[..];
    ghost var h := hash(key);
    var n := buckets.Length;
    SlotStart(h, n);
    var idx, i := Mask(hash(key), n), 0;
    var deleted: Option<nat> := None;
    first := 0;
    while true
      invariant i < n && idx == Slot(h, i, n) && ProbedPast(hash, s, key, i)
      invariant deleted.Some? ==> first < i && deleted.value == Slot(h, first, n) && s[deleted.value].key == DELETED
      invariant LivePath(hash, s, key, if deleted.Some? then first else i)
      decreases n - i
    {
      step := i;
      if buckets[idx].key == key {
        return Hit(idx), i, i;
      }
      if buckets[idx].key == NULL {
        return Vacant(if deleted.Some? then deleted.value else idx), i, if deleted.Some? then first else i;
      }
      if buckets[idx].key == DELETED && deleted.None? {
        deleted := Some(idx);
        first := i;
      }
      i := i + 1;
      if i >= n {
        break;
      }
      SlotNext(h, i - 1, n);
      idx := Mask(idx + i, n);
    }
    r := Exhausted;
  }

  /** What the outcome of the probe says about a well-formed table. A vacant slot is the earliest one on
      the key's path that can be reused. */
  method ProbePath(hash: Addr -> nat, buckets: array<Bucket<Proxy>>, key: Addr) returns (r: Probe)
    requires WellFormed(hash, buckets[..]) && key != NULL && key != DELETED
    ensures buckets.Length > 0
    ensures r.Hit? ==> r.idx < buckets.Length && buckets[r.idx].key == key
    ensures r.Vacant? ==> r.slot < buckets.Length && EarliestFree(hash, buckets[..], key, r.slot)
    ensures r.Vacant? ==> !Has(buckets[..], key) && Has(buckets[..], NULL)
    ensures r.Exhausted? ==> !Has(buckets[..], key) && !Has(buckets[..], NULL)
  {
    ghost var step, first;
    r, step, first := ProbeLoop(hash, buckets, key);
    if r.Vacant? {
      VacantFound(hash, buckets[..], key, step, first);
    } else if r.Exhausted? {
      PathExhausted(hash, buckets[..], key);
    }
  }

  /** The probe loop of hash_table_grow: the first NULL slot on the key's path. */
  method NullLoop(hash: Addr -> nat, buckets: array<Bucket<Proxy>>, key: Addr) returns (r: Option<nat>, ghost step: nat)
    requires IsPow2(buckets.Length)
    ensures r.Some? ==>
      step < buckets.Length && r.value == Slot(hash(key), step, buckets.Length) && buckets[r.value].key == NULL
    ensures buckets.Length > 0 && forall t {:trigger Slot(hash(key), t, buckets.Length)} ::
      0 <= t < (if r.Some? then step else buckets.Length) ==>
        buckets[..][Slot(hash(key), t, buckets.Length)].key != NULL
  {
    ghost var h := hash(key);
    var n := buckets.Length;
    SlotStart(h, n);
    var idx, i := Mask(hash(key), n), 0;
    while true
      invariant i < n && idx == Slot(h, i, n)
      invariant forall t {:trigger Slot(h, t, n)} :: 0 <= t < i ==> buckets[..][Slot(h, t, n)].key != NULL
      decreases n - i
    {
      step := i;
      if buckets[idx].key == NULL {
        return Some(idx), i;
      }
      i := i + 1;
      if i >= n {
        break;
      }
      SlotNext(h, i - 1, n);
      idx := Mask(idx + i, n);
    }
    r := None;
  }

  /** The probe loop of remove_item, which does not stop at NULL. */
  method KeyLoop(hash: Addr -> nat, buckets: array<Bucket<Proxy>>, key: Addr) returns (r: Option<nat>)
    requires IsPow2(buckets.Length)
    ensures r.Some? ==> r.value < buckets.Length && buckets[r.value].key == key
    ensures buckets.Length > 0 && (r.None? ==> forall t {:trigger Slot(hash(key), t, buckets.Length)} ::
      0 <= t < buckets.Length ==> buckets[..][Slot(hash(key), t, buckets.Length)].key != key)
  {
    ghost var h := hash(key);
    var n := buckets.Length;
    SlotStart(h, n);
    var idx, step := Mask(hash(key), n), 0;
    while true
      invariant step < n && idx == Slot(h, step, n)
      invariant forall t {:trigger Slot(h, t, n)} :: 0 <= t < step ==> buckets[..][Slot(h, t, n)].key != key
      decreases n - step
    {
      if buckets[idx].key == key {
        return Some(idx);
      }
      step := step + 1;
      if step >= n {
        break;
      }
      SlotNext(h, step - 1, n);
      idx := Mask(idx + step, n);
    }
    return None;
  }

  // ---------------------------------------------------------------- the map the table stands for

  function Answer(r: Proxy?): Option<Proxy> {
    if r == null then None else Some(r)
  }

  lemma RegisterEffect(before: map<Addr, Entry<Proxy>>, after: map<Addr, Entry<Proxy>>, key: Addr, r: Option<Proxy>)
    requires forall k :: k in after <==> k in before || (r.Some? && k == key)
    requires forall k :: k in before && k != key ==> after[k] == before[k]
    requires r.Some? && key !in before ==> after[key] == Entry(r.value, 1)
    requires r.Some? && key in before ==> after[key] == Entry(before[key].proxy, before[key].uses + 1)
    requires r.None? && key in before ==> after[key] == before[key]
    ensures after == Effect(before, Register(key), r)
  {
  }

  lemma DeregisterEffect(before: map<Addr, Entry<Proxy>>, mid: map<Addr, Entry<Proxy>>, key: Addr, r: Option<Proxy>)
    requires key in before && mid == before[key := Entry(before[key].proxy, before[key].uses - 1)]
    ensures Effect(before, Deregister(key), r) == if mid[key].uses == 0 then mid - {key} else mid
  {
  }

  /** No slot goes back to NULL. */
  ghost predicate StaysUsed(s: seq<Bucket<Proxy>>, s': seq<Bucket<Proxy>>) {
    |s'| == |s| && forall i {:trigger s'[i].key} :: 0 <= i < |s| && s[i].key != NULL ==> s'[i].key != NULL
  }

  /** No slot goes back to NULL, and no tombstone appears. */
  ghost predicate Filled(s: seq<Bucket<Proxy>>, s': seq<Bucket<Proxy>>) {
    && |s'| == |s|
    && forall i {:trigger s'[i].key} :: 0 <= i < |s| ==> s'[i].key == s[i].key || Live(s'[i])
  }

  class HashTable {
    const hash: Addr -> nat
    var buckets: array<Bucket<Proxy>>
    var bucketCount: nat
    var count: nat
    ghost var contents: map<Addr, Proxy>

    ghost predicate Valid()
      reads this, buckets
    {
      && count == |contents| && Injective(contents)
      && if buckets.Length == 0 then contents == map[] && (bucketCount == 0 || bucketCount == BUCKETS_INITIAL)
         else
           && bucketCount == buckets.Length
           && BUCKETS_INITIAL <= bucketCount <= BUCKETS_MAX
           && count <= (bucketCount / 4) * 3
           && WellFormed(hash, buckets[..])
           && Stands(buckets[..], contents)
    }

    ghost function Proxies(): set<object>
      reads this
    {
      set k | k in contents :: contents[k]
    }

    /** The zero-initialised table. */
    constructor (hash: Addr -> nat)
      ensures Valid() && contents == map[] && this.hash == hash
      ensures fresh(buckets) && buckets.Length == 0
    {
      this.hash := hash;
      buckets := new Bucket<Proxy>[0];
      bucketCount, count := 0, 0;
      contents := map[];
    }

    // -------------------------------------------------------------- growth

    /** The probe of hash_table_grow: puts `b` in the first NULL slot of its path. The new table has
        room, so the not-placed outcome of the program does not arise. */
    method Place(target: array<Bucket<Proxy>>, b: Bucket<Proxy>, ghost m: map<Addr, Proxy>) returns (placed: bool)
      requires WellFormed(hash, target[..]) && Stands(target[..], m) && NoTombstones(target[..]) && |m| < target.Length
      requires Live(b) && b.proxy.Some? && b.key !in m
      modifies target
      ensures placed
      ensures WellFormed(hash, target[..]) && Stands(target[..], m[b.key := b.proxy.value]) && NoTombstones(target[..])
    {
      ghost var s := target[..];
      NullRemains(hash, s, m);
      var slot;
      ghost var step;
      slot, step := NullLoop(hash, target, b.key);
      placed := slot.Some?;
      assert placed by {
        if !placed {
          NoNullAnywhere(hash, s, b.key);
        }
      }
      InsertWellFormed(hash, s, b.key, step, b.proxy.value);
      InsertStands(s, m, b.key, slot.value, b.proxy.value);
      target[slot.value] := b;
      assert target[..] == s[slot.value := Bucket(b.key, Some(b.proxy.value))];
    }

    /** Doubles the table. It fails, changing nothing, exactly when memory runs out or the table is at its
        maximum size; otherwise the new table holds the same proxies under the same keys, no
        tombstones, and is at most 3/8 full. */
    method Grow(memory: bool) returns (ok: bool)
      requires Valid() && buckets.Length > 0
      modifies this`buckets, this`bucketCount
      ensures Valid()
      ensures ok <==> memory && old(bucketCount) < BUCKETS_MAX
      ensures !ok ==> buckets == old(buckets) && bucketCount == old(bucketCount)
      ensures ok ==> fresh(buckets) && bucketCount == 2 * old(bucketCount)
      ensures ok ==> NoTombstones(buckets[..]) && 8 * count <= 3 * bucketCount
    {
      var oldCount := bucketCount;
      var newCount := oldCount * 2;
      if newCount > BUCKETS_MAX {
        newCount := BUCKETS_MAX;
      }
      if newCount <= oldCount {
        return false;
      }
      if !memory {
        return false;
      }
      RoomToDouble(oldCount);
      DoubleIsPow2(oldCount);
      var target := new Bucket<Proxy>[newCount](_ => Bucket(NULL, None));
      EmptyTable(hash, target[..]);
      CopyInto(target);
      buckets := target;
      bucketCount := newCount;
      ok := true;
    }

    /** The rehash loop: every live bucket moves, with its proxy, and none is dropped. */
    method CopyInto(target: array<Bucket<Proxy>>)
      requires Valid() && buckets.Length > 0 && target != buckets && target.Length == 2 * bucketCount
      requires WellFormed(hash, target[..]) && Stands(target[..], map[]) && NoTombstones(target[..])
      modifies target
      ensures WellFormed(hash, target[..]) && Stands(target[..], contents) && NoTombstones(target[..])
    {
      ghost var s := buckets[..];
      ghost var m: map<Addr, Proxy> := map[];
      for i := 0 to bucketCount
        invariant buckets[..] == s && Copied(s, i, contents, m)
        invariant WellFormed(hash, target[..]) && Stands(target[..], m) && NoTombstones(target[..])
      {
        var b := buckets[i];
        if b.key == NULL || b.key == DELETED {
          CopySkip(s, i, contents, m);
          continue;
        }
        NotCopiedYet(hash, s, i, contents, m);
        SubmapCard(m, contents);
        assert s[i].key in contents && s[i].proxy == Some(contents[s[i].key]);
        var placed := Place(target, b, m);
        if !placed {
          assert false;
        }
        CopyNext(s, i, contents, m, b.proxy.value);
        m := m[b.key := b.proxy.value];
      }
      CopyDone(s, contents, m);
    }

    // -------------------------------------------------------------- lookup and insertion

    /** Fills the vacant slot that a probe found. */
    method Insert(key: Addr, slot: nat, p: Proxy)
      requires Valid() && buckets.Length > 0 && key != NULL && key != DELETED && key !in contents
      requires count < (bucketCount / 4) * 3 && slot < buckets.Length && EarliestFree(hash, buckets[..], key, slot)
      requires forall k :: k in contents ==> contents[k] != p
      modifies this`count, this`contents, buckets
      ensures Valid() && contents == old(contents)[key := p] && count == old(count) + 1
      ensures Filled(old(buckets[..]), buckets[..])
    {
      ghost var s := buckets[..];
      ghost var u: nat :| FreeAt(hash, s, key, u) && Slot(hash(key), u, |s|) == slot;
      assert !Has(s, key);
      InsertWellFormed(hash, s, key, u, p);
      InsertStands(s, contents, key, slot, p);
      buckets[slot] := Bucket(key, Some(p));
      assert buckets[..] == s[slot := Bucket(key, Some(p))];
      contents := contents[key := p];
      count := count + 1;
    }

    /** The call needs a bigger table: to register anyone at 3/4 load, or to end the probe for an absent key
        when there is no NULL slot. */
    ghost predicate NeedsRoom(key: Addr, increment: bool)
      reads this, buckets
    {
      (increment && count >= (bucketCount / 4) * 3) || (key !in contents && !Has(buckets[..], NULL))
    }

    /** A bigger table can be had. */
    ghost predicate CanGrow(memory: Memory)
      reads this
    {
      memory.bigger && buckets.Length < BUCKETS_MAX
    }

    /** The table cannot take, or even give out, this key: it needs to be bigger and is as big as it gets. */
    ghost predicate Refuses(key: Addr)
      reads this, buckets
    {
      buckets.Length == BUCKETS_MAX && NeedsRoom(key, true)
    }

    /** A registration of the key fails: an allocation it really needs does. Those are the first table, a
        bigger one if it needs room, and a proxy with its initialisation if the key is absent. */
    ghost predicate Fails(key: Addr, memory: Memory)
      reads this, buckets
    {
      if buckets.Length == 0 then !memory.table || !Makes(memory)
      else (NeedsRoom(key, true) && !CanGrow(memory)) || (key !in contents && !Makes(memory))
    }

    /** There is a NULL slot and no need to grow. */
    ghost predicate Roomy()
      reads this, buckets
    {
      Has(buckets[..], NULL) && count < (bucketCount / 4) * 3
    }

    /** The slots were filled in place, or moved to a longer array without tombstones. */
    twostate predicate Slots()
      reads this, buckets
    {
      if buckets == old(buckets) then Filled(old(buckets[..]), buckets[..])
      else fresh(buckets) && buckets.Length > old(buckets.Length) && NoTombstones(buckets[..])
    }

    /** The first use allocates the table; if that fails, only bucketCount remembers the attempt. */
    method AllocateFirst(memory: bool) returns (ok: bool)
      requires Valid() && buckets.Length == 0
      modifies this`buckets, this`bucketCount
      ensures Valid() && bucketCount == BUCKETS_INITIAL && ok == memory
      ensures if ok then fresh(buckets) && buckets.Length == BUCKETS_INITIAL && Roomy() && NoTombstones(buckets[..])
              else buckets == old(buckets)
    {
      bucketCount := BUCKETS_INITIAL;
      if !memory {
        return false;
      }
      InitialIsPow2();
      buckets := new Bucket<Proxy>[BUCKETS_INITIAL](_ => Bucket(NULL, None));
      EmptyTable(hash, buckets[..]);
      assert buckets[..][0].key == NULL;
      ok := true;
    }

    /** Every proxy of `m` keeps its use count, except that `key`'s gains one if `bumped`. */
    twostate predicate UseCounts(m: map<Addr, Proxy>, key: Addr, bumped: bool)
      reads set k | k in m :: m[k]
    {
      forall k {:trigger m[k]} :: k in m ==> m[k].useCount == old(m[k].useCount) + (if bumped && k == key then 1 else 0)
    }

    /** What an answer `r` of find_or_create does to the map, which was `m`, and to the use counts. */
    twostate predicate Answered(m: map<Addr, Proxy>, key: Addr, increment: bool, new r: Proxy?)
      reads this, set k | k in m :: m[k], r
    {
      && (if increment && r != null && key !in m then contents == m[key := r] && r.useCount == 1 else contents == m)
      && (key in m && r != null ==> r == m[key])
      && (!increment ==> (r == null <==> key !in m))
      && UseCounts(m, key, increment && r != null)
    }

    /** One probe of the table as it stands, and what find_or_create does with its outcome. */
    method TryOnce(key: Addr, increment: bool, memory: Memory) returns (done: bool, r: Proxy?)
      requires Valid() && buckets.Length > 0 && key != NULL && key != DELETED
      requires increment ==> count < (bucketCount / 4) * 3
      modifies this`count, this`contents, buckets, Proxies()
      ensures Valid() && (done ==> Answered(old(contents), key, increment, r))
      ensures !done ==> contents == old(contents) && UseCounts(contents, key, false)
      ensures increment && r != null && key !in old(contents) ==> fresh(r)
      ensures done <==> key in old(contents) || old(Has(buckets[..], NULL))
      ensures Filled(old(buckets[..]), buckets[..])
      ensures r == null <==> !done || (key !in old(contents) && (!increment || !Makes(memory)))
    {
      var probe := ProbePath(hash, buckets, key);
      match probe
      case Hit(idx) =>
        assert buckets[..][idx].key == key;
        var p := buckets[idx].proxy.value;
        if increment {
          p.useCount := p.useCount + 1;
        }
        return true, p;
      case Vacant(slot) =>
        assert key !in contents;
        if !increment || !memory.proxy || memory.init != 0 {
          return true, null;
        }
        var p := new Proxy(1);
        Insert(key, slot, p);
        return true, p;
      case Exhausted =>
        assert key !in contents;
        return false, null;
    }

    /** Right after growing, the table has a NULL slot and is far from its next growth. */
    lemma RoomAfterGrowth()
      requires Valid() && buckets.Length > 0 && NoTombstones(buckets[..]) && 8 * count <= 3 * bucketCount
      ensures Roomy()
    {
      NullRemains(hash, buckets[..], contents);
      assert bucketCount % 4 == 0 by { FourDivides(bucketCount); }
    }

    /** Growth as find_or_create relies on it: afterwards there is a NULL slot, and no need to grow again. */
    method Expand(memory: bool) returns (ok: bool)
      requires Valid() && buckets.Length > 0
      modifies this`buckets, this`bucketCount
      ensures Valid() && buckets.Length > 0
      ensures ok <==> memory && old(buckets.Length) < BUCKETS_MAX
      ensures if ok then fresh(buckets) && bucketCount == 2 * old(bucketCount) && Roomy() && NoTombstones(buckets[..])
              else buckets == old(buckets) && bucketCount == old(bucketCount)
    {
      ok := Grow(memory);
      if ok {
        RoomAfterGrowth();
      }
    }

    /** One turn of the loop of find_or_create. It asks for another turn exactly when it has grown the table;
        otherwise it fails to register exactly when there was no room, or no new proxy for an absent key. */
    method Turn(key: Addr, increment: bool, memory: Memory) returns (again: bool, r: Proxy?)
      requires Valid() && buckets.Length > 0 && key != NULL && key != DELETED
      modifies this, buckets, Proxies()
      ensures Valid() && buckets.Length > 0 && Slots()
      ensures again <==> old(NeedsRoom(key, increment) && CanGrow(memory))
      ensures if again then fresh(buckets) && bucketCount == 2 * old(bucketCount) && Roomy()
              else bucketCount == old(bucketCount)
      ensures again ==> r == null && contents == old(contents) && UseCounts(old(contents), key, false)
      ensures !again ==> Answered(old(contents), key, increment, r)
      ensures !again && increment && r != null && key !in old(contents) ==> fresh(r)
      ensures !again && increment ==>
        (r == null <==> old(NeedsRoom(key, true)) || (key !in old(contents) && !Makes(memory)))
    {
      again, r := false, null;
      if increment && count >= (bucketCount / 4) * 3 {
        again := Expand(memory.bigger);
      } else {
        var done;
        done, r := TryOnce(key, increment, memory);
        if !done {
          again := Expand(memory.bigger);
        }
      }
    }

    /** The loop of find_or_create on an allocated table: at most two turns, at most one growth, and that only
        when it is needed. */
    method Search(key: Addr, increment: bool, memory: Memory) returns (r: Proxy?)
      requires Valid() && buckets.Length > 0 && key != NULL && key != DELETED
      modifies this, buckets, Proxies()
      ensures Valid() && Answered(old(contents), key, increment, r) && Slots()
      ensures increment && r != null && key !in old(contents) ==> fresh(r)
      ensures increment ==> (r == null <==> old(Fails(key, memory)))
      ensures bucketCount ==
        if old(NeedsRoom(key, increment) && CanGrow(memory)) then 2 * old(bucketCount) else old(bucketCount)
    {
      var again;
      again, r := Turn(key, increment, memory);
      while again
        invariant Valid() && buckets.Length > 0 && Slots()
        invariant again ==> fresh(buckets) && Roomy() && old(NeedsRoom(key, increment) && CanGrow(memory))
        invariant again ==> contents == old(contents) && UseCounts(old(contents), key, false)
        invariant !again ==> Answered(old(contents), key, increment, r)
        invariant !again && increment && r != null && key !in old(contents) ==> fresh(r)
        invariant !again && increment ==> (r == null <==> old(Fails(key, memory)))
        invariant bucketCount ==
          if old(NeedsRoom(key, increment) && CanGrow(memory)) then 2 * old(bucketCount) else old(bucketCount)
        decreases again
      {
        again, r := Turn(key, increment, memory);
      }
    }

    /** find_or_create. Without `increment` it is a lookup: it returns exactly the proxy the map holds, or
        null, and changes neither the map nor a use count, even when it has to rehash. With
        `increment` it registers one more user, creating the proxy if there is none, and fails exactly
        when an allocation it needs does; a present key in a table with room needs none. It grows
        the table exactly when it needs to and can. */
    method FindOrCreate(key: Addr, increment: bool, memory: Memory) returns (r: Proxy?)
      requires Valid() && key != NULL && key != DELETED
      modifies this, buckets, Proxies()
      ensures Valid() && Answered(old(contents), key, increment, r) && Slots()
      ensures increment && r != null && key !in old(contents) ==> fresh(r)
      ensures increment ==> (r == null <==> old(Fails(key, memory)))
      ensures key in old(contents) && old(count < (bucketCount / 4) * 3) ==> r != null
      ensures increment && Plenty(memory) ==> (r == null <==> old(Refuses(key)))
      ensures bucketCount ==
        if old(buckets.Length) == 0 then BUCKETS_INITIAL
        else if old(NeedsRoom(key, increment) && CanGrow(memory)) then 2 * old(bucketCount)
        else old(bucketCount)
    {
      if buckets.Length == 0 {
        var ready := AllocateFirst(memory.table);
        if !ready {
          return null;
        }
      }
      r := Search(key, increment, memory);
    }

    // -------------------------------------------------------------- removal

    /** Takes the key out, leaving a tombstone; every other key stays where the map has it. An absent key
        costs a full turn of the table and changes nothing. */
    method RemoveItem(key: Addr)
      requires Valid() && key != NULL && key != DELETED
      requires key in contents ==> contents[key].useCount == 0
      modifies this`count, this`contents, buckets
      ensures Valid() && contents == old(contents) - {key} && buckets == old(buckets)
      ensures StaysUsed(old(buckets[..]), buckets[..])
    {
      if buckets.Length == 0 {
        return;
      }
      ghost var s := buckets[..];
      var idx := KeyLoop(hash, buckets, key);
      if idx.None? {
        MissAfterAll(hash, s, key);
        assert contents - {key} == contents;
        return;
      }
      assert s[idx.value].key == key;
      RemoveWellFormed(hash, s, idx.value);
      RemoveStands(hash, s, contents, idx.value);
      buckets[idx.value] := Tombstone();
      assert buckets[..] == s[idx.value := Tombstone()];
      contents := contents - {key};
      count := count - 1;
    }

    // -------------------------------------------------------------- whole runs

    /** The plain map the table stands for: the proxy of each object, and its number of users. */
    ghost function View(): map<Addr, Entry<Proxy>>
      reads this, Proxies()
    {
      map k | k in contents :: Entry(contents[k], contents[k].useCount)
    }

    /** A waiter registers. */
    method RegisterUser(key: Addr, memory: Memory) returns (r: Proxy?)
      requires Valid() && key != NULL && key != DELETED
      modifies this, buckets, Proxies()
      ensures Valid() && Slots() && fresh(Proxies() - old(Proxies()))
      ensures Allowed(old(View()), Register(key), Answer(r)) && View() == Effect(old(View()), Register(key), Answer(r))
      ensures r != null && key !in old(contents) ==> fresh(r)
      ensures r == null <==> old(Fails(key, memory))
      ensures key in old(contents) && old(count < (bucketCount / 4) * 3) ==> r != null
      ensures Plenty(memory) ==> (r == null <==> old(Refuses(key)))
    {
      ghost var m, before := contents, View();
      r := FindOrCreate(key, true, memory);
      assert contents == if r != null && key !in m then m[key := r] else m;
      RegisterEffect(before, View(), key, Answer(r));
    }

    /** A notifier looks its object up. */
    method LookUpUser(key: Addr, memory: Memory) returns (r: Proxy?)
      requires Valid() && key != NULL && key != DELETED
      modifies this, buckets, Proxies()
      ensures Valid() && Slots() && contents == old(contents) && View() == old(View())
      ensures Answer(r) == Lookup(View(), key)
    {
      r := FindOrCreate(key, false, memory);
    }

    /** `--item->use_count`. */
    method DropUse(key: Addr, item: Proxy)
      requires Injective(contents) && key in contents && contents[key] == item
      modifies item
      ensures View() == old(View())[key := Entry(item, old(item.useCount) - 1)]
      ensures item.useCount == old(item.useCount) - 1
    {
      item.useCount := item.useCount - 1;
      assert forall k :: k in contents && k != key ==> contents[k] != item;
    }

    method RemoveLast(key: Addr)
      requires Valid() && key != NULL && key != DELETED && key in contents && contents[key].useCount == 0
      modifies this`count, this`contents, buckets
      ensures Valid() && buckets == old(buckets) && contents == old(contents) - {key}
      ensures View() == old(View()) - {key}
      ensures StaysUsed(old(buckets[..]), buckets[..])
    {
      RemoveItem(key);
    }

    /** A waiter leaves, through the pointer it has kept; the last one takes the proxy with it. */
    method DeregisterUser(key: Addr, item: Proxy)
      requires Valid() && key != NULL && key != DELETED && key in contents && contents[key] == item
      modifies this`count, this`contents, buckets, item
      ensures Valid() && buckets == old(buckets) &&
        contents == (if old(item.useCount) == 1 then old(contents) - {key} else old(contents))
      ensures View() == Effect(old(View()), Deregister(key), Some(item))
      ensures StaysUsed(old(buckets[..]), buckets[..])
    {
      ghost var before := View();
      DropUse(key, item);
      DeregisterEffect(before, View(), key, Some(item));
      if item.useCount == 0 {
        RemoveLast(key);
      }
    }

    /** A waiter leaves if it is registered. */
    method DeregisterByKey(key: Addr, memory: Memory) returns (r: Proxy?)
      requires Valid() && key != NULL && key != DELETED
      modifies this, buckets, Proxies()
      ensures Valid() && (buckets == old(buckets) || fresh(buckets)) && Proxies() <= old(Proxies())
      ensures Answer(r) == Lookup(old(View()), key) && View() == Effect(old(View()), Deregister(key), Answer(r))
    {
      r := LookUpUser(key, memory);
      if r != null {
        DeregisterUser(key, r);
      }
    }

    /** One operation of the wait and notify paths. */
    method Perform(op: Op, memory: Memory) returns (r: Option<Proxy>)
      requires Valid() && op.key != NULL && op.key != DELETED
      modifies this, buckets, Proxies()
      ensures Valid() && (buckets == old(buckets) || fresh(buckets)) && fresh(Proxies() - old(Proxies()))
      ensures Allowed(old(View()), op, r) && View() == Effect(old(View()), op, r)
      ensures op.Register? ==> (r.None? <==> old(Fails(op.key, memory)))
    {
      var p;
      match op {
        case Register(key) => p := RegisterUser(key, memory);
        case LookUp(key) => p := LookUpUser(key, memory);
        case Deregister(key) => p := DeregisterByKey(key, memory);
      }
      r := Answer(p);
    }

    /** For every sequence of registrations, lookups and departures, whatever growths and refusals they
        meet, the table goes through a history of the plain map: each answer is the proxy the map
        holds at that point, and each operation does to the table what it does to the map. */
    method Replay(ops: seq<Op>, memory: seq<Memory>)
      returns (rs: seq<Option<Proxy>>, ghost ms: seq<map<Addr, Entry<Proxy>>>)
      requires Valid() && |memory| == |ops|
      requires forall i :: 0 <= i < |ops| ==> ops[i].key != NULL && ops[i].key != DELETED
      modifies this, buckets, Proxies()
      ensures Valid() && History(ms, ops, rs) && ms[0] == old(View()) && ms[|ops|] == View()
    {
      rs, ms := [], [View()];
      for i := 0 to |ops|
        invariant Valid() && (buckets == old(buckets) || fresh(buckets)) && fresh(Proxies() - old(Proxies()))
        invariant |rs| == i && History(ms, ops[..i], rs) && ms[0] == old(View()) && ms[i] == View()
      {
        var r := Perform(ops[i], memory[i]);
        HistoryNext(ms, ops, i, rs, r);
        rs, ms := rs + [r], ms + [View()];
      }
      assert ops[..|ops|] == ops;
    }
  }
}
