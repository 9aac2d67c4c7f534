/** The two ways in which a table of maximum size refuses a key, each reached from the empty table by the
    table's own operations and with every allocation succeeding. */
module TableLimits {
  import opened Common
  import opened Probing
  import opened Buckets
  import opened HashTable
  import F = HashFunc

  const ENOUGH: Memory := Memory(true, true, true, 0)

  // 3/4 of the maximum size, and 3/8 of it: the load of a table that has just grown to it.
  const FULL_LOAD: nat := (BUCKETS_MAX / 4) * 3
  const GROWN_LOAD: nat := (BUCKETS_MAX / 8) * 3

  /** An absent key joins a table that does not refuse it. */
  method Join(table: HashTable, key: Addr) returns (r: Proxy)
    requires table.Valid() && key != NULL && key != DELETED && key !in table.contents && !table.Refuses(key)
    modifies table, table.buckets, table.Proxies()
    ensures table.Valid() && table.Slots() && table.buckets.Length > 0
    ensures table.contents == old(table.contents)[key := r] && table.count == old(table.count) + 1
    ensures fresh(r) && r.useCount == 1
  {
    var p := table.FindOrCreate(key, true, ENOUGH);
    r := p;
    assert |old(table.contents)[key := r]| == |old(table.contents)| + 1;
  }

  /** Without tombstones, a table below 3/4 load refuses no key. */
  lemma RoomForMore(table: HashTable, key: Addr)
    requires table.Valid() && table.count < FULL_LOAD
    requires table.buckets.Length > 0 ==> NoTombstones(table.buckets[..])
    ensures !table.Refuses(key)
  {
    if table.buckets.Length == BUCKETS_MAX {
      NullRemains(table.hash, table.buckets[..], table.contents);
    }
  }

  /** More than 3/8 of the maximum size only fits into a table of maximum size. */
  lemma AtMaximum(n: nat, count: nat)
    requires IsPow2(n) && n <= BUCKETS_MAX && GROWN_LOAD < count <= (n / 4) * 3
    ensures n == BUCKETS_MAX
  {
    if n < BUCKETS_MAX {
      RoomToDouble(n);
    }
  }

  lemma Biggest(table: HashTable)
    requires table.Valid() && GROWN_LOAD < table.count
    ensures table.buckets.Length == BUCKETS_MAX
  {
    AtMaximum(table.bucketCount, table.count);
  }

  /** Exactly the keys from 2 up to `k` are in the table, and it has no tombstones. */
  ghost predicate Dense(table: HashTable, k: nat)
    reads table, table.buckets
  {
    && table.Valid() && k >= 2 && table.count == k - 2
    && (forall a {:trigger a in table.contents} :: a in table.contents <==> 2 <= a < k)
    && (table.buckets.Length > 0 ==> NoTombstones(table.buckets[..]))
  }

  method JoinNext(table: HashTable, k: nat)
    requires Dense(table, k) && table.count < FULL_LOAD
    modifies table, table.buckets, table.Proxies()
    ensures Dense(table, k + 1)
    ensures table.buckets == old(table.buckets) || fresh(table.buckets)
    ensures fresh(table.Proxies() - old(table.Proxies()))
  {
    RoomForMore(table, k);
    var r := Join(table, k);
  }

  /** Keys 2, 3, 4 and so on join until the load is 3/4 of the maximum size. */
  method Load(table: HashTable, n: nat) returns (k: nat)
    requires Dense(table, 2) && n <= FULL_LOAD
    modifies table, table.buckets, table.Proxies()
    ensures Dense(table, k) && table.count == n
    ensures table.buckets == old(table.buckets) || fresh(table.buckets)
    ensures fresh(table.Proxies() - old(table.Proxies()))
  {
    k := 2;
    while table.count < n
      invariant Dense(table, k) && table.count <= n
      invariant table.buckets == old(table.buckets) || fresh(table.buckets)
      invariant fresh(table.Proxies() - old(table.Proxies()))
      decreases n - table.count
    {
      JoinNext(table, k);
      k := k + 1;
    }
  }

  lemma StartsDense(table: HashTable)
    requires table.Valid() && table.contents == map[] && table.buckets.Length == 0
    ensures Dense(table, 2)
  {
  }

  /** At 3/4 of the maximum size even a key that is in the table, here 2, can no longer be registered. */
  method Loaded(hash: Addr -> nat) returns (table: HashTable)
    ensures fresh(table) && table.Valid() && table.hash == hash
    ensures 2 in table.contents && table.Refuses(2)
  {
    table := new HashTable(hash);
    StartsDense(table);
    var k := Load(table, FULL_LOAD);
    Biggest(table);
    assert 2 in table.contents;
  }

  // ---------------------------------------------------------------- every slot used once

  /** The first slot of a present key's path is not NULL. */
  lemma FirstSlotUsed(hash: Addr -> nat, s: seq<Bucket<Proxy>>, key: Addr)
    requires WellFormed(hash, s) && Has(s, key) && key != NULL && key != DELETED
    ensures |s| > 0 && s[hash(key) % |s|].key != NULL
  {
    var i :| 0 <= i < |s| && s[i].key == key;
    assert Live(s[i]) && Reached(hash, s, i);
    assert Slot(hash(key), StepTo(hash(key), |s|, i), |s|) == i;
    SlotMod(hash(key), 0, |s|);
  }

  /** Beyond the first addresses there is, for every slot of a table of maximum size, a key that starts its
      probe there. */
  ghost predicate Onto(hash: Addr -> nat, keyAt: nat -> Addr) {
    forall i {:trigger keyAt(i)} :: 0 <= i < BUCKETS_MAX ==>
      keyAt(i) >= BUCKETS_MAX && hash(keyAt(i)) % BUCKETS_MAX == i
  }

  ghost predicate UsedUpTo(s: seq<Bucket<Proxy>>, i: nat) {
    i <= |s| && forall j {:trigger s[j].key} :: 0 <= j < i ==> s[j].key != NULL
  }

  /** A table of maximum size, below 3/4 load, with no key from its size on; none of its first `i` slots is
      NULL. */
  ghost predicate Wearing(table: HashTable, i: nat)
    reads table, table.buckets
  {
    && table.Valid() && table.buckets.Length == BUCKETS_MAX && table.count < FULL_LOAD
    && (forall a {:trigger a in table.contents} :: a in table.contents ==> a < BUCKETS_MAX)
    && UsedUpTo(table.buckets[..], i)
  }

  /** The key for slot `i` joins: that leaves the slot where its probe starts in use. */
  method Enter(table: HashTable, key: Addr, ghost i: nat) returns (p: Proxy?)
    requires Wearing(table, i) && i < BUCKETS_MAX <= key && table.hash(key) % BUCKETS_MAX == i
    modifies table, table.buckets, table.Proxies()
    ensures table.Valid() && table.buckets == old(table.buckets)
    ensures p == null ==> table.contents == old(table.contents) && table.Refuses(key)
    ensures p != null ==> table.contents == old(table.contents)[key := p] && p.useCount == 1 && fresh(p)
    ensures p != null ==> UsedUpTo(table.buckets[..], i + 1)
  {
    ghost var s := table.buckets[..];
    p := table.FindOrCreate(key, true, ENOUGH);
    ghost var s' := table.buckets[..];
    assert Filled(s, s');
    if p != null {
      assert Has(s', key);
      FirstSlotUsed(table.hash, s', key);
    }
  }

  /** It joins and leaves again: the map is as before, one more slot is in use or a tombstone. */
  method Wear(table: HashTable, key: Addr, ghost i: nat) returns (refused: bool)
    requires Wearing(table, i) && i < BUCKETS_MAX <= key && table.hash(key) % BUCKETS_MAX == i
    modifies table, table.buckets, table.Proxies()
    ensures table.Valid() && table.contents == old(table.contents) && table.buckets == old(table.buckets)
    ensures if refused then table.Refuses(key) else Wearing(table, i + 1)
  {
    var p := Enter(table, key, i);
    refused := p == null;
    if p != null {
      ghost var s := table.buckets[..];
      table.DeregisterUser(key, p);
      assert StaysUsed(s, table.buckets[..]);
      assert table.contents == old(table.contents);
    }
  }

  /** Key after key joins and leaves, until one is refused or every slot has been used. */
  method WearOut(table: HashTable, keyAt: nat -> Addr) returns (key: Addr)
    requires Wearing(table, 0) && Onto(table.hash, keyAt)
    modifies table, table.buckets, table.Proxies()
    ensures table.Valid() && table.contents == old(table.contents) && table.buckets == old(table.buckets)
    ensures key >= BUCKETS_MAX && table.Refuses(key)
  {
    var i, refused := 0, false;
    while !refused && i < BUCKETS_MAX
      invariant i <= BUCKETS_MAX && table.contents == old(table.contents) && table.buckets == old(table.buckets)
      invariant if refused then i < BUCKETS_MAX && table.Valid() && table.Refuses(keyAt(i)) else Wearing(table, i)
      decreases BUCKETS_MAX - i, !refused
    {
      refused := Wear(table, keyAt(i), i);
      if !refused {
        i := i + 1;
      }
    }
    if refused {
      key := keyAt(i);
    } else {
      key := keyAt(0);
      AllUsed(table, key);
    }
  }

  lemma AllUsed(table: HashTable, key: Addr)
    requires Wearing(table, BUCKETS_MAX) && key >= BUCKETS_MAX
    ensures table.Refuses(key)
  {
  }

  lemma StartsWearing(table: HashTable, k: nat)
    requires Dense(table, k) && table.count == GROWN_LOAD + 1
    ensures Wearing(table, 0)
  {
    Biggest(table);
  }

  /** For every hash that is onto: a table at 3/8 load of its maximum size in which one key after another has
      come and gone refuses a key although more than half of its slots hold none. */
  method Worn(hash: Addr -> nat, keyAt: nat -> Addr) returns (table: HashTable, key: Addr)
    requires Onto(hash, keyAt)
    ensures fresh(table) && table.Valid() && table.hash == hash && table.count == GROWN_LOAD + 1
    ensures key !in table.contents && key != NULL && key != DELETED && table.Refuses(key)
  {
    table := new HashTable(hash);
    StartsDense(table);
    var k := Load(table, GROWN_LOAD + 1);
    StartsWearing(table, k);
    key := WearOut(table, keyAt);
  }

  /** The program's hash is. */
  lemma HashIsOnto()
    ensures Onto(F.HashOf, F.KeyAt)
  {
    forall i | 0 <= i < BUCKETS_MAX
      ensures F.KeyAt(i) >= BUCKETS_MAX && F.HashOf(F.KeyAt(i)) % BUCKETS_MAX == i
    {
      F.HashesTo(i);
    }
  }

  /** So the program's own table can refuse a key in this way. */
  method WornInProgram() returns (table: HashTable, key: Addr)
    ensures fresh(table) && table.Valid() && table.hash == F.HashOf && table.count == GROWN_LOAD + 1
    ensures key !in table.contents && key != NULL && key != DELETED && table.Refuses(key)
  {
    HashIsOnto();
    table, key := Worn(F.HashOf, F.KeyAt);
  }
}
