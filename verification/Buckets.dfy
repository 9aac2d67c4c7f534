/** The bucket array of the proxy table as a sequence: what makes it well formed, and what each
    in-place change of the program does to the finite map it stands for. The hash is an arbitrary
    function throughout. */
module Buckets {
  import opened Common
  import opened Probing

  const NULL: Addr := 0
  const DELETED: Addr := 1

  datatype Bucket<T> = Bucket(key: Addr, proxy: Option<T>)

  predicate Live<T>(b: Bucket<T>) {
    b.key != NULL && b.key != DELETED
  }

  /** Every slot on the probe path of slot `i`'s key before `i` itself is in use or a tombstone. */
  ghost predicate Reached<T>(hash: Addr -> nat, s: seq<Bucket<T>>, i: nat)
    requires IsPow2(|s|) && i < |s|
  {
    forall t {:trigger Slot(hash(s[i].key), t, |s|)} ::
      0 <= t < StepTo(hash(s[i].key), |s|, i) ==> s[Slot(hash(s[i].key), t, |s|)].key != NULL
  }

  /** No key stands in two slots. */
  ghost predicate Distinct<T>(s: seq<Bucket<T>>) {
    forall i, j {:trigger s[i].key, s[j].key} :: 0 <= i < j < |s| && Live(s[i]) ==> s[i].key != s[j].key
  }

  ghost predicate WellFormed<T>(hash: Addr -> nat, s: seq<Bucket<T>>) {
    && IsPow2(|s|)
    && (forall i {:trigger s[i].proxy} :: 0 <= i < |s| ==> (s[i].proxy.Some? <==> Live(s[i])))
    && Distinct(s)
    && (forall i {:trigger Reached(hash, s, i)} :: 0 <= i < |s| && Live(s[i]) ==> Reached(hash, s, i))
  }

  ghost predicate Has<T>(s: seq<Bucket<T>>, k: Addr) {
    exists i {:trigger s[i].key} :: 0 <= i < |s| && s[i].key == k
  }

  /** The live slots are exactly the entries of `m`. */
  ghost predicate Stands<T>(s: seq<Bucket<T>>, m: map<Addr, T>) {
    && (forall i {:trigger s[i].key} :: 0 <= i < |s| && Live(s[i]) ==> s[i].key in m && s[i].proxy == Some(m[s[i].key]))
    && (forall k {:trigger Has(s, k)} :: k in m ==> k != NULL && k != DELETED && Has(s, k))
  }

  // ---------------------------------------------------------------- lookups

  /** A probe that meets NULL before the key has proved the key absent. */
  lemma MissAtNull<T>(hash: Addr -> nat, s: seq<Bucket<T>>, k: Addr, t: nat)
    requires WellFormed(hash, s) && k != NULL && k != DELETED && t < |s|
    requires s[Slot(hash(k), t, |s|)].key == NULL
    requires forall u {:trigger Slot(hash(k), u, |s|)} :: 0 <= u < t ==> s[Slot(hash(k), u, |s|)].key != k
    ensures !Has(s, k)
  {
    forall i | 0 <= i < |s| ensures s[i].key != k {
      var u := StepTo(hash(k), |s|, i);
      assert Slot(hash(k), u, |s|) == i;
      assert Live(s[i]) ==> Reached(hash, s, i);
    }
  }

  /** A full probe that never meets the key has proved it absent. */
  lemma MissAfterAll<T>(hash: Addr -> nat, s: seq<Bucket<T>>, k: Addr)
    requires IsPow2(|s|)
    requires forall u {:trigger Slot(hash(k), u, |s|)} :: 0 <= u < |s| ==> s[Slot(hash(k), u, |s|)].key != k
    ensures !Has(s, k)
  {
    forall i | 0 <= i < |s| ensures s[i].key != k {
      assert Slot(hash(k), StepTo(hash(k), |s|, i), |s|) == i;
    }
  }

  /** A full probe that never meets NULL has proved that there is none. */
  lemma NoNullAnywhere<T>(hash: Addr -> nat, s: seq<Bucket<T>>, k: Addr)
    requires IsPow2(|s|)
    requires forall u {:trigger Slot(hash(k), u, |s|)} :: 0 <= u < |s| ==> s[Slot(hash(k), u, |s|)].key != NULL
    ensures !Has(s, NULL)
  {
    forall i | 0 <= i < |s| ensures s[i].key != NULL {
      assert Slot(hash(k), StepTo(hash(k), |s|, i), |s|) == i;
    }
  }

  // ---------------------------------------------------------------- insertion

  /** Slot number `u` of the key's probe path may take the key: it is free, and the path so far is
      without NULL. */
  ghost predicate Insertable<T>(hash: Addr -> nat, s: seq<Bucket<T>>, k: Addr, u: nat)
    requires |s| > 0
  {
    && u < |s| && !Live(s[Slot(hash(k), u, |s|)])
    && forall t {:trigger Slot(hash(k), t, |s|)} :: 0 <= t < u ==> s[Slot(hash(k), t, |s|)].key != NULL
  }

  /** Turning a slot into anything but NULL strands nobody. */
  lemma KeepsReached<T>(hash: Addr -> nat, s: seq<Bucket<T>>, j: nat, b: Bucket<T>, i: nat)
    requires WellFormed(hash, s) && j < |s| && b.key != NULL && i < |s| && i != j && Live(s[i])
    ensures Reached(hash, s[j := b], i)
  {
    assert Reached(hash, s, i);
  }

  lemma InsertReached<T>(hash: Addr -> nat, s: seq<Bucket<T>>, k: Addr, u: nat, p: T)
    requires WellFormed(hash, s) && Insertable(hash, s, k, u)
    ensures Reached(hash, s[Slot(hash(k), u, |s|) := Bucket(k, Some(p))], Slot(hash(k), u, |s|))
  {
    StepToSlot(hash(k), |s|, u);
    var j := Slot(hash(k), u, |s|);
    forall t | 0 <= t < u ensures s[j := Bucket(k, Some(p))][Slot(hash(k), t, |s|)].key != NULL {
      ProbeInjective(hash(k), |s|, t, u);
    }
  }

  lemma InsertWellFormed<T>(hash: Addr -> nat, s: seq<Bucket<T>>, k: Addr, u: nat, p: T)
    requires WellFormed(hash, s) && k != NULL && k != DELETED && !Has(s, k) && Insertable(hash, s, k, u)
    ensures WellFormed(hash, s[Slot(hash(k), u, |s|) := Bucket(k, Some(p))])
  {
    var j := Slot(hash(k), u, |s|);
    var s' := s[j := Bucket(k, Some(p))];
    assert forall i :: 0 <= i < |s| ==> s[i].key != k;
    forall i | 0 <= i < |s'| && Live(s'[i]) ensures Reached(hash, s', i) {
      if i == j {
        InsertReached(hash, s, k, u, p);
      } else {
        KeepsReached(hash, s, j, Bucket(k, Some(p)), i);
      }
    }
  }

  lemma InsertStands<T>(s: seq<Bucket<T>>, m: map<Addr, T>, k: Addr, j: nat, p: T)
    requires Stands(s, m) && k != NULL && k != DELETED && !Has(s, k) && j < |s| && !Live(s[j])
    ensures Stands(s[j := Bucket(k, Some(p))], m[k := p]) && k !in m
  {
    var s' := s[j := Bucket(k, Some(p))];
    assert k in m ==> Has(s, k);
    forall i | 0 <= i < |s'| && Live(s'[i])
      ensures s'[i].key in m[k := p] && s'[i].proxy == Some(m[k := p][s'[i].key])
    {
      assert i != j ==> s[i].key != k;
    }
    assert s'[j].key == k;
    forall x | x in m ensures x != NULL && x != DELETED && Has(s', x) {
      assert Has(s, x);
      HasKept(s, j, Bucket(k, Some(p)), x);
    }
    assert Has(s', k);
    forall x | x in m[k := p] ensures x != NULL && x != DELETED && Has(s', x) {
      assert x == k || x in m;
    }
  }

  lemma HasKept<T>(s: seq<Bucket<T>>, j: nat, b: Bucket<T>, x: Addr)
    requires j < |s| && Has(s, x) && s[j].key != x
    ensures Has(s[j := b], x)
  {
    var i :| 0 <= i < |s| && s[i].key == x;
    assert s[j := b][i].key == x;
  }

  // ---------------------------------------------------------------- removal

  function Tombstone<T>(): Bucket<T> {
    Bucket(DELETED, None)
  }

  /** A tombstone in place of a live slot strands no other key. */
  lemma RemoveWellFormed<T>(hash: Addr -> nat, s: seq<Bucket<T>>, j: nat)
    requires WellFormed(hash, s) && j < |s| && Live(s[j])
    ensures WellFormed(hash, s[j := Tombstone()])
  {
    var s' := s[j := Tombstone()];
    forall i | 0 <= i < |s'| && Live(s'[i]) ensures Reached(hash, s', i) {
      KeepsReached(hash, s, j, Tombstone(), i);
    }
  }

  lemma RemoveStands<T>(hash: Addr -> nat, s: seq<Bucket<T>>, m: map<Addr, T>, j: nat)
    requires WellFormed(hash, s) && Stands(s, m) && j < |s| && Live(s[j])
    ensures Stands(s[j := Tombstone()], m - {s[j].key}) && s[j].key in m
  {
    var k := s[j].key;
    var s' := s[j := Tombstone()];
    forall i | 0 <= i < |s'| && Live(s'[i]) ensures s'[i].key in m - {k} && s'[i].proxy == Some((m - {k})[s'[i].key]) {
      assert s[i].key != s[j].key;
    }
    forall x | x in m - {k} ensures x != NULL && x != DELETED && Has(s', x) {
      assert Has(s, x);
      HasKept(s, j, Tombstone(), x);
    }
  }

  // ---------------------------------------------------------------- counting

  ghost function LiveKeys<T>(s: seq<Bucket<T>>): set<Addr> {
    if s == [] then {} else LiveKeys(s[..|s| - 1]) + if Live(s[|s| - 1]) then {s[|s| - 1].key} else {}
  }

  lemma {:induction false} InLiveKeys<T>(s: seq<Bucket<T>>, k: Addr)
    ensures k in LiveKeys(s) <==> k != NULL && k != DELETED && Has(s, k)
  {
    if s != [] {
      var n := |s| - 1;
      var s0 := s[..n];
      InLiveKeys(s0, k);
      HasLast(s, k);
    }
  }

  lemma HasLast<T>(s: seq<Bucket<T>>, k: Addr)
    requires s != []
    ensures Has(s, k) <==> Has(s[..|s| - 1], k) || s[|s| - 1].key == k
  {
    var s0 := s[..|s| - 1];
    if Has(s0, k) {
      var i :| 0 <= i < |s0| && s0[i].key == k;
      assert s[i].key == k;
    }
    if Has(s, k) && s[|s| - 1].key != k {
      var i :| 0 <= i < |s| && s[i].key == k;
      assert s0[i].key == k;
    }
  }

  /** The number of live slots. */
  function LiveCount<T>(s: seq<Bucket<T>>): nat {
    if s == [] then 0 else LiveCount(s[..|s| - 1]) + if Live(s[|s| - 1]) then 1 else 0
  }

  lemma {:induction false} LiveKeysCard<T>(s: seq<Bucket<T>>)
    requires Distinct(s)
    ensures |LiveKeys(s)| == LiveCount(s)
  {
    if s != [] {
      var n := |s| - 1;
      var s0 := s[..n];
      LiveKeysCard(s0);
      InLiveKeys(s0, s[n].key);
    }
  }

  /** The map has one entry per live slot. */
  lemma CardIsLiveCount<T>(hash: Addr -> nat, s: seq<Bucket<T>>, m: map<Addr, T>)
    requires WellFormed(hash, s) && Stands(s, m)
    ensures |m| == LiveCount(s)
  {
    LiveKeysCard(s);
    forall k ensures k in m <==> k in LiveKeys(s) {
      InLiveKeys(s, k);
      assert k in m ==> Has(s, k);
    }
    assert m.Keys == LiveKeys(s);
  }

  lemma {:induction false} FullCount<T>(s: seq<Bucket<T>>)
    requires forall i :: 0 <= i < |s| ==> Live(s[i])
    ensures LiveCount(s) == |s|
  {
    if s != [] {
      FullCount(s[..|s| - 1]);
    }
  }

  ghost predicate NoTombstones<T>(s: seq<Bucket<T>>) {
    forall i {:trigger s[i].key} :: 0 <= i < |s| ==> s[i].key != DELETED
  }

  /** A table without tombstones and with fewer entries than slots still has a NULL slot. */
  lemma NullRemains<T>(hash: Addr -> nat, s: seq<Bucket<T>>, m: map<Addr, T>)
    requires WellFormed(hash, s) && Stands(s, m) && NoTombstones(s) && |m| < |s|
    ensures Has(s, NULL)
  {
    if !Has(s, NULL) {
      assert forall i :: 0 <= i < |s| ==> s[i].key != NULL;
      CardIsLiveCount(hash, s, m);
      FullCount(s);
    }
  }
}
