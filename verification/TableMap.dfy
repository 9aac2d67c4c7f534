/** The plain finite map behind the proxy table: what registering, looking up and leaving do to a map from
    object to proxy and number of users, and what they answer. `P` is whatever stands for a proxy. */
module TableMap {
  import opened Common

  datatype Entry<P> = Entry(proxy: P, uses: int)

  /** The three ways the wait and notify paths use the table. */
  datatype Op = Register(key: Addr) | LookUp(key: Addr) | Deregister(key: Addr)

  /** The map after an operation that was answered with `r`. */
  function Effect<P>(m: map<Addr, Entry<P>>, op: Op, r: Option<P>): map<Addr, Entry<P>> {
    match op
    case Register(k) =>
      if r.None? then m
      else if k in m then m[k := Entry(m[k].proxy, m[k].uses + 1)]
      else m[k := Entry(r.value, 1)]
    case LookUp(_) => m
    case Deregister(k) =>
      if k !in m then m
      else if m[k].uses == 1 then m - {k}
      else m[k := Entry(m[k].proxy, m[k].uses - 1)]
  }

  function Lookup<P>(m: map<Addr, Entry<P>>, k: Addr): Option<P> {
    if k in m then Some(m[k].proxy) else None
  }

  /** `r` is an answer the map allows: only a registration may be refused, and none gives out another proxy
      than the one the map holds. */
  ghost predicate Allowed<P>(m: map<Addr, Entry<P>>, op: Op, r: Option<P>) {
    if op.Register? then r.Some? && op.key in m ==> r == Lookup(m, op.key)
    else r == Lookup(m, op.key)
  }

  // ---------------------------------------------------------------- sequences of operations

  /** Operation number `i` of a history: it was answered as the map allows, and had its effect. */
  ghost predicate Link<P>(ms: seq<map<Addr, Entry<P>>>, ops: seq<Op>, rs: seq<Option<P>>, i: nat)
    requires i < |ops| == |rs| == |ms| - 1
  {
    Allowed(ms[i], ops[i], rs[i]) && ms[i + 1] == Effect(ms[i], ops[i], rs[i])
  }

  /** A history of the map: `ms[i]` is the map before operation `i`. */
  ghost predicate History<P>(ms: seq<map<Addr, Entry<P>>>, ops: seq<Op>, rs: seq<Option<P>>) {
    && |ops| == |rs| == |ms| - 1
    && forall i {:trigger Link(ms, ops, rs, i)} :: 0 <= i < |ops| ==> Link(ms, ops, rs, i)
  }

  /** A key that is in the map all the way from `i` to `j` keeps its proxy. */
  lemma {:induction false} KeepsProxy<P>(
    ms: seq<map<Addr, Entry<P>>>, ops: seq<Op>, rs: seq<Option<P>>, k: Addr, i: nat, j: nat)
    requires History(ms, ops, rs) && i <= j < |ms|
    requires forall l {:trigger ms[l]} :: i <= l <= j ==> k in ms[l]
    ensures ms[j][k].proxy == ms[i][k].proxy
    decreases j
  {
    if i < j {
      KeepsProxy(ms, ops, rs, k, i, j - 1);
      assert Link(ms, ops, rs, j - 1);
      assert k in ms[j - 1];
    }
  }

  /** One more operation extends a history. */
  lemma HistoryNext<P>(ms: seq<map<Addr, Entry<P>>>, ops: seq<Op>, n: nat, rs: seq<Option<P>>, r: Option<P>)
    requires n < |ops| && History(ms, ops[..n], rs) && Allowed(ms[n], ops[n], r)
    ensures History(ms + [Effect(ms[n], ops[n], r)], ops[..n + 1], rs + [r])
  {
    var ms', ops', rs' := ms + [Effect(ms[n], ops[n], r)], ops[..n + 1], rs + [r];
    forall i | 0 <= i < n + 1 ensures Link(ms', ops', rs', i) {
      assert i < n ==> Link(ms, ops[..n], rs, i);
    }
  }
}
