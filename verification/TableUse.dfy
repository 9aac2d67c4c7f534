/** How the protocol uses the proxy table. Seen from the table, every run of the transition system is a
    history of registrations, look-ups and departures on a plain map; and a run that takes its
    answers from the table of HashTable.dfy keeps every pointer of the protocol equal to the
    pointer that table holds, across every rehash. */
module TableUse {
  import opened Common
  import opened Protocol
  import opened Registry
  import B = Buckets
  import H = HashTable
  import M = TableMap

  type Uses = map<Addr, M.Entry<Pid>>

  /** The proxy of each object and the number of its users, as the protocol has them. */
  function Users(s: State): Uses {
    map a | a in s.table :: M.Entry(s.table[a], At(s, s.table[a]).useCount)
  }

  /** What an action asks of the table, and the pointer it goes on with. */
  datatype Call = Silent | Call(op: M.Op, r: Option<Pid>)

  function CallOf(s: State, x: Action): Call
    requires Enabled(s, x)
  {
    match x
    case Find(t, ok, node) => Call(M.Register(s.threads[t].addr), Use(DoFind(s, t, ok, node).threads[t]))
    case LookUp(t) => Call(M.LookUp(s.threads[t].target), LookUpNext(s.backend, s.table, s.threads[t]).found)
    case Leave(t) => Call(M.Deregister(s.threads[t].addr), s.threads[t].item)
    case _ => Silent
  }

  function After(m: Uses, c: Call): Uses {
    if c.Silent? then m else M.Effect(m, c.op, c.r)
  }

  // ---------------------------------------------------------------- one step

  lemma FindUses(s: State, t: Tid, ok: bool, node: Pid)
    requires TableOK(s.table, s.proxies) && IsWaiter(s, t, Finding) && node !in s.proxies && s.threads[t].item.None?
    ensures var c := CallOf(s, Find(t, ok, node));
      M.Allowed(Users(s), c.op, c.r) && Users(DoFind(s, t, ok, node)) == M.Effect(Users(s), c.op, c.r)
  {
    FindEffect(s, t, ok, node);
  }

  lemma FindPresent(s: State, t: Tid, node: Pid)
    requires TableOK(s.table, s.proxies) && IsWaiter(s, t, Finding) && s.threads[t].addr in s.table
    ensures var addr := s.threads[t].addr;
      Users(DoFind(s, t, true, node)) == M.Effect(Users(s), M.Register(addr), Some(s.table[addr]))
  {
    var addr := s.threads[t].addr;
    assert s.proxies[s.table[addr]].owner == addr;
  }

  lemma FindAbsent(s: State, t: Tid, node: Pid)
    requires TableOK(s.table, s.proxies) && IsWaiter(s, t, Finding) && node !in s.proxies
    requires s.threads[t].addr !in s.table
    ensures Users(DoFind(s, t, true, node)) == M.Effect(Users(s), M.Register(s.threads[t].addr), Some(node))
  {
  }

  lemma FindEffect(s: State, t: Tid, ok: bool, node: Pid)
    requires TableOK(s.table, s.proxies) && IsWaiter(s, t, Finding) && node !in s.proxies && s.threads[t].item.None?
    ensures var r := Use(DoFind(s, t, ok, node).threads[t]);
      Users(DoFind(s, t, ok, node)) == M.Effect(Users(s), M.Register(s.threads[t].addr), r)
  {
    if ok && s.threads[t].addr in s.table {
      FindPresent(s, t, node);
    } else if ok {
      FindAbsent(s, t, node);
    }
  }

  lemma LeaveUses(s: State, t: Tid)
    requires TableOK(s.table, s.proxies) && IsWaiter(s, t, Leaving) && Good(s.backend, s.proxies, s.threads[t])
    ensures var c := CallOf(s, Action.Leave(t));
      M.Allowed(Users(s), c.op, c.r) && Users(DoLeave(s, t)) == M.Effect(Users(s), c.op, c.r)
  {
    assert s.proxies[ItemOf(s.threads[t])].owner == s.threads[t].addr;
  }

  lemma CountKept(s: State, x: Action, p: Pid)
    requires Enabled(s, x) && !x.Find? && !x.Leave?
    ensures At(Apply(s, x), p).useCount == At(s, p).useCount
  {
  }

  lemma TableKept(s: State, x: Action)
    requires Enabled(s, x) && !x.Find? && !x.Leave?
    ensures Apply(s, x).table == s.table
  {
  }

  lemma OtherUses(s: State, x: Action)
    requires Enabled(s, x) && !x.Find? && !x.Leave?
    ensures Users(Apply(s, x)) == Users(s)
  {
    var s' := Apply(s, x);
    TableKept(s, x);
    forall a | a in s.table ensures At(s', s.table[a]).useCount == At(s, s.table[a]).useCount {
      CountKept(s, x, s.table[a]);
    }
  }

  /** Each action has on the map of users exactly the effect of its table operation, or none, and goes on
      with an answer that the map allows. */
  lemma StepUses(s: State, x: Action)
    requires Inv(s) && Enabled(s, x)
    ensures Users(Apply(s, x)) == After(Users(s), CallOf(s, x))
    ensures var c := CallOf(s, x); c.Call? ==> M.Allowed(Users(s), c.op, c.r)
  {
    assert Good(s.backend, s.proxies, s.threads[x.t]);
    if x.Find? {
      FindUses(s, x.t, x.ok, x.node);
    } else if x.Leave? {
      LeaveUses(s, x.t);
    } else {
      OtherCalls(s, x);
    }
  }

  lemma OtherCalls(s: State, x: Action)
    requires Enabled(s, x) && !x.Find? && !x.Leave? && Good(s.backend, s.proxies, s.threads[x.t])
    ensures Users(Apply(s, x)) == After(Users(s), CallOf(s, x))
    ensures var c := CallOf(s, x); c.Call? ==> M.Allowed(Users(s), c.op, c.r)
  {
    OtherUses(s, x);
  }

  // ---------------------------------------------------------------- whole runs

  /** The table operations of a run with the answers they got, and the map before each and at the end. */
  datatype Log = Log(ms: seq<Uses>, ops: seq<M.Op>, rs: seq<Option<Pid>>)

  function Before(m: Uses, c: Call, l: Log): Log {
    if c.Silent? then l else Log([m] + l.ms, [c.op] + l.ops, [c.r] + l.rs)
  }

  function LogOf(s: State, acts: seq<Action>): Log
    requires Runs(s, acts)
    decreases |acts|
  {
    if acts == [] then Log([Users(s)], [], [])
    else Before(Users(s), CallOf(s, acts[0]), LogOf(Apply(s, acts[0]), acts[1..]))
  }

  /** The log is a history of the map, from `m` to `m'`. */
  ghost predicate Leads(m: Uses, l: Log, m': Uses) {
    M.History(l.ms, l.ops, l.rs) && l.ms[0] == m && l.ms[|l.ops|] == m'
  }

  lemma LeadsBefore(m: Uses, c: Call, l: Log, m': Uses)
    requires Leads(After(m, c), l, m') && (c.Call? ==> M.Allowed(m, c.op, c.r))
    ensures Leads(m, Before(m, c, l), m')
  {
    if c.Call? {
      var ms, ops, rs := [m] + l.ms, [c.op] + l.ops, [c.r] + l.rs;
      forall i | 0 <= i < |ops| ensures M.Link(ms, ops, rs, i) {
        assert i > 0 ==> M.Link(l.ms, l.ops, l.rs, i - 1);
      }
    }
  }

  /** A whole run is, on the map of users, the history of its table operations. */
  lemma {:induction false} RunUses(s: State, acts: seq<Action>)
    requires Inv(s) && Runs(s, acts)
    ensures Leads(Users(s), LogOf(s, acts), Users(Exec(s, acts)))
    decreases |acts|
  {
    if acts != [] {
      var x, s' := acts[0], Apply(s, acts[0]);
      Step(s, x);
      StepUses(s, x);
      RunUses(s', acts[1..]);
      LeadsBefore(Users(s), CallOf(s, x), LogOf(s', acts[1..]), Users(Exec(s', acts[1..])));
    }
  }

  // ---------------------------------------------------------------- addresses the table can hold

  predicate ProperKey(a: Addr) {
    a != B.NULL && a != B.DELETED
  }

  predicate Proper(th: Thread) {
    match th
    case Idle(_) => true
    case Waiter(_, addr, _, _, _, _, _) => ProperKey(addr)
    case Notifier(_, target, _, _, _) => ProperKey(target)
  }

  /** The caller passes the address of an object: neither NULL nor the tombstone mark. */
  predicate ProperAction(x: Action) {
    match x
    case BeginWait(_, addr, _, _) => ProperKey(addr)
    case StoreAll(_, addr, _) => ProperKey(addr)
    case BeginNotify(_, addr, _) => ProperKey(addr)
    case _ => true
  }

  ghost predicate Addressed(ths: Threads) {
    forall t {:trigger Proper(ths[t])} :: t in ths ==> Proper(ths[t])
  }

  lemma LocalProper(s: State, x: Action)
    requires IsLocal(x) && Enabled(s, x) && Proper(s.threads[x.t]) && ProperAction(x)
    ensures Proper(LocalNext(s, x))
  {
  }

  lemma HeldProper(s: State, x: Action)
    requires !IsLocal(x) && Enabled(s, x) && Proper(s.threads[x.t]) && ProperAction(x)
    ensures x.t in Apply(s, x).threads && Proper(Apply(s, x).threads[x.t])
  {
  }

  lemma NoNewThread(s: State, x: Action, t: Tid)
    requires !IsLocal(x) && Enabled(s, x) && t in Apply(s, x).threads
    ensures t in s.threads
  {
  }

  lemma ProperNext(s: State, x: Action, t: Tid)
    requires Enabled(s, x) && ProperAction(x) && Proper(s.threads[x.t]) && t in Apply(s, x).threads
    requires t in s.threads ==> Proper(s.threads[t])
    ensures Proper(Apply(s, x).threads[t])
  {
    if !IsLocal(x) {
      NoNewThread(s, x, t);
    }
    if t != x.t {
      Others(s, x, t);
    } else if IsLocal(x) {
      LocalProper(s, x);
    } else {
      HeldProper(s, x);
    }
  }

  lemma AddressedStep(s: State, x: Action)
    requires Addressed(s.threads) && Enabled(s, x) && ProperAction(x)
    ensures Addressed(Apply(s, x).threads)
  {
    assert Proper(s.threads[x.t]);
    forall t | t in Apply(s, x).threads ensures Proper(Apply(s, x).threads[t]) {
      ProperNext(s, x, t);
    }
  }

  // ---------------------------------------------------------------- the protocol on the real table

  /** Where the proxies of the protocol are in memory. */
  type Pointers = map<Pid, H.Proxy>

  ghost predicate Located(ptr: Pointers, m: Uses) {
    forall a {:trigger m[a]} :: a in m ==> m[a].proxy in ptr
  }

  ghost function Mapped(ptr: Pointers, m: Uses): map<Addr, M.Entry<H.Proxy>>
    requires Located(ptr, m)
  {
    map a | a in m :: M.Entry(ptr[m[a].proxy], m[a].uses)
  }

  /** The table holds, for each object, the very proxy that `m` has for it, with its number of users. */
  ghost predicate Holds(table: H.HashTable, m: Uses, ptr: Pointers)
    reads table, table.buckets, table.Proxies()
  {
    table.Valid() && Located(ptr, m) && table.View() == Mapped(ptr, m)
  }

  ghost predicate Mirrors(table: H.HashTable, s: State, ptr: Pointers)
    reads table, table.buckets, table.Proxies()
  {
    Holds(table, Users(s), ptr)
  }

  /** An operation answered alike on both sides keeps them alike. */
  lemma MappedEffect(ptr: Pointers, ptr': Pointers, m: Uses, op: M.Op, p: Option<Pid>, r: Option<H.Proxy>)
    requires Located(ptr, m) && M.Allowed(m, op, p)
    requires forall a {:trigger m[a]} :: a in m ==> m[a].proxy in ptr' && ptr'[m[a].proxy] == ptr[m[a].proxy]
    requires op.Register? ==> if p.None? then r.None? else r.Some? && p.value in ptr' && ptr'[p.value] == r.value
    ensures Located(ptr', M.Effect(m, op, p)) && Mapped(ptr', M.Effect(m, op, p)) == M.Effect(Mapped(ptr, m), op, r)
  {
  }

  /** A registration: a new proxy is known by the name `node`. */
  method ServeRegister(table: H.HashTable, m: Uses, key: Addr, node: Pid, memory: H.Memory, ptr: Pointers)
    returns (r: Option<Pid>, ptr': Pointers)
    requires Holds(table, m, ptr) && ProperKey(key) && forall a {:trigger m[a]} :: a in m ==> m[a].proxy != node
    modifies table, table.buckets, table.Proxies()
    ensures Holds(table, M.Effect(m, M.Register(key), r), ptr') && M.Allowed(m, M.Register(key), r)
    ensures r.Some? && key !in m ==> r == Some(node)
    ensures table.buckets == old(table.buckets) || fresh(table.buckets)
    ensures fresh(table.Proxies() - old(table.Proxies()))
    ensures forall p :: p in ptr && p != node ==> p in ptr' && ptr'[p] == ptr[p]
    ensures r.None? <==> old(table.Fails(key, memory))
  {
    ptr', r := ptr, None;
    var item := table.RegisterUser(key, memory);
    if item != null {
      if key in m {
        r := Some(m[key].proxy);
      } else {
        r, ptr' := Some(node), ptr[node := item];
      }
    }
    MappedEffect(ptr, ptr', m, M.Register(key), r, H.Answer(item));
  }

  /** A look-up: the pointer it returns is that of the proxy in `m`, or null. */
  method ServeLookUp(table: H.HashTable, m: Uses, key: Addr, memory: H.Memory, ptr: Pointers) returns (r: H.Proxy?)
    requires Holds(table, m, ptr) && ProperKey(key)
    modifies table, table.buckets, table.Proxies()
    ensures Holds(table, m, ptr)
    ensures if key in m then r == ptr[m[key].proxy] else r == null
    ensures table.buckets == old(table.buckets) || fresh(table.buckets)
    ensures table.Proxies() == old(table.Proxies())
  {
    r := table.LookUpUser(key, memory);
  }

  /** A departure, through the pointer that was kept. */
  method ServeLeave(table: H.HashTable, m: Uses, key: Addr, item: H.Proxy, ptr: Pointers)
    requires Holds(table, m, ptr) && ProperKey(key) && key in m && ptr[m[key].proxy] == item
    modifies table, table.buckets, table.Proxies()
    ensures Holds(table, M.Effect(m, M.Deregister(key), Some(m[key].proxy)), ptr)
    ensures table.buckets == old(table.buckets) && table.Proxies() <= old(table.Proxies())
  {
    assert table.View()[key].proxy == item;
    table.DeregisterUser(key, item);
    MappedEffect(ptr, ptr, m, M.Deregister(key), Some(m[key].proxy), Some(item));
  }

  /** What a step needs of the table: nothing, a use of the proxy of an object (new ones are called `node`), a
      look at it, or to give up the use it holds through the proxy `item`. */
  datatype Need = Nothing | Join(key: Addr, node: Pid) | Look(key: Addr) | Quit(key: Addr, item: Pid)

  predicate Fits(m: Uses, need: Need) {
    match need
    case Nothing => true
    case Join(key, node) => ProperKey(key) && forall a {:trigger m[a]} :: a in m ==> m[a].proxy != node
    case Look(key) => ProperKey(key)
    case Quit(key, item) => ProperKey(key) && key in m && m[key].proxy == item
  }

  function Met(m: Uses, need: Need, r: Option<Pid>): Uses {
    match need
    case Nothing => m
    case Join(key, _) => M.Effect(m, M.Register(key), r)
    case Look(_) => m
    case Quit(key, item) => M.Effect(m, M.Deregister(key), Some(item))
  }

  method Serve(table: H.HashTable, m: Uses, need: Need, memory: H.Memory, ptr: Pointers)
    returns (r: Option<Pid>, ptr': Pointers)
    requires Holds(table, m, ptr) && Fits(m, need)
    modifies table, table.buckets, table.Proxies()
    ensures Holds(table, Met(m, need, r), ptr')
    ensures table.buckets == old(table.buckets) || fresh(table.buckets)
    ensures fresh(table.Proxies() - old(table.Proxies()))
    ensures forall p :: p in ptr && !(need.Join? && p == need.node) ==> p in ptr' && ptr'[p] == ptr[p]
    ensures need.Join? ==> M.Allowed(m, M.Register(need.key), r) && (r.Some? && need.key !in m ==> r == Some(need.node))
    ensures need.Join? ==> (r.None? <==> old(table.Fails(need.key, memory)))
  {
    r, ptr' := None, ptr;
    match need {
      case Nothing =>
      case Join(key, node) => r, ptr' := ServeRegister(table, m, key, node, memory, ptr);
      case Look(key) => var item := ServeLookUp(table, m, key, memory, ptr);
      case Quit(key, item) => ServeLeave(table, m, key, ptr[item], ptr);
    }
  }

  function NeedOf(s: State, x: Action): Need
    requires Enabled(s, x)
  {
    match x
    case Find(t, _, node) => Join(s.threads[t].addr, node)
    case LookUp(t) => Look(s.threads[t].target)
    case Leave(t) => Quit(s.threads[t].addr, ItemOf(s.threads[t]))
    case _ => Nothing
  }

  function Next(s: State, x: Action): State {
    if Enabled(s, x) then Apply(s, x) else s
  }

  lemma ResolvesEnabled(s: State, x: Action, x': Action)
    requires Enabled(s, x) && Resolves(x, x')
    ensures Enabled(s, x')
  {
  }

  /** The choice as the table lets it happen: only the outcome of a registration is the table's to decide. */
  predicate Resolves(x: Action, x': Action) {
    if x.Find? then x'.Find? && x'.t == x.t && x'.node == x.node else x' == x
  }

  lemma NeedFits(s: State, x: Action)
    requires TableOK(s.table, s.proxies) && Enabled(s, x)
    requires Proper(s.threads[x.t]) && Good(s.backend, s.proxies, s.threads[x.t])
    ensures Fits(Users(s), NeedOf(s, x))
  {
    if x.Leave? {
      assert s.proxies[ItemOf(s.threads[x.t])].owner == s.threads[x.t].addr;
    }
  }

  function Resolve(x: Action, r: Option<Pid>): Action {
    if x.Find? then x.(ok := r.Some?) else x
  }

  lemma ResolvedFind(s: State, t: Tid, node: Pid, r: Option<Pid>)
    requires TableOK(s.table, s.proxies) && IsWaiter(s, t, Finding) && node !in s.proxies && s.threads[t].item.None?
    requires var addr := s.threads[t].addr;
      M.Allowed(Users(s), M.Register(addr), r) && (r.Some? && addr !in Users(s) ==> r == Some(node))
    ensures Users(DoFind(s, t, r.Some?, node)) == M.Effect(Users(s), M.Register(s.threads[t].addr), r)
  {
    FindUses(s, t, r.Some?, node);
  }

  lemma ResolvedJoin(s: State, x: Action, r: Option<Pid>)
    requires TableOK(s.table, s.proxies) && Enabled(s, x) && x.Find? && s.threads[x.t].item.None?
    requires var addr := s.threads[x.t].addr;
      M.Allowed(Users(s), M.Register(addr), r) && (r.Some? && addr !in Users(s) ==> r == Some(x.node))
    ensures Users(Next(s, Resolve(x, r))) == Met(Users(s), NeedOf(s, x), r)
  {
    ResolvedFind(s, x.t, x.node, r);
    assert Next(s, Resolve(x, r)) == DoFind(s, x.t, r.Some?, x.node);
  }

  lemma ResolvedQuit(s: State, x: Action, r: Option<Pid>)
    requires TableOK(s.table, s.proxies) && Enabled(s, x) && x.Leave? && Good(s.backend, s.proxies, s.threads[x.t])
    ensures Users(Next(s, Resolve(x, r))) == Met(Users(s), NeedOf(s, x), r)
  {
    LeaveUses(s, x.t);
    assert Next(s, Resolve(x, r)) == DoLeave(s, x.t);
  }

  lemma ResolvedOther(s: State, x: Action, r: Option<Pid>)
    requires Enabled(s, x) && !x.Find? && !x.Leave?
    ensures Users(Next(s, Resolve(x, r))) == Met(Users(s), NeedOf(s, x), r)
  {
    OtherUses(s, x);
  }

  /** The step that takes the table's answer has the effect of that answer. */
  lemma Resolved(s: State, x: Action, r: Option<Pid>)
    requires TableOK(s.table, s.proxies) && Enabled(s, x) && Good(s.backend, s.proxies, s.threads[x.t])
    requires x.Find? ==>
      var addr := s.threads[x.t].addr;
      M.Allowed(Users(s), M.Register(addr), r) && (r.Some? && addr !in Users(s) ==> r == Some(x.node))
    ensures Users(Next(s, Resolve(x, r))) == Met(Users(s), NeedOf(s, x), r)
  {
    if x.Find? {
      ResolvedJoin(s, x, r);
    } else if x.Leave? {
      ResolvedQuit(s, x, r);
    } else {
      ResolvedOther(s, x, r);
    }
  }

  /** One step of the protocol on the table: whatever the table answers is a step of the protocol, every
      pointer of the protocol stays the pointer the table holds, and no live proxy moves. */
  method Act(table: H.HashTable, s: State, x: Action, memory: H.Memory, ptr: Pointers)
    returns (x': Action, ptr': Pointers)
    requires Inv(s) && Addressed(s.threads) && Enabled(s, x) && Mirrors(table, s, ptr)
    modifies table, table.buckets, table.Proxies()
    ensures Resolves(x, x') && Mirrors(table, Next(s, x'), ptr')
    ensures table.buckets == old(table.buckets) || fresh(table.buckets)
    ensures fresh(table.Proxies() - old(table.Proxies()))
    ensures forall p :: p in ptr && !(x.Find? && p == x.node) ==> p in ptr' && ptr'[p] == ptr[p]
    ensures x.Find? ==> (x'.ok <==> !old(table.Fails(s.threads[x.t].addr, memory)))
  {
    assert Proper(s.threads[x.t]) && Good(s.backend, s.proxies, s.threads[x.t]);
    NeedFits(s, x);
    var r;
    r, ptr' := Serve(table, Users(s), NeedOf(s, x), memory, ptr);
    x' := Resolve(x, r);
    Resolved(s, x, r);
  }

  /** The run follows the schedule: a choice that is not enabled when its turn comes is passed over, and the
      outcomes of registrations are the table's. */
  ghost predicate Follows(s: State, schedule: seq<Action>, acts: seq<Action>)
    requires Runs(s, acts)
    decreases |schedule|
  {
    if schedule == [] then acts == []
    else if !Enabled(s, schedule[0]) then Follows(s, schedule[1..], acts)
    else
      && acts != [] && Resolves(schedule[0], acts[0])
      && Follows(Apply(s, acts[0]), schedule[1..], acts[1..])
  }

  /** The protocol driven by any schedule on the table, whatever allocations fail: what happens is a run of
      the protocol, and at its end the table holds for every object the very proxy, and the number
      of users, that the protocol has for it. */
  method Drive(table: H.HashTable, s: State, schedule: seq<Action>, memory: seq<H.Memory>, ptr: Pointers)
    returns (acts: seq<Action>, ptr': Pointers)
    requires Inv(s) && Addressed(s.threads) && Mirrors(table, s, ptr)
    requires |memory| == |schedule| && forall i :: 0 <= i < |schedule| ==> ProperAction(schedule[i])
    modifies table, table.buckets, table.Proxies()
    ensures Runs(s, acts) && Follows(s, schedule, acts)
    ensures Mirrors(table, Exec(s, acts), ptr')
    decreases |schedule|
  {
    if schedule == [] {
      return [], ptr;
    }
    if !Enabled(s, schedule[0]) {
      acts, ptr' := Drive(table, s, schedule[1..], memory[1..], ptr);
      return;
    }
    var x, ptr1 := Act(table, s, schedule[0], memory[0], ptr);
    ResolvesEnabled(s, schedule[0], x);
    Step(s, x);
    AddressedStep(s, x);
    var rest;
    rest, ptr' := Drive(table, Apply(s, x), schedule[1..], memory[1..], ptr1);
    acts := [x] + rest;
    assert acts[1..] == rest;
  }

  /** The start: an empty table under a protocol at rest. */
  lemma StartMirrors(table: H.HashTable, s: State)
    requires table.Valid() && table.contents == map[] && Init(s)
    ensures Inv(s) && Addressed(s.threads) && Mirrors(table, s, map[])
  {
  }

  /** From the start: an empty table with any hash, a protocol at rest, any schedule, any failures. What
      happens is a run of the protocol to a reachable state, which the table mirrors. */
  method RunOnTable(hash: Addr -> nat, s: State, schedule: seq<Action>, memory: seq<H.Memory>)
    returns (table: H.HashTable, acts: seq<Action>, ptr: Pointers)
    requires Init(s) && |memory| == |schedule|
    requires forall i :: 0 <= i < |schedule| ==> ProperAction(schedule[i])
    ensures Runs(s, acts) && Follows(s, schedule, acts)
    ensures Reachable(Exec(s, acts)) && Mirrors(table, Exec(s, acts), ptr)
  {
    table := new H.HashTable(hash);
    StartMirrors(table, s);
    acts, ptr := Drive(table, s, schedule, memory, map[]);
  }

  /** What that means for the threads: the pointer a registered waiter keeps, and the pointer a notifier has
      found, is the one the table holds for its object. */
  lemma PointersMirror(table: H.HashTable, s: State, ptr: Pointers, t: Tid)
    requires Inv(s) && Mirrors(table, s, ptr) && t in s.threads
    ensures var th := s.threads[t]; Use(th).Some? ==>
      th.addr in table.contents && th.item.value in ptr && table.contents[th.addr] == ptr[th.item.value]
    ensures var th := s.threads[t]; th.Notifier? && th.found.Some? ==>
      th.target in table.contents && th.found.value in ptr && table.contents[th.target] == ptr[th.found.value]
  {
    var th := s.threads[t];
    assert Good(s.backend, s.proxies, th);
    if Use(th).Some? {
      assert s.proxies[th.item.value].owner == th.addr;
      assert table.View()[th.addr] == Mapped(ptr, Users(s))[th.addr];
    } else if th.Notifier? && th.found.Some? {
      assert s.proxies[th.found.value].owner == th.target;
      assert table.View()[th.target] == Mapped(ptr, Users(s))[th.target];
    }
  }
}
