/** The shared ownership registry of the Secure Relay: installation id -> owning node, with a time to
    live. The in-memory registry drops a lapsed entry only when it stumbles on it; Valkey removes a key
    the moment it lapses and runs its two compare-and-set scripts. Both are given as functions on the
    table, and every answer the two give is shown to be the same. */
module RelayRegistry {
  import opened Wrappers

  type Time = real

  datatype Entry = Entry(node: string, expires: Time)

  type Table = map<string, Entry>

  predicate Live(e: Entry, now: Time) {
    now <= e.expires
  }

  // ---- AsyncMemoryRegistry, as functions on the table ------------------------------------------

  function AfterRegister(t: Table, node: string, inst: string, now: Time, ttl: Time): Table {
    t[inst := Entry(node, now + ttl)]
  }

  predicate HeartbeatOwned(t: Table, node: string, inst: string, now: Time) {
    !(inst in t && t[inst].node != node && Live(t[inst], now))
  }

  function AfterHeartbeat(t: Table, node: string, inst: string, now: Time, ttl: Time): Table {
    if HeartbeatOwned(t, node, inst, now) then t[inst := Entry(node, now + ttl)] else t
  }

  function AfterUnregister(t: Table, node: string, inst: string): Table {
    if inst in t && t[inst].node == node then t - {inst} else t
  }

  function OwnerOf(t: Table, inst: string, now: Time): Option<string> {
    if inst in t && Live(t[inst], now) then Some(t[inst].node) else None
  }

  function AfterLookup(t: Table, inst: string, now: Time): Table {
    if inst in t && !Live(t[inst], now) then t - {inst} else t
  }

  // ---- ValkeyRegistry: keys vanish when they lapse ---------------------------------------------

  function Sweep(t: Table, now: Time): Table {
    map i | i in t && Live(t[i], now) :: t[i]
  }

  /** LUA heartbeat script: claims when the key is absent or already ours. */
  predicate ScriptOwned(t: Table, node: string, inst: string) {
    inst !in t || t[inst].node == node
  }

  // ---- Operation sequences ---------------------------------------------------------------------

  datatype Op =
    | DoRegister(node: string, inst: string)
    | DoHeartbeat(node: string, inst: string)
    | DoUnregister(node: string, inst: string)
    | DoLookup(inst: string)

  datatype Timed = Timed(op: Op, at: Time)

  datatype Answer = Silent | Owned(ok: bool) | Found(node: Option<string>)

  function LazyStep(t: Table, o: Timed, ttl: Time): (Table, Answer) {
    match o.op
    case DoRegister(n, i) => (AfterRegister(t, n, i, o.at, ttl), Silent)
    case DoHeartbeat(n, i) => (AfterHeartbeat(t, n, i, o.at, ttl), Owned(HeartbeatOwned(t, n, i, o.at)))
    case DoUnregister(n, i) => (AfterUnregister(t, n, i), Silent)
    case DoLookup(i) => (AfterLookup(t, i, o.at), Found(OwnerOf(t, i, o.at)))
  }

  function EagerStep(t0: Table, o: Timed, ttl: Time): (Table, Answer) {
    var t := Sweep(t0, o.at);
    match o.op
    case DoRegister(n, i) => (t[i := Entry(n, o.at + ttl)], Silent)
    case DoHeartbeat(n, i) =>
      if ScriptOwned(t, n, i) then (t[i := Entry(n, o.at + ttl)], Owned(true)) else (t, Owned(false))
    case DoUnregister(n, i) => (if i in t && t[i].node == n then t - {i} else t, Silent)
    case DoLookup(i) => (t, Found(if i in t then Some(t[i].node) else None))
  }

  function LazyAnswers(t: Table, ops: seq<Timed>, ttl: Time): seq<Answer>
    decreases |ops|
  {
    if ops == [] then [] else
      var (t', a) := LazyStep(t, ops[0], ttl);
      [a] + LazyAnswers(t', ops[1..], ttl)
  }

  function EagerAnswers(t: Table, ops: seq<Timed>, ttl: Time): seq<Answer>
    decreases |ops|
  {
    if ops == [] then [] else
      var (t', a) := EagerStep(t, ops[0], ttl);
      [a] + EagerAnswers(t', ops[1..], ttl)
  }

  ghost predicate NonDecreasing(ops: seq<Timed>) {
    forall i, j | 0 <= i < j < |ops| :: ops[i].at <= ops[j].at
  }

  /** One operation keeps the two tables in agreement about what is live, and answers alike. */
  lemma StepsAgree(lazy: Table, eager: Table, o: Timed, ttl: Time)
    requires Sweep(lazy, o.at) == Sweep(eager, o.at)
    ensures LazyStep(lazy, o, ttl).1 == EagerStep(eager, o, ttl).1
    ensures Sweep(LazyStep(lazy, o, ttl).0, o.at) == Sweep(EagerStep(eager, o, ttl).0, o.at)
  {
  }

  lemma SweepLater(s: Table, t: Table, a: Time, b: Time)
    requires a <= b && Sweep(s, a) == Sweep(t, a)
    ensures Sweep(s, b) == Sweep(t, b)
  {
    forall x: Table ensures Sweep(x, b) == Sweep(Sweep(x, a), b) {
      assert Sweep(x, b) == Sweep(Sweep(x, a), b);
    }
  }

  /** Expiring lazily gives, for any operation sequence at non-decreasing times, exactly the heartbeat
      and lookup answers of a registry that removes each entry the instant it lapses. */
  lemma {:induction false} LazyRefinesEager(lazy: Table, eager: Table, ops: seq<Timed>, ttl: Time)
    requires NonDecreasing(ops)
    requires ops != [] ==> Sweep(lazy, ops[0].at) == Sweep(eager, ops[0].at)
    ensures LazyAnswers(lazy, ops, ttl) == EagerAnswers(eager, ops, ttl)
    decreases |ops|
  {
    if ops == [] {
    } else {
      StepsAgree(lazy, eager, ops[0], ttl);
      var l, e := LazyStep(lazy, ops[0], ttl).0, EagerStep(eager, ops[0], ttl).0;
      if |ops| > 1 {
        SweepLater(l, e, ops[0].at, ops[1].at);
      }
      LazyRefinesEager(l, e, ops[1..], ttl);
    }
  }

  // ---- What the answers mean -------------------------------------------------------------------

  /** The operation makes `node` the owner of the installation: a tunnel opened there, or its heartbeat was granted. */
  ghost predicate Claims(t: Table, o: Timed, node: string, inst: string) {
    match o.op
    case DoRegister(n, i) => n == node && i == inst
    case DoHeartbeat(n, i) =>
      n == node && i == inst && !(inst in t && t[inst].node != node && o.at <= t[inst].expires)
    case _ => false
  }

  /** The operation ends the ownership of `node`: another one claims it, or its own tunnel is given up. */
  ghost predicate Ends(t: Table, o: Timed, node: string, inst: string) {
    || (exists m :: m != node && Claims(t, o, m, inst))
    || o.op == DoUnregister(node, inst)
  }

  ghost function AfterOps(t: Table, ops: seq<Timed>, ttl: Time): Table
    decreases |ops|
  {
    if ops == [] then t else AfterOps(LazyStep(t, ops[0], ttl).0, ops[1..], ttl)
  }

  /** No operation of the sequence claims the installation for anybody or ends `node`'s ownership. */
  ghost predicate Unclaimed(t: Table, ops: seq<Timed>, ttl: Time, node: string, inst: string)
    decreases |ops|
  {
    ops == [] || (!Ends(t, ops[0], node, inst) && !Claims(t, ops[0], node, inst)
                  && Unclaimed(LazyStep(t, ops[0], ttl).0, ops[1..], ttl, node, inst))
  }

  lemma StaysOwned(t: Table, o: Timed, ttl: Time, node: string, inst: string, due: Time)
    requires (inst in t && t[inst] == Entry(node, due)) || (inst !in t && due < o.at)
    requires !Ends(t, o, node, inst) && !Claims(t, o, node, inst)
    ensures var t' := LazyStep(t, o, ttl).0; (inst in t' && t'[inst] == Entry(node, due)) || (inst !in t' && due < o.at)
  {
    if o.op.DoHeartbeat? && o.op.inst == inst && o.op.node != node && HeartbeatOwned(t, o.op.node, inst, o.at) {
      assert Claims(t, o, o.op.node, inst);
    }
    if o.op.DoRegister? && o.op.inst == inst && o.op.node != node {
      assert Claims(t, o, o.op.node, inst);
    }
  }

  lemma {:induction false} OwnedUntilDue(t: Table, ops: seq<Timed>, ttl: Time, node: string, inst: string, due: Time)
    requires NonDecreasing(ops) && Unclaimed(t, ops, ttl, node, inst)
    requires (inst in t && t[inst] == Entry(node, due)) || (inst !in t && ops != [] && due < ops[0].at)
    ensures var t' := AfterOps(t, ops, ttl);
            (inst in t' && t'[inst] == Entry(node, due)) || (inst !in t' && ops != [] && due < ops[|ops| - 1].at)
    decreases |ops|
  {
    if ops != [] {
      StaysOwned(t, ops[0], ttl, node, inst, due);
      var t1 := LazyStep(t, ops[0], ttl).0;
      hide LazyStep, Ends, Claims;
      if |ops| > 1 {
        OwnedUntilDue(t1, ops[1..], ttl, node, inst, due);
      }
    }
  }

  /** A node that claims an installation is found by every look-up from then until its lifetime is over, and by none
      after that, whatever happens to other installations and however often others try in vain. */
  lemma FoundExactly(t: Table, o: Timed, ops: seq<Timed>, ttl: Time, node: string, inst: string, now: Time)
    requires ttl >= 0.0 && Claims(t, o, node, inst)
    requires NonDecreasing(ops) && Unclaimed(LazyStep(t, o, ttl).0, ops, ttl, node, inst)
    requires o.at <= now && forall i | 0 <= i < |ops| :: o.at <= ops[i].at <= now
    ensures var t1 := AfterOps(LazyStep(t, o, ttl).0, ops, ttl);
            && (LazyStep(t1, Timed(DoLookup(inst), now), ttl).1 == Found(Some(node)) <==> now <= o.at + ttl)
            && (LazyStep(t1, Timed(DoLookup(inst), now), ttl).1 == Found(None) <==> now > o.at + ttl)
  {
    var t1 := LazyStep(t, o, ttl).0;
    assert inst in t1 && t1[inst] == Entry(node, o.at + ttl);
    if ops == [] {
    } else {
      OwnedUntilDue(t1, ops, ttl, node, inst, o.at + ttl);
    }
  }

  /** A heartbeat is granted exactly if no other node's lifetime still runs, and a claim is what it then makes. */
  lemma GrantedExactly(t: Table, node: string, inst: string, now: Time, ttl: Time)
    ensures LazyStep(t, Timed(DoHeartbeat(node, inst), now), ttl).1 == Owned(true) <==>
            Claims(t, Timed(DoHeartbeat(node, inst), now), node, inst)
  {
  }

  /** Giving up a tunnel frees the installation if the node owned it, and changes nothing for another owner. */
  lemma GivenUp(t: Table, node: string, inst: string, now: Time, ttl: Time)
    ensures var t' := LazyStep(t, Timed(DoUnregister(node, inst), now), ttl).0;
            if inst in t && t[inst].node == node then t' == t - {inst} else t' == t
  {
  }

  // ---- The registry objects --------------------------------------------------------------------

  /** The dictionary that the registries of one process share. */
  class Keyspace {
    var reg: Table

    constructor ()
      ensures reg == map[]
    {
      reg := map[];
    }
  }

  class AsyncMemoryRegistry {
    const node: string
    const ttl: Time
    const store: Keyspace

    constructor (node: string, ttl: Time, store: Keyspace)
      ensures this.node == node && this.ttl == ttl && this.store == store
    {
      this.node, this.ttl, this.store := node, ttl, store;
    }

    method Register(inst: string, now: Time)
      modifies store
      ensures store.reg == AfterRegister(old(store.reg), node, inst, now, ttl)
    {
      store.reg := store.reg[inst := Entry(node, now + ttl)];
    }

    method Heartbeat(inst: string, now: Time) returns (owned: bool)
      modifies store
      ensures owned == HeartbeatOwned(old(store.reg), node, inst, now)
      ensures store.reg == AfterHeartbeat(old(store.reg), node, inst, now, ttl)
    {
      if inst in store.reg {
        var cur := store.reg[inst];
        if cur.node != node && cur.expires >= now {
          return false;
        }
      }
      store.reg := store.reg[inst := Entry(node, now + ttl)];
      return true;
    }

    method Unregister(inst: string)
      modifies store
      ensures store.reg == AfterUnregister(old(store.reg), node, inst)
    {
      if inst in store.reg && store.reg[inst].node == node {
        store.reg := store.reg - {inst};
      }
    }

    method LookupNode(inst: string, now: Time) returns (owner: Option<string>)
      modifies store
      ensures owner == OwnerOf(old(store.reg), inst, now)
      ensures store.reg == AfterLookup(old(store.reg), inst, now)
    {
      if inst !in store.reg {
        return None;
      }
      var cur := store.reg[inst];
      if cur.expires < now {
        store.reg := store.reg - {inst};
        return None;
      }
      return Some(cur.node);
    }
  }
}
