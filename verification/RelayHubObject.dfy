/** The hub object of one node: the dictionaries of RelayHub, updated in place. Each method is tied to the
    segment function of RelayRouting that the cluster theorems are about. */
module RelayHubObject {
  import opened Wrappers
  import opened RelayRegistry
  import opened RelayRouting

  class RelayHub {
    const registry: AsyncMemoryRegistry
    const transport: bool

    var installs: map<string, Conn>
    var pending: map<Slot, nat>
    var cross: map<string, nat>
    var tasks: map<nat, Task>

    constructor (registry: AsyncMemoryRegistry, transport: bool)
      ensures this.registry == registry && this.transport == transport && Model() == EMPTY_HUB
    {
      this.registry, this.transport := registry, transport;
      installs, pending, cross, tasks := map[], map[], map[], map[];
    }

    ghost function Model(): Hub
      reads this
    {
      Hub(installs, pending, cross, tasks)
    }

    /** Fails every unfinished future of a connection so that its callers do not hang. */
    method FailPendingOf(conn: Conn)
      requires PendingSound(Model())
      modifies this`tasks
      ensures Model() == FailPending(old(Model()), conn)
    {
      ghost var h := Model();
      var slots := set s | s in pending && s.conn == conn;
      ghost var done: set<nat> := {};
      while slots != {}
        invariant slots <= set s | s in pending && s.conn == conn
        invariant done == set s | s in pending && s.conn == conn && s !in slots :: pending[s]
        invariant tasks == map t | t in h.tasks :: if t in done then Settle(h.tasks[t], Unavailable) else h.tasks[t]
        decreases slots
      {
        var s :| s in slots;
        var t := pending[s];
        assert Running(h, t);
        if tasks[t].future.Waiting? {
          tasks := tasks[t := tasks[t].(future := Settled(Unavailable))];
        }
        slots := slots - {s};
        done := done + {t};
      }
      assert done == PendingOf(h, conn);
    }

    method Register(conn: Conn, now: Time)
      requires HubInv(Model())
      modifies this`installs, this`tasks, registry.store
      ensures Model() == Connect(old(Model()), conn)
      ensures registry.store.reg == AfterRegister(old(registry.store.reg), registry.node, conn.inst, now, registry.ttl)
      ensures HubInv(Model())
    {
      ConnectQuiet(Model(), conn);
      if conn.inst in installs && installs[conn.inst] != conn {
        FailPendingOf(installs[conn.inst]);
      }
      installs := installs[conn.inst := conn];
      registry.Register(conn.inst, now);
    }

    method Unregister(inst: string, conn: Conn)
      requires HubInv(Model())
      modifies this`installs, this`tasks, registry.store
      ensures Model() == Drop(old(Model()), inst, conn)
      ensures registry.store.reg == if HoldsConn(old(Model()), inst, conn)
                then AfterUnregister(old(registry.store.reg), registry.node, inst) else old(registry.store.reg)
      ensures HubInv(Model())
    {
      DropQuiet(Model(), inst, conn);
      if inst in installs && installs[inst] == conn {
        installs := installs - {inst};
        FailPendingOf(conn);
        registry.Unregister(inst);
      }
    }

    method ResolveResponse(inst: string, rid: string, frame: Frame)
      requires HubInv(Model())
      modifies this`tasks
      ensures Model() == Resolve(old(Model()), inst, rid, frame)
    {
      if inst !in installs {
        return;
      }
      var slot := Slot(installs[inst], rid);
      if slot in pending {
        var t := pending[slot];
        assert Running(Model(), t);
        if tasks[t].future.Waiting? {
          tasks := tasks[t := tasks[t].(future := Settled(Response(frame)))];
        }
      }
    }

    method RouteStart(tid: nat, inst: string, rid: string, oversize: bool, now: Time)
      requires tid !in tasks
      modifies this`pending, this`cross, this`tasks, registry.store
      ensures Model() == Begin(old(Model()), registry.node, OwnerOf(old(registry.store.reg), inst, now),
                               transport, tid, inst, rid, oversize)
      ensures registry.store.reg == if inst in installs then old(registry.store.reg)
                                    else AfterLookup(old(registry.store.reg), inst, now)
      ensures inst in installs ==> tasks[tid].role == Local(installs[inst]) && pending[Slot(installs[inst], rid)] == tid
      ensures var e := old(registry.store.reg);
              inst !in installs && inst in e && now <= e[inst].expires && e[inst].node != registry.node && transport && !oversize ==>
                tasks[tid].role == Cross(e[inst].node) && tasks[tid].phase.Sending? && cross[rid] == tid
      ensures old(HubInv(Model())) ==>
                (HubInv(Model()) <==> KeyIsFree(old(Model()), registry.node, OwnerOf(old(registry.store.reg), inst, now),
                                                transport, inst, rid, oversize))
    {
      if HubInv(Model()) {
        StartIsSoundExactly(Model(), registry.node, OwnerOf(registry.store.reg, inst, now), transport, tid, inst, rid, oversize);
      }
      hide HubInv;
      if inst in installs {
        pending := pending[Slot(installs[inst], rid) := tid];
        tasks := tasks[tid := Task(Local(installs[inst]), inst, rid, Waiting, Sending, 0)];
        return;
      }
      var owner := registry.LookupNode(inst, now);
      if owner.None? || owner.value == registry.node || !transport {
        tasks := tasks[tid := Task(Cross(""), inst, rid, Waiting, Ended(Unavailable), 0)];
      } else if oversize {
        tasks := tasks[tid := Task(Cross(""), inst, rid, Waiting, Ended(TooLarge), 0)];
      } else {
        cross := cross[rid := tid];
        tasks := tasks[tid := Task(Cross(owner.value), inst, rid, Waiting, Sending, 0)];
      }
    }

    /** The `finally` of both routing coroutines. */
    method RouteEnd(tid: nat, o: Outcome)
      requires HubInv(Model()) && Running(Model(), tid) && RightFrame(tasks[tid], o)
      modifies this`pending, this`cross, this`tasks
      ensures Model() == Finish(old(Model()), tid, o)
      ensures HubInv(Model())
    {
      FinishQuiet(Model(), tid, o);
      var k := tasks[tid];
      tasks := tasks[tid := k.(phase := Ended(o))];
      if k.role.Cross? {
        cross := cross - {k.rid};
      } else {
        pending := pending - {Slot(k.role.conn, k.rid)};
      }
    }

    method HandleRemoteResponse(cid: string, frame: Frame)
      requires HubInv(Model())
      modifies this`tasks
      ensures Model() == HandleReply(old(Model()), cid, frame)
    {
      if cid !in cross {
        return;
      }
      var t := cross[cid];
      assert Running(Model(), t);
      if tasks[t].future.Settled? {
        return;
      }
      var o := Response(frame);
      if frame.relayError == "request_timeout" {
        o := TimedOut;
      } else if frame.relayError != "" {
        o := Unavailable;
      }
      tasks := tasks[t := tasks[t].(future := Settled(o))];
    }

    /** One heartbeat iteration for a tunnel held here. */
    method HeartbeatVisit(inst: string, now: Time)
      requires HubInv(Model()) && inst in installs
      modifies this`installs, this`tasks, registry.store
      ensures registry.store.reg == AfterHeartbeat(old(registry.store.reg), registry.node, inst, now, registry.ttl)
      ensures Model() == if HeartbeatOwned(old(registry.store.reg), registry.node, inst, now) then old(Model())
                         else Drop(old(Model()), inst, old(installs)[inst])
      ensures Quiet(old(Model()), Model())
    {
      var conn := installs[inst];
      DropQuiet(Model(), inst, conn);
      SameEntriesQuiet(Model(), Model());
      var owned := registry.Heartbeat(inst, now);
      if !owned {
        installs := installs - {inst};
        FailPendingOf(conn);
      }
    }

    /** A whole heartbeat pass. Afterwards the hub holds exactly the tunnels it owns in the registry, each
        renewed; every other registry entry is as it was, and no coroutine ended. */
    method HeartbeatPass(now: Time)
      requires HubInv(Model())
      modifies this`installs, this`tasks, registry.store
      ensures installs == map i | i in old(installs)
                            && HeartbeatOwned(old(registry.store.reg), registry.node, i, now) :: old(installs)[i]
      ensures forall i | i in installs :: i in registry.store.reg
                && registry.store.reg[i] == Entry(registry.node, now + registry.ttl)
      ensures forall i | i !in installs :: (i in registry.store.reg <==> i in old(registry.store.reg))
                && (i in registry.store.reg ==> registry.store.reg[i] == old(registry.store.reg)[i])
      ensures Quiet(old(Model()), Model())
    {
      ghost var h, r := Model(), registry.store.reg;
      var todo := installs.Keys;
      SameEntriesQuiet(h, h);
      hide HubInv, Quiet, FailPending;
      while todo != {}
        invariant todo <= installs.Keys <= h.installs.Keys
        invariant forall i | i in h.installs :: i in installs <==> i in todo || HeartbeatOwned(r, registry.node, i, now)
        invariant forall i | i in installs :: installs[i] == h.installs[i]
        invariant forall i | i in todo || i !in installs :: (i in registry.store.reg <==> i in r)
                    && (i in r ==> registry.store.reg[i] == r[i])
        invariant forall i | i in installs && i !in todo :: i in registry.store.reg
                    && registry.store.reg[i] == Entry(registry.node, now + registry.ttl)
        invariant HubInv(Model()) && Quiet(h, Model())
        decreases todo
      {
        var i :| i in todo;
        ghost var before := Model();
        HeartbeatVisit(i, now);
        QuietChains(h, before, Model());
        todo := todo - {i};
      }
    }
  }
}
