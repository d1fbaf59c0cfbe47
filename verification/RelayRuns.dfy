/** What holds over whole runs of the relay cluster. */
module RelayRuns {
  import opened RelayRegistry
  import opened RelayRouting
  import opened RelayCluster
  import opened RelayGuards

  ghost predicate Initial(s: Cluster) {
    s.bus == multiset{} && s.releases == multiset{} && forall n | n in s.hubs :: s.hubs[n] == EMPTY_HUB
  }

  ghost predicate Legal(s: Cluster, run: seq<Step>)
    decreases |run|
  {
    run == [] || (Enabled(s, run[0]) && Legal(Next(s, run[0]), run[1..]))
  }

  ghost function After(s: Cluster, run: seq<Step>): Cluster
    requires Legal(s, run)
    decreases |run|
  {
    if run == [] then s else After(Next(s, run[0]), run[1..])
  }

  lemma KeptChains(s: Cluster, s1: Cluster, s2: Cluster)
    requires Kept(s, s1) && Kept(s1, s2)
    ensures Kept(s, s2)
  {
    forall n | n in s.hubs ensures TasksKept(s.hubs[n], s2.hubs[n]) {
      assert TasksKept(s.hubs[n], s1.hubs[n]) && TasksKept(s1.hubs[n], s2.hubs[n]);
    }
  }

  lemma KeptSelf(s: Cluster)
    ensures Kept(s, s)
  {
  }

  /** Every request of the run starts under an id that is not in flight anywhere. */
  ghost predicate FreshRun(s: Cluster, run: seq<Step>)
    requires Legal(s, run)
    decreases |run|
  {
    run == [] || (Fresh(s, run[0]) && FreshRun(Next(s, run[0]), run[1..]))
  }

  /** Every step of the run meets its guard. */
  ghost predicate Guarded(s: Cluster, run: seq<Step>)
    requires Legal(s, run)
    decreases |run|
  {
    run == [] || (Guard(s, run[0]) && Guarded(Next(s, run[0]), run[1..]))
  }

  /** Every step of the run passes the check of its node. */
  ghost predicate Checked(s: Cluster, run: seq<Step>)
    requires Legal(s, run)
    decreases |run|
  {
    run == [] || (NodeCheck(s, run[0]) && Checked(Next(s, run[0]), run[1..]))
  }

  /** Every hub is sound in every state of the run. */
  ghost predicate AlwaysSound(s: Cluster, run: seq<Step>)
    requires Legal(s, run)
    decreases |run|
  {
    HubsOk(s) && (run != [] ==> AlwaysSound(Next(s, run[0]), run[1..]))
  }

  /** In no state of the run is a request stranded or given a response that is not its own. */
  ghost predicate NeverHarmed(s: Cluster, run: seq<Step>)
    requires Legal(s, run)
    decreases |run|
  {
    && (forall n, t | n in s.hubs :: !Stranded(s.hubs[n], t) && !Misled(s.hubs[n], t))
    && (run != [] ==> NeverHarmed(Next(s, run[0]), run[1..]))
  }

  lemma SoundIsUnharmed(s: Cluster)
    requires HubsOk(s)
    ensures forall n, t | n in s.hubs :: !Stranded(s.hubs[n], t) && !Misled(s.hubs[n], t)
  {
    hide HubInv, Stranded, Misled;
    forall n, t | n in s.hubs ensures !Stranded(s.hubs[n], t) && !Misled(s.hubs[n], t) {
      SoundHasNone(s.hubs[n], t);
    }
  }

  /** For every run, ids shared or not: all hubs stay sound throughout if and only if every step meets its
      guard; and that is also exactly when no request is ever stranded or misled. */
  lemma {:induction false} SoundExactly(s: Cluster, run: seq<Step>)
    requires HubsOk(s) && Legal(s, run)
    ensures AlwaysSound(s, run) <==> Guarded(s, run)
    ensures NeverHarmed(s, run) <==> Guarded(s, run)
    decreases |run|
  {
    SoundIsUnharmed(s);
    hide HubsOk, Next, Enabled, Guard, Stranded, Misled;
    if run != [] {
      var s1 := Next(s, run[0]);
      GuardExactly(s, run[0]);
      if Guard(s, run[0]) {
        SoundExactly(s1, run[1..]);
      } else {
        var n, t := GuardMissed(s, run[0]);
        assert !NeverHarmed(s1, run[1..]);
      }
    }
  }

  /** The guards are what the nodes can check. */
  lemma {:induction false} CheckedExactly(s: Cluster, run: seq<Step>)
    requires HubsOk(s) && BusRight(s.bus) && Legal(s, run)
    ensures Checked(s, run) <==> Guarded(s, run)
    decreases |run|
  {
    hide HubsOk, BusRight, Next, Enabled, Guard, NodeCheck;
    if run != [] {
      NodeCanCheck(s, run[0]);
      if Guard(s, run[0]) {
        GuardKeeps(s, run[0]);
        BusStaysRight(s, run[0]);
        CheckedExactly(Next(s, run[0]), run[1..]);
      }
    }
  }

  /** So in any run from the start all hubs stay sound throughout, and no request is ever stranded or misled, if
      and only if every step passes the check of its node. */
  lemma NodesCanKeepSound(s: Cluster, run: seq<Step>)
    requires Initial(s) && Legal(s, run)
    ensures Checked(s, run) <==> AlwaysSound(s, run)
    ensures Checked(s, run) <==> NeverHarmed(s, run)
  {
    InitialInv(s);
    hide Legal, Checked, Guarded, AlwaysSound, NeverHarmed, TwoEnds, OneEnvelope;
    CheckedExactly(s, run);
    SoundExactly(s, run);
  }

  /** What a guarded run keeps. */
  lemma {:induction false} GuardedKeeps(s: Cluster, run: seq<Step>)
    requires HubsOk(s) && Legal(s, run) && Guarded(s, run)
    ensures HubsOk(After(s, run)) && Kept(s, After(s, run))
    decreases |run|
  {
    hide HubsOk, Kept, Next, Enabled, Guard;
    if run == [] {
      KeptSelf(s);
    } else {
      GuardKeeps(s, run[0]);
      GuardedKeeps(Next(s, run[0]), run[1..]);
      KeptChains(s, Next(s, run[0]), After(s, run));
    }
  }

  /** Distinct ids are enough: a run in which every request starts under a fresh id is guarded. */
  lemma {:induction false} RunKeeps(s: Cluster, run: seq<Step>)
    requires Inv(s) && Legal(s, run) && FreshRun(s, run)
    ensures Inv(After(s, run)) && Guarded(s, run)
    decreases |run|
  {
    hide Inv, Kept, Next, Enabled, Guard, Fresh;
    if run != [] {
      StepKeeps(s, run[0]);
      FreshIsGuarded(s, run[0]);
      RunKeeps(Next(s, run[0]), run[1..]);
    }
  }

  lemma FreshRunsAreGuarded(s: Cluster, run: seq<Step>)
    requires Initial(s) && Legal(s, run) && FreshRun(s, run)
    ensures Guarded(s, run)
  {
    InitialInv(s);
    RunKeeps(s, run);
  }

  lemma InitialInv(s: Cluster)
    requires Initial(s)
    ensures Inv(s)
  {
    assert Alive(s.hubs) == map[] by {
      forall x: Where ensures x !in Alive(s.hubs) {
        assert x == Where(x.node, x.tid);
      }
    }
  }

  /** What the invariant says of one coroutine. */
  lemma TaskIsGood(s: Cluster, n: string, t: nat)
    requires HubsOk(s) && n in s.hubs && t in s.hubs[n].tasks
    ensures GoodTask(s.hubs[n].tasks[t])
  {
    hide PendingSound, CrossSound, AllRegistered, GoodTask;
  }

  /** In every guarded run a request that ended keeps its one outcome for ever, and that outcome is one error or the
      response that bears its own id and was sent by its own installation's tunnel; a settled future is never
      settled again. */
  lemma EndsOnce(s: Cluster, run: seq<Step>, more: seq<Step>, n: string, t: nat)
    requires Initial(s) && Legal(s, run) && Legal(After(s, run), more)
    requires Guarded(s, run) && Guarded(After(s, run), more)
    requires n in After(s, run).hubs && t in After(s, run).hubs[n].tasks
    ensures n in After(After(s, run), more).hubs && t in After(After(s, run), more).hubs[n].tasks
    ensures var k, k' := After(s, run).hubs[n].tasks[t], After(After(s, run), more).hubs[n].tasks[t];
            && (k.phase.Ended? ==> k'.phase == k.phase && RightFrame(k, k.phase.outcome))
            && (k.future.Settled? ==> k'.future == k.future && RightFrame(k, k.future.outcome))
            && k'.rid == k.rid
  {
    hide HubsOk, After, Legal, Guarded;
    InitialInv(s);
    GuardedKeeps(s, run);
    GuardedKeeps(After(s, run), more);
    TaskIsGood(After(s, run), n, t);
    assert TaskKept(After(s, run).hubs[n].tasks[t], After(After(s, run), more).hubs[n].tasks[t]);
  }

  /** While ids are fresh a request is published to another node at most once, and never by the leg that serves
      it there; at any moment at most one envelope carries its id. */
  lemma CrossesAtMostOnce(s: Cluster, run: seq<Step>, n: string, t: nat)
    requires Initial(s) && Legal(s, run) && FreshRun(s, run)
    requires n in After(s, run).hubs && t in After(s, run).hubs[n].tasks
    ensures var k := After(s, run).hubs[n].tasks[t];
            && k.published <= 1
            && (k.role.Remote? || k.role.Local? ==> k.published == 0)
    ensures forall e, f | e in After(s, run).bus && f in After(s, run).bus && e.cid == f.cid ::
              e == f && After(s, run).bus[e] == 1
  {
    hide HubsOk, After, Legal, TwoEnds;
    InitialInv(s);
    RunKeeps(s, run);
    TaskIsGood(After(s, run), n, t);
  }

  lemma SocketsEndNothing(s: Cluster, a: Step, n: string, t: nat)
    requires Enabled(s, a) && RunningAt(s, n, t) && TaskAt(s, n, t).phase.Awaiting?
    requires a.Open? || a.Close? || a.TunnelAnswers?
    ensures RunningAt(Next(s, a), n, t)
  {
  }

  lemma BeatsEndNothing(s: Cluster, a: Step, n: string, t: nat)
    requires Enabled(s, a) && RunningAt(s, n, t) && TaskAt(s, n, t).phase.Awaiting? && a.Visit?
    ensures RunningAt(Next(s, a), n, t)
  {
  }

  lemma DeliveriesEndNothing(s: Cluster, a: Step, n: string, t: nat)
    requires Enabled(s, a) && RunningAt(s, n, t) && TaskAt(s, n, t).phase.Awaiting? && a.Deliver?
    ensures RunningAt(Next(s, a), n, t)
  {
  }

  lemma OtherCoroutinesEndNothing(s: Cluster, a: Step, n: string, t: nat)
    requires Enabled(s, a) && RunningAt(s, n, t) && TaskAt(s, n, t).phase.Awaiting?
    requires a.Start? || a.FrameSent? || a.FrameFailed? || a.Published? || a.PublishFailed?
    ensures RunningAt(Next(s, a), n, t)
  {
  }

  /** Nothing but its own deadline or its own settled future ends it, whatever the rest of the cluster does. */
  lemma OnlyItsOwnEndEndsIt(s: Cluster, a: Step, n: string, t: nat)
    requires Enabled(s, a) && RunningAt(s, n, t) && TaskAt(s, n, t).phase.Awaiting?
    ensures RunningAt(Next(s, a), n, t) <==> !((a.Expire? || a.Resume?) && a.n == n && a.tid == t)
  {
    if a.Open? || a.Close? || a.TunnelAnswers? {
      SocketsEndNothing(s, a, n, t);
    } else if a.Visit? {
      BeatsEndNothing(s, a, n, t);
    } else if a.Deliver? {
      DeliveriesEndNothing(s, a, n, t);
    } else if !(a.Expire? || a.Resume? || a.Tick? || a.Lose? || a.LetGo?) {
      OtherCoroutinesEndNothing(s, a, n, t);
    }
  }

  /** No correlation entry outlives its request, in any state that a guarded run reaches. */
  lemma NoEntryOutlivesItsRequest(s: Cluster, run: seq<Step>, n: string)
    requires Initial(s) && Legal(s, run) && Guarded(s, run) && n in After(s, run).hubs
    ensures var h := After(s, run).hubs[n];
            && (forall sl | sl in h.pending :: Running(h, h.pending[sl]) && h.tasks[h.pending[sl]].rid == sl.rid)
            && (forall c | c in h.cross :: Running(h, h.cross[c]) && h.tasks[h.cross[c]].rid == c)
            && ((forall t | t in h.tasks :: !Running(h, t)) ==> h.pending == map[] && h.cross == map[])
  {
    InitialInv(s);
    GuardedKeeps(s, run);
    var h := After(s, run).hubs[n];
    if forall t | t in h.tasks :: !Running(h, t) {
      NothingLeaks(h);
    }
  }

  // ---- Ownership --------------------------------------------------------------------------------

  predicate OwnedBy(s: Cluster, inst: string, n: string) {
    inst in s.registry && s.registry[inst].node == n && Live(s.registry[inst], s.now)
  }

  /** The three ways to lose ownership: another node's register, the registry's part of the owner's own
      unregister, expiry. */
  predicate Disturbs(s: Cluster, a: Step, inst: string, n: string) {
    || (a.Open? && a.conn.inst == inst && a.n != n)
    || (a.LetGo? && a.r == Release(n, inst))
    || (a.Tick? && inst in s.registry && a.to > s.registry[inst].expires)
  }

  /** What a step does to the tunnels of node `m`. */
  ghost function InstallsStep(s: Cluster, a: Step, m: string): map<string, Conn>
    requires Enabled(s, a) && m in s.hubs
  {
    var held := s.hubs[m].installs;
    match a
    case Open(n, conn) => if n == m then held[conn.inst := conn] else held
    case Close(n, inst, conn) => if n == m && HoldsConn(s.hubs[m], inst, conn) then held - {inst} else held
    case Visit(n, inst) => if n == m && !HeartbeatOwned(s.registry, n, inst, s.now) then held - {inst} else held
    case _ => held
  }

  lemma InstallsAfter(s: Cluster, a: Step, m: string)
    requires Enabled(s, a) && m in s.hubs
    ensures m in Next(s, a).hubs && Next(s, a).hubs[m].installs == InstallsStep(s, a, m)
  {
    hide RegistryStep, BusStep, ReleasesStep, FailPending;
  }

  lemma SameNodes(s: Cluster, a: Step)
    requires Enabled(s, a)
    ensures forall m :: m in Next(s, a).hubs <==> m in s.hubs
  {
    hide RegistryStep, BusStep, ReleasesStep, Connect, Drop, Begin, Sent, Finish, Resolve, HandleReply, OpenOnConn;
  }

  /** In every interleaving a live owner stays the live owner exactly unless one of the three happens. */
  lemma OwnerStable(s: Cluster, a: Step, inst: string, n: string)
    requires Enabled(s, a) && OwnedBy(s, inst, n) && s.ttl >= 0.0
    ensures OwnedBy(Next(s, a), inst, n) <==> !Disturbs(s, a, inst, n)
    ensures Next(s, a).ttl == s.ttl
  {
    hide HubsStep, BusStep, ReleasesStep;
  }

  ghost predicate Undisturbed(s: Cluster, run: seq<Step>, inst: string, n: string)
    requires Legal(s, run)
    decreases |run|
  {
    run == [] || (!Disturbs(s, run[0], inst, n) && Undisturbed(Next(s, run[0]), run[1..], inst, n))
  }

  /** Node `m` ran a heartbeat pass: it held no tunnel for `inst` at that moment, or visited it. */
  ghost predicate Beat(s: Cluster, run: seq<Step>, m: string, inst: string)
    requires Legal(s, run)
    decreases |run|
  {
    || (m in s.hubs && inst !in s.hubs[m].installs)
    || (run != [] && (run[0] == Visit(m, inst) || Beat(Next(s, run[0]), run[1..], m, inst)))
  }

  lemma StaysDropped(s: Cluster, a: Step, inst: string, n: string, m: string)
    requires Enabled(s, a) && OwnedBy(s, inst, n) && !Disturbs(s, a, inst, n)
    requires m in s.hubs && m != n && (inst !in s.hubs[m].installs || a == Visit(m, inst))
    ensures m in Next(s, a).hubs && inst !in Next(s, a).hubs[m].installs
  {
    InstallsAfter(s, a, m);
    hide Next, Enabled;
  }

  /** After one heartbeat by every node, with no disturbance in between, only the owner still holds a
      local tunnel for the installation, and it still owns the entry. */
  lemma {:induction false} OnlyOwnerKeepsTunnel(s: Cluster, run: seq<Step>, inst: string, n: string)
    requires Legal(s, run) && OwnedBy(s, inst, n) && s.ttl >= 0.0 && Undisturbed(s, run, inst, n)
    requires forall m | m in s.hubs && m != n :: Beat(s, run, m, inst)
    ensures OwnedBy(After(s, run), inst, n)
    ensures forall m | m in After(s, run).hubs && m != n :: inst !in After(s, run).hubs[m].installs
    decreases |run|
  {
    if run == [] {
      assert forall m | m in s.hubs && m != n :: Beat(s, run, m, inst);
    } else {
      var s1 := Next(s, run[0]);
      OwnerStable(s, run[0], inst, n);
      SameNodes(s, run[0]);
      hide Next, Enabled, OwnedBy, Disturbs;
      forall m | m in s1.hubs && m != n ensures Beat(s1, run[1..], m, inst) {
        assert Beat(s, run, m, inst);
        if inst !in s.hubs[m].installs || run[0] == Visit(m, inst) {
          StaysDropped(s, run[0], inst, n, m);
        }
      }
      OnlyOwnerKeepsTunnel(s1, run[1..], inst, n);
    }
  }

  /** With a registry that answers at once the two halves of an unregister are one step. */
  lemma UnregisterAtOnce(s: Cluster, n: string, inst: string, conn: Conn)
    requires n in s.hubs && HoldsConn(s.hubs[n], inst, conn)
    ensures var half := Next(s, Close(n, inst, conn));
            Enabled(half, LetGo(Release(n, inst))) && Next(half, LetGo(Release(n, inst))) ==
              s.(hubs := s.hubs[n := Drop(s.hubs[n], inst, conn)], registry := AfterUnregister(s.registry, n, inst))
  {
    assert s.releases + multiset{Release(n, inst)} - multiset{Release(n, inst)} == s.releases;
  }

  /** With one that does not, a tunnel that reconnects to the same node in between loses its fresh entry: the
      node holds it, no other node can find it, until this node's next heartbeat claims the entry again. */
  lemma ReconnectLosesEntry(s: Cluster, n: string, gone: Conn, newer: Conn)
    requires n in s.hubs && HoldsConn(s.hubs[n], gone.inst, gone) && newer.inst == gone.inst && s.ttl >= 0.0
    ensures var half := Next(s, Close(n, gone.inst, gone));
            var back := Next(half, Open(n, newer));
            && OwnedBy(back, gone.inst, n) && Enabled(back, LetGo(Release(n, gone.inst)))
            && var after := Next(back, LetGo(Release(n, gone.inst)));
               && HoldsConn(after.hubs[n], gone.inst, newer) && OwnerOf(after.registry, gone.inst, after.now).None?
               && OwnedBy(Next(after, Visit(n, gone.inst)), gone.inst, n)
               && HoldsConn(Next(after, Visit(n, gone.inst)).hubs[n], gone.inst, newer)
  {
  }
}
