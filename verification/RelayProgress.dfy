/** Every request ends. A number counts what is still to be done anywhere in the cluster; the steps that serve
    requests lower it, and nothing but a new request raises it; and each wait has its deadline. */
module RelayProgress {
  import opened RelayRegistry
  import opened Wrappers
  import opened RelayRouting
  import opened RelayCluster
  import opened RelayGuards
  import opened RelayRuns

  // ---- Sums over finite maps -----------------------------------------------------------------------

  ghost function Sum<K(!new)>(m: map<K, nat>): nat {
    if m == map[] then 0 else
      var k :| k in m;
      m[k] + Sum(m - {k})
  }

  lemma {:induction false} SumSplit<K(!new)>(m: map<K, nat>, k: K)
    requires k in m
    ensures Sum(m) == m[k] + Sum(m - {k})
    decreases |m|
  {
    var j :| j in m && Sum(m) == m[j] + Sum(m - {j});
    if j != k {
      SumSplit(m - {j}, k);
      SumSplit(m - {k}, j);
      assert m - {j} - {k} == m - {k} - {j};
    }
  }

  lemma SumSet<K(!new)>(m: map<K, nat>, k: K, v: nat)
    ensures Sum(m[k := v]) == v + Sum(m - {k})
    ensures k in m ==> Sum(m) == m[k] + Sum(m - {k})
    ensures k !in m ==> m - {k} == m
  {
    SumSplit(m[k := v], k);
    assert m[k := v] - {k} == m - {k};
    if k in m {
      SumSplit(m, k);
    }
  }

  lemma {:induction false} SumZero<K(!new)>(m: map<K, nat>)
    ensures Sum(m) == 0 <==> forall k | k in m :: m[k] == 0
    decreases |m|
  {
    if m != map[] {
      var j :| j in m && Sum(m) == m[j] + Sum(m - {j});
      SumZero(m - {j});
      assert forall k | k in m :: k == j || k in m - {j};
    }
  }

  // ---- What is still to be done --------------------------------------------------------------------

  /** A forwarded request costs its publish, its envelope, the leg it opens and the reply; each part is worth
      more than all that comes after it. */
  function TaskWork(k: Task): nat {
    if k.phase.Ended? then 0
    else match k.role
      case Cross(_) => if k.phase.Sending? then 6 else 1
      case Remote(_, _) => if k.phase.Sending? then 3 else 2
      case Local(_) => if k.phase.Sending? then 2 else 1
  }

  function EnvelopeWork(e: Envelope): nat {
    if e.Request? then 4 else 1
  }

  ghost function Works(live: map<Where, Task>): map<Where, nat> {
    map x | x in live :: TaskWork(live[x])
  }

  ghost function Carried(bus: multiset<Envelope>): map<Envelope, nat> {
    map e | e in bus :: bus[e] * EnvelopeWork(e)
  }

  ghost function BusWork(bus: multiset<Envelope>): nat {
    Sum(Carried(bus))
  }

  ghost function Work(s: Cluster): nat {
    Sum(Works(Alive(s.hubs))) + BusWork(s.bus)
  }

  lemma BusAdds(bus: multiset<Envelope>, e: Envelope)
    ensures BusWork(bus + multiset{e}) == BusWork(bus) + EnvelopeWork(e)
  {
    var more := bus + multiset{e};
    SumSet(Carried(bus), e, more[e] * EnvelopeWork(e));
    assert Carried(more) == Carried(bus)[e := more[e] * EnvelopeWork(e)];
    if e !in bus {
      assert bus[e] == 0;
    }
  }

  lemma BusDrops(bus: multiset<Envelope>, e: Envelope)
    requires e in bus
    ensures BusWork(bus - multiset{e}) + EnvelopeWork(e) == BusWork(bus)
  {
    BusAdds(bus - multiset{e}, e);
    assert bus - multiset{e} + multiset{e} == bus;
  }

  /** One coroutine changes, ends or appears. */
  lemma WorkAt(live: map<Where, Task>, live': map<Where, Task>, w: Where, before: nat, after: nat)
    requires before == if w in live then TaskWork(live[w]) else 0
    requires after == if w in live' then TaskWork(live'[w]) else 0
    requires live' - {w} == live - {w}
    ensures Sum(Works(live')) + before == Sum(Works(live)) + after
  {
    assert Works(live) - {w} == Works(live - {w}) == Works(live' - {w}) == Works(live') - {w};
    SumSet(Works(live), w, 0);
    SumSet(Works(live'), w, 0);
  }

  /** Futures and sockets do not count. */
  lemma SameWork(hubs: map<string, Hub>, n: string, h': Hub)
    requires n in hubs && NoNewTasks(hubs[n], h')
    requires forall t | t in h'.tasks :: h'.tasks[t].role == hubs[n].tasks[t].role && h'.tasks[t].phase == hubs[n].tasks[t].phase
    ensures Works(Alive(hubs[n := h'])) == Works(Alive(hubs))
  {
    hide Alive;
    var live, live' := Alive(hubs), Alive(hubs[n := h']);
    forall x ensures (x in live <==> x in live') && (x in live ==> TaskWork(live[x]) == TaskWork(live'[x])) {
      assert x == Where(x.node, x.tid);
    }
  }

  // ---- What each step does to it --------------------------------------------------------------------

  predicate Serves(a: Step) {
    || a.FrameSent? || a.FrameFailed? || a.Published? || a.PublishFailed? || a.Expire? || a.Resume?
    || a.Deliver? || a.Lose?
  }

  lemma LegReplyWork(bus: multiset<Envelope>, n: string, k: Task, o: Outcome, oversize: bool, lost: bool)
    ensures BusWork(bus + LegReply(n, k, o, oversize, lost)) <= BusWork(bus) + if k.role.Remote? then 1 else 0
  {
    var more := LegReply(n, k, o, oversize, lost);
    if more == multiset{} {
      assert bus + more == bus;
    } else {
      var e: Envelope :| more == multiset{e} && e.Reply?;
      BusAdds(bus, e);
    }
  }

  lemma CoroutineChanges(s: Cluster, n: string, tid: nat, h': Hub)
    requires RunningAt(s, n, tid) && OnlyTouches(s.hubs[n], h', {tid})
    ensures Sum(Works(Alive(s.hubs[n := h']))) + TaskWork(TaskAt(s, n, tid)) ==
            Sum(Works(Alive(s.hubs))) + TaskWork(h'.tasks[tid])
  {
    var live, live', w := Alive(s.hubs), Alive(s.hubs[n := h']), Where(n, tid);
    OneChanges(s.hubs, n, h', tid);
    assert live[w] == TaskAt(s, n, tid);
    assert live' - {w} == live - {w};
    hide Alive, OnlyTouches;
    WorkAt(live, live', w, TaskWork(live[w]), TaskWork(h'.tasks[tid]));
  }

  lemma FinishTouches(h: Hub, tid: nat, o: Outcome)
    requires Running(h, tid)
    ensures OnlyTouches(h, Finish(h, tid, o), {tid}) && TaskWork(Finish(h, tid, o).tasks[tid]) == 0
  {
  }

  lemma EndLowers(s: Cluster, s': Cluster, n: string, tid: nat, o: Outcome, gained: nat)
    requires RunningAt(s, n, tid) && s'.hubs == s.hubs[n := Finish(s.hubs[n], tid, o)]
    requires BusWork(s'.bus) <= BusWork(s.bus) + gained && gained < TaskWork(TaskAt(s, n, tid))
    ensures Work(s') < Work(s)
  {
    FinishTouches(s.hubs[n], tid, o);
    hide Finish, BusWork, Works, Sum, Alive, OnlyTouches, TaskWork;
    CoroutineChanges(s, n, tid, Finish(s.hubs[n], tid, o));
  }

  lemma FailureLowers(s: Cluster, a: Step)
    requires Enabled(s, a) && (a.FrameFailed? || a.PublishFailed?)
    ensures Work(Next(s, a)) < Work(s)
  {
    hide RegistryStep, ReleasesStep, Finish, BusWork, Work, InFlight;
    var k := TaskAt(s, a.n, a.tid);
    if a.FrameFailed? {
      EndLowers(s, Next(s, a), a.n, a.tid, SendFailed, 0);
    } else {
      BusAdds(s.bus, Request(a.n, k.role.owner, k.inst, k.rid));
      EndLowers(s, Next(s, a), a.n, a.tid, Unavailable, 4);
    }
  }

  lemma OutcomeLowers(s: Cluster, a: Step)
    requires Enabled(s, a) && (a.Expire? || a.Resume?)
    ensures Work(Next(s, a)) < Work(s)
  {
    hide RegistryStep, ReleasesStep, Finish, BusWork, Work, InFlight, LegReply;
    var k := TaskAt(s, a.n, a.tid);
    var gained := if k.role.Remote? then 1 else 0;
    if a.Expire? {
      LegReplyWork(s.bus, a.n, k, TimedOut, false, a.lost);
      EndLowers(s, Next(s, a), a.n, a.tid, TimedOut, gained);
    } else {
      LegReplyWork(s.bus, a.n, k, k.future.outcome, a.oversize, a.lost);
      EndLowers(s, Next(s, a), a.n, a.tid, k.future.outcome, gained);
    }
  }

  lemma SentTouches(h: Hub, tid: nat, published: nat, due: Time)
    requires Running(h, tid) && h.tasks[tid].phase.Sending?
    ensures OnlyTouches(h, Sent(h, tid, published, due), {tid})
    ensures TaskWork(Sent(h, tid, published, due).tasks[tid]) + (if h.tasks[tid].role.Cross? then 4 else 0) < TaskWork(h.tasks[tid])
  {
  }

  lemma HandOverLowers(s: Cluster, a: Step)
    requires Enabled(s, a) && (a.FrameSent? || a.Published?)
    ensures Work(Next(s, a)) < Work(s)
  {
    hide RegistryStep, ReleasesStep, Sent, BusWork, InFlight, Works, Sum, Alive, OnlyTouches, TaskWork;
    var k := TaskAt(s, a.n, a.tid);
    var published := if a.Published? then k.published + 1 else 0;
    SentTouches(s.hubs[a.n], a.tid, published, s.now + s.timeout);
    CoroutineChanges(s, a.n, a.tid, Sent(s.hubs[a.n], a.tid, published, s.now + s.timeout));
    if a.Published? {
      BusAdds(s.bus, Request(a.n, k.role.owner, k.inst, k.rid));
    }
  }

  lemma TaskJoins(s: Cluster, n: string, tid: nat, h': Hub)
    requires n in s.hubs && tid !in s.hubs[n].tasks && tid in h'.tasks && h'.tasks == s.hubs[n].tasks[tid := h'.tasks[tid]]
    ensures Sum(Works(Alive(s.hubs[n := h']))) == Sum(Works(Alive(s.hubs))) + TaskWork(h'.tasks[tid])
  {
    var live, live', w := Alive(s.hubs), Alive(s.hubs[n := h']), Where(n, tid);
    OneJoins(s.hubs, n, h', tid);
    assert live' - {w} == live - {w};
    hide Alive;
    WorkAt(live, live', w, 0, TaskWork(h'.tasks[tid]));
  }

  lemma DeliverLowers(s: Cluster, a: Step)
    requires Enabled(s, a) && a.Deliver?
    ensures Work(Next(s, a)) < Work(s)
  {
    hide RegistryStep, ReleasesStep, BusWork, InFlight, Works, Sum, Alive, HandleReply, OpenOnConn;
    var e := a.e;
    var h := s.hubs[e.target];
    BusDrops(s.bus, e);
    if e.Reply? {
      ReplyCountsNot(s.hubs, e);
    } else if e.inst in h.installs {
      LegCosts(s, e, a.tid);
    } else {
      BusAdds(s.bus - multiset{e}, Reply(e.target, e.source, e.inst, e.cid, NO_TUNNEL));
    }
  }

  lemma ReplyCountsNot(hubs: map<string, Hub>, e: Envelope)
    requires e.Reply? && e.target in hubs
    ensures Works(Alive(hubs[e.target := HandleReply(hubs[e.target], e.cid, e.frame)])) == Works(Alive(hubs))
  {
    SameWork(hubs, e.target, HandleReply(hubs[e.target], e.cid, e.frame));
  }

  lemma LegCosts(s: Cluster, e: Envelope, tid: nat)
    requires e.target in s.hubs && e.inst in s.hubs[e.target].installs && tid !in s.hubs[e.target].tasks
    ensures var h := s.hubs[e.target];
            Sum(Works(Alive(s.hubs[e.target := OpenOnConn(h, tid, Remote(h.installs[e.inst], e.source), e.inst, e.cid)])))
            == Sum(Works(Alive(s.hubs))) + 3
  {
    hide Works, Sum, Alive;
    var h := s.hubs[e.target];
    TaskJoins(s, e.target, tid, OpenOnConn(h, tid, Remote(h.installs[e.inst], e.source), e.inst, e.cid));
  }

  lemma LossLowers(s: Cluster, a: Step)
    requires Enabled(s, a) && a.Lose?
    ensures Work(Next(s, a)) < Work(s)
  {
    hide RegistryStep, ReleasesStep, BusWork, Works, Sum, Alive;
    BusDrops(s.bus, a.e);
  }

  lemma ServesLowers(s: Cluster, a: Step)
    requires Enabled(s, a) && Serves(a)
    ensures Work(Next(s, a)) < Work(s)
  {
    hide Next, Enabled;
    if a.FrameSent? || a.Published? {
      HandOverLowers(s, a);
    } else if a.Deliver? {
      DeliverLowers(s, a);
    } else if a.Lose? {
      LossLowers(s, a);
    } else if a.Expire? || a.Resume? {
      OutcomeLowers(s, a);
    } else {
      FailureLowers(s, a);
    }
  }

  lemma OthersKeepWork(s: Cluster, a: Step)
    requires Enabled(s, a) && !Serves(a) && !a.Start?
    ensures Work(Next(s, a)) == Work(s)
  {
    if a.Open? {
      SameWork(s.hubs, a.n, Connect(s.hubs[a.n], a.conn));
    } else if a.Close? {
      SameWork(s.hubs, a.n, Drop(s.hubs[a.n], a.inst, a.conn));
    } else if a.TunnelAnswers? {
      SameWork(s.hubs, a.n, Resolve(s.hubs[a.n], a.inst, a.frame.requestId, a.frame));
    } else if a.Visit? {
      SameWork(s.hubs, a.n, Drop(s.hubs[a.n], a.inst, s.hubs[a.n].installs[a.inst]));
    }
    hide Alive, BusWork, Works, Sum, Connect, Drop, Resolve;
  }

  lemma StartAddsSix(s: Cluster, a: Step)
    requires Enabled(s, a) && a.Start?
    ensures Work(Next(s, a)) <= Work(s) + 6
  {
    hide Alive, BusWork, Works, Sum, Begin, OwnerOf, InFlight, TaskWork;
    var h, owner := s.hubs[a.n], OwnerOf(s.registry, a.inst, s.now);
    BeginAdds(h, a.n, owner, a.tid, a.inst, a.rid, a.oversize);
    TaskJoins(s, a.n, a.tid, Begin(h, a.n, owner, true, a.tid, a.inst, a.rid, a.oversize));
  }

  lemma BeginAdds(h: Hub, node: string, owner: Option<string>, tid: nat, inst: string, rid: string, oversize: bool)
    requires tid !in h.tasks
    ensures var h' := Begin(h, node, owner, true, tid, inst, rid, oversize);
            tid in h'.tasks && h'.tasks == h.tasks[tid := h'.tasks[tid]] && TaskWork(h'.tasks[tid]) <= 6
  {
  }

  // ---- Whole runs ----------------------------------------------------------------------------------

  ghost function Starts(run: seq<Step>): nat {
    if run == [] then 0 else Starts(run[1..]) + if run[0].Start? then 1 else 0
  }

  ghost function Served(run: seq<Step>): nat {
    if run == [] then 0 else Served(run[1..]) + if Serves(run[0]) then 1 else 0
  }

  /** Every run serves at most six steps for each request that starts in it, above what there was to do at the
      beginning; so no request forwards, bounces or waits for ever while steps are taken for it. */
  lemma {:induction false} ServiceIsBounded(s: Cluster, run: seq<Step>)
    requires Legal(s, run)
    ensures Served(run) + Work(After(s, run)) <= Work(s) + 6 * Starts(run)
    decreases |run|
  {
    if run != [] {
      hide Next, Enabled, Work;
      var a := run[0];
      ServiceIsBounded(Next(s, a), run[1..]);
      if Serves(a) {
        ServesLowers(s, a);
      } else if a.Start? {
        StartAddsSix(s, a);
      } else {
        OthersKeepWork(s, a);
      }
    }
  }

  /** A number no coroutine of the hub has. */
  lemma {:induction false} UnusedId(ids: set<nat>) returns (t: nat)
    ensures t !in ids && forall i | i in ids :: i < t
  {
    if ids == {} {
      t := 0;
    } else {
      var i :| i in ids;
      var u := UnusedId(ids - {i});
      assert ids == (ids - {i}) + {i};
      t := if i < u then u else i + 1;
    }
  }

  /** Nothing happens but time. */
  function Later(s: Cluster, to: Time): Cluster {
    s.(now := to)
  }

  lemma TickIs(s: Cluster, to: Time)
    requires s.now <= to
    ensures Enabled(s, Tick(to)) && Next(s, Tick(to)) == Later(s, to)
  {
  }

  /** As long as a request runs or an envelope is under way, some step that serves it can be taken, at the
      latest when a deadline passes: its own send, its deadline, its settled outcome, the delivery of the
      envelope or, if its node is gone, its loss. */
  lemma SomethingCanServe(s: Cluster) returns (to: Time, a: Step)
    requires Work(s) > 0
    ensures s.now <= to && Serves(a) && Enabled(Later(s, to), a)
    ensures DueSoon(s) && s.timeout >= 0.0 ==> to <= s.now + s.timeout
  {
    SumZero(Works(Alive(s.hubs)));
    SumZero(Carried(s.bus));
    if x :| x in Alive(s.hubs) {
      assert x == Where(x.node, x.tid) && RunningAt(s, x.node, x.tid);
      to, a := OwnStep(s, x.node, x.tid);
    } else {
      var e :| e in s.bus;
      to := s.now;
      if e.target in s.hubs {
        var t := UnusedId(s.hubs[e.target].tasks.Keys);
        a := Deliver(e, t);
      } else {
        a := Lose(e);
      }
    }
  }

  /** The step that a running coroutine can take by itself, and when. */
  lemma OwnStep(s: Cluster, n: string, tid: nat) returns (to: Time, a: Step)
    requires RunningAt(s, n, tid)
    ensures s.now <= to && Serves(a) && Own(a, n, tid) && Enabled(Later(s, to), a)
    ensures DueSoon(s) && s.timeout >= 0.0 ==> to <= s.now + s.timeout
    ensures var p := TaskAt(s, n, tid).phase; !p.Awaiting? || p.due <= s.now ==> to == s.now
  {
    hide RegistryStep, BusStep, ReleasesStep, InFlight;
    var k := TaskAt(s, n, tid);
    to := s.now;
    if k.phase.Sending? {
      a := if k.role.Cross? then Published(n, tid) else FrameSent(n, tid);
    } else if k.future.Settled? {
      a := Resume(n, tid, false, false);
    } else {
      a := Expire(n, tid, false);
      to := if k.phase.due <= s.now then s.now else k.phase.due;
    }
  }

  // ---- Deadlines -------------------------------------------------------------------------------------

  /** No deadline lies further ahead than the timeout. */
  ghost predicate DueSoon(s: Cluster) {
    forall n, t | RunningAt(s, n, t) && TaskAt(s, n, t).phase.Awaiting? :: TaskAt(s, n, t).phase.due <= s.now + s.timeout
  }

  /** A wait that was not there before has just begun. */
  ghost predicate FreshWaits(h: Hub, h': Hub, due: Time) {
    forall t | Running(h', t) && h'.tasks[t].phase.Awaiting? ::
      h'.tasks[t].phase.due == due || (Running(h, t) && h.tasks[t].phase == h'.tasks[t].phase)
  }

  lemma SocketWaits(s: Cluster, a: Step, n: string)
    requires Enabled(s, a) && n in s.hubs && (a.Open? || a.Close? || a.TunnelAnswers? || a.Visit?)
    ensures FreshWaits(s.hubs[n], Next(s, a).hubs[n], s.now + s.timeout)
  {
    hide RegistryStep, BusStep, ReleasesStep;
  }

  lemma DeliveryWaits(s: Cluster, a: Step, n: string)
    requires Enabled(s, a) && n in s.hubs && a.Deliver?
    ensures FreshWaits(s.hubs[n], Next(s, a).hubs[n], s.now + s.timeout)
  {
    hide RegistryStep, BusStep, ReleasesStep;
  }

  lemma CoroutineWaits(s: Cluster, a: Step, n: string)
    requires Enabled(s, a) && n in s.hubs
    requires a.Start? || a.FrameSent? || a.FrameFailed? || a.Published? || a.PublishFailed? || a.Expire? || a.Resume?
    ensures FreshWaits(s.hubs[n], Next(s, a).hubs[n], s.now + s.timeout)
  {
    hide RegistryStep, BusStep, ReleasesStep, InFlight;
  }

  lemma DueSoonKeeps(s: Cluster, a: Step)
    requires DueSoon(s) && Enabled(s, a)
    ensures DueSoon(Next(s, a)) && Next(s, a).timeout == s.timeout && s.now <= Next(s, a).now
  {
    SameNodes(s, a);
    forall n | n in s.hubs ensures FreshWaits(s.hubs[n], Next(s, a).hubs[n], s.now + s.timeout) {
      if a.Open? || a.Close? || a.TunnelAnswers? || a.Visit? {
        SocketWaits(s, a, n);
      } else if a.Deliver? {
        DeliveryWaits(s, a, n);
      } else if a.Tick? || a.LetGo? || a.Lose? {
      } else {
        CoroutineWaits(s, a, n);
      }
    }
    hide HubsStep, RegistryStep, BusStep, ReleasesStep;
    var s' := Next(s, a);
    forall n, t | RunningAt(s', n, t) && TaskAt(s', n, t).phase.Awaiting?
      ensures TaskAt(s', n, t).phase.due <= s'.now + s'.timeout {
      assert FreshWaits(s.hubs[n], s'.hubs[n], s.now + s.timeout);
      if s'.hubs[n].tasks[t].phase.due != s.now + s.timeout {
        assert RunningAt(s, n, t);
      }
    }
  }

  lemma {:induction false} RunDueSoon(s: Cluster, run: seq<Step>)
    requires DueSoon(s) && Legal(s, run)
    ensures DueSoon(After(s, run)) && After(s, run).timeout == s.timeout && s.now <= After(s, run).now
    decreases |run|
  {
    if run != [] {
      hide Next, Enabled, DueSoon;
      DueSoonKeeps(s, run[0]);
      RunDueSoon(Next(s, run[0]), run[1..]);
    }
  }

  /** A step that coroutine (n, t) takes by itself. */
  predicate Own(a: Step, n: string, t: nat) {
    (a.FrameSent? || a.FrameFailed? || a.Published? || a.PublishFailed? || a.Expire? || a.Resume?) && a.n == n && a.tid == t
  }

  /** Coroutine (n, t) has nothing to do at this moment. */
  ghost predicate Idle(s: Cluster, n: string, t: nat) {
    forall a | Own(a, n, t) :: !Enabled(s, a)
  }

  /** A request handed over by some moment has ended, rightly, in every state at least the timeout later in which
      its own coroutine has nothing left to do, whatever happens in between and whatever else is still going on. */
  lemma EndedByDeadline(s: Cluster, run: seq<Step>, more: seq<Step>, n: string, t: nat)
    requires Initial(s) && Legal(s, run) && Legal(After(s, run), more)
    requires Guarded(s, run) && Guarded(After(s, run), more)
    requires n in After(s, run).hubs && t in After(s, run).hubs[n].tasks && !After(s, run).hubs[n].tasks[t].phase.Sending?
    requires Idle(After(After(s, run), more), n, t) && After(After(s, run), more).now >= After(s, run).now + s.timeout
    ensures var end := After(After(s, run), more);
            && EndedAt(end, n, t) && RightFrame(end.hubs[n].tasks[t], end.hubs[n].tasks[t].phase.outcome)
  {
    var mid := After(s, run);
    var end := After(mid, more);
    assert DueSoon(s);
    RunDueSoon(s, run);
    assert RunningAt(mid, n, t) ==> TaskAt(mid, n, t).phase.due <= mid.now + s.timeout;
    InitialInv(s);
    hide DueSoon, After, Legal, Guarded, Initial, HubsOk, TwoEnds, OneEnvelope, Enabled, RightFrame;
    GuardedKeeps(s, run);
    GuardedKeeps(mid, more);
    TaskIsGood(end, n, t);
    assert TaskKept(mid.hubs[n].tasks[t], end.hubs[n].tasks[t]);
    assert Later(end, end.now) == end;
    if RunningAt(end, n, t) {
      var to, a := OwnStep(end, n, t);
    }
  }

  lemma CarriedCounts(bus: multiset<Envelope>)
    ensures Sum(Carried(bus)) == 0 ==> bus == multiset{}
  {
    hide Sum;
    SumZero(Carried(bus));
    forall e | e in bus ensures bus[e] * EnvelopeWork(e) > 0 {}
    if bus != multiset{} {
      var e :| e in bus;
      assert Carried(bus)[e] > 0;
    }
  }

  lemma WorksCount(hubs: map<string, Hub>)
    ensures Sum(Works(Alive(hubs))) == 0 ==> Alive(hubs) == map[]
  {
    hide Sum, Alive;
    var live := Alive(hubs);
    SumZero(Works(live));
    LiveRuns(hubs);
    if live != map[] {
      var x :| x in live;
      assert Works(live)[x] > 0;
    }
  }

  lemma NothingLeft(s: Cluster)
    requires Work(s) == 0
    ensures s.bus == multiset{} && forall n, t :: !RunningAt(s, n, t)
  {
    hide Sum, Alive, Works, Carried;
    CarriedCounts(s.bus);
    WorksCount(s.hubs);
    forall n, t ensures !RunningAt(s, n, t) {
      assert Where(n, t) !in Alive(s.hubs);
    }
  }

  predicate EndedAt(s: Cluster, n: string, t: nat) {
    n in s.hubs && t in s.hubs[n].tasks && s.hubs[n].tasks[t].phase.Ended?
  }

  /** How often coroutine (n, t) ends during the run. */
  ghost function Endings(s: Cluster, run: seq<Step>, n: string, t: nat): nat
    requires Legal(s, run)
    decreases |run|
  {
    if run == [] then 0
    else Endings(Next(s, run[0]), run[1..], n, t)
         + if !EndedAt(s, n, t) && EndedAt(Next(s, run[0]), n, t) then 1 else 0
  }

  lemma StepKeepsEnded(s: Cluster, a: Step, n: string, t: nat)
    requires HubsOk(s) && Enabled(s, a) && Guard(s, a) && EndedAt(s, n, t)
    ensures EndedAt(Next(s, a), n, t)
  {
    hide HubsOk, Next, Enabled, Guard;
    GuardKeeps(s, a);
    assert TaskKept(s.hubs[n].tasks[t], Next(s, a).hubs[n].tasks[t]);
  }

  lemma {:induction false} EndingsCount(s: Cluster, run: seq<Step>, n: string, t: nat)
    requires HubsOk(s) && Legal(s, run) && Guarded(s, run)
    ensures Endings(s, run, n, t) + (if EndedAt(s, n, t) then 1 else 0) == if EndedAt(After(s, run), n, t) then 1 else 0
    decreases |run|
  {
    hide HubsOk, Next, Enabled, EndedAt, Guard;
    if run != [] {
      GuardKeeps(s, run[0]);
      if EndedAt(s, n, t) {
        StepKeepsEnded(s, run[0], n, t);
      }
      EndingsCount(Next(s, run[0]), run[1..], n, t);
    }
  }

  /** No step that serves a request can be taken any more, now or after any wait. */
  ghost predicate Quiescent(s: Cluster) {
    forall to: Time, a | s.now <= to && Serves(a) :: !Enabled(Later(s, to), a)
  }

  /** When a guarded run has taken every step it could for its requests, which by ServiceIsBounded it does after a
      bounded number of them, every request that ever started has ended exactly once, with the response of its
      own installation bearing its own id or with one error, and no envelope and no correlation entry is left. */
  lemma ExactlyOneOutcome(s: Cluster, run: seq<Step>, n: string, t: nat)
    requires Initial(s) && Legal(s, run) && Guarded(s, run) && Quiescent(After(s, run))
    requires n in After(s, run).hubs && t in After(s, run).hubs[n].tasks
    ensures Endings(s, run, n, t) == 1
    ensures var h := After(s, run).hubs[n];
            && h.tasks[t].phase.Ended? && RightFrame(h.tasks[t], h.tasks[t].phase.outcome)
            && h.pending == map[] && h.cross == map[]
    ensures After(s, run).bus == multiset{}
  {
    hide Next, Enabled, HubsOk, TwoEnds, OneEnvelope, Work, Guard;
    var end := After(s, run);
    InitialInv(s);
    GuardedKeeps(s, run);
    EndingsCount(s, run, n, t);
    assert Work(end) == 0 by {
      if Work(end) > 0 {
        var to, a := SomethingCanServe(end);
      }
    }
    NothingLeft(end);
    assert !RunningAt(end, n, t);
    TaskIsGood(end, n, t);
    NoEntryOutlivesItsRequest(s, run, n);
    forall u | u in end.hubs[n].tasks ensures !Running(end.hubs[n], u) {
      assert !RunningAt(end, n, u);
    }
  }

  /** From every state the requests can be brought to that end. */
  lemma {:induction false} RequestsCanEnd(s: Cluster) returns (run: seq<Step>)
    ensures Legal(s, run) && Work(After(s, run)) == 0 && Starts(run) == 0 && |run| <= 2 * Work(s)
    decreases Work(s)
  {
    hide Next, Enabled;
    if Work(s) == 0 {
      run := [];
    } else {
      var to, a := SomethingCanServe(s);
      var s1 := Later(s, to);
      TickIs(s, to);
      ServesLowers(s1, a);
      assert Work(s1) == Work(s);
      hide Work;
      var rest := RequestsCanEnd(Next(s1, a));
      run := [Tick(to), a] + rest;
      WaitAndServe(s, to, a, rest);
    }
  }

  lemma WaitAndServe(s: Cluster, to: Time, a: Step, rest: seq<Step>)
    requires s.now <= to && Serves(a) && Enabled(Later(s, to), a) && Legal(Next(Later(s, to), a), rest)
    ensures var run := [Tick(to), a] + rest;
            Legal(s, run) && After(s, run) == After(Next(Later(s, to), a), rest) && Starts(run) == Starts(rest)
  {
    var run := [Tick(to), a] + rest;
    TickIs(s, to);
    hide Next, Enabled;
    assert run[0] == Tick(to) && run[1..] == [a] + rest && run[1..][0] == a && run[1..][1..] == rest;
  }
}
