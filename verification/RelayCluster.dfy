/** The Secure Relay as one transition system: any number of nodes, the registry they share, the
    Pub/Sub bus between them, and a clock. Each step is what runs between two suspension points. */
module RelayCluster {
  import opened RelayRegistry
  import opened Wrappers
  import opened RelayRouting

  datatype Envelope =
    | Request(source: string, target: string, inst: string, cid: string)
    | Reply(source: string, target: string, inst: string, cid: string, frame: Frame)

  /** A hub has dropped its tunnel and still has to give up the shared entry. */
  datatype Release = Release(node: string, inst: string)

  /** Every wait for a response, at the origin and on the leg, lasts at most `timeout`. */
  datatype Cluster = Cluster(now: Time, ttl: Time, timeout: Time, registry: Table, hubs: map<string, Hub>,
                             bus: multiset<Envelope>, releases: multiset<Release>)

  datatype Step =
    | Open(n: string, conn: Conn)                                 // hub.register
    | Close(n: string, inst: string, conn: Conn)                  // hub.unregister, up to its await
    | LetGo(r: Release)                                           // the registry's part of it
    | Visit(n: string, inst: string)                              // one heartbeat iteration
    | Tick(to: Time)
    | Start(n: string, tid: nat, inst: string, rid: string, oversize: bool)   // hub.route
    | FrameSent(n: string, tid: nat)
    | FrameFailed(n: string, tid: nat)
    | Published(n: string, tid: nat)
    | PublishFailed(n: string, tid: nat, leaked: bool)            // the broker may have taken it anyway
    | TunnelAnswers(n: string, inst: string, frame: Frame)
    | Expire(n: string, tid: nat, lost: bool)                     // wait_for times out, not before it is due
    | Resume(n: string, tid: nat, oversize: bool, lost: bool)     // the future is settled
    | Deliver(e: Envelope, tid: nat)
    | Lose(e: Envelope)

  predicate OnTunnel(k: Task) {
    !k.role.Cross?
  }

  ghost predicate InFlight(s: Cluster, rid: string) {
    || (exists n, t :: RunningAt(s, n, t) && s.hubs[n].tasks[t].rid == rid)
    || (exists e | e in s.bus :: e.cid == rid)
  }

  predicate RunningAt(s: Cluster, n: string, t: nat) {
    n in s.hubs && Running(s.hubs[n], t)
  }

  function TaskAt(s: Cluster, n: string, t: nat): Task
    requires RunningAt(s, n, t)
  {
    s.hubs[n].tasks[t]
  }

  /** Preconditions of a step. */
  ghost predicate Enabled(s: Cluster, a: Step) {
    match a
    case Open(n, _) => n in s.hubs
    case Close(n, _, _) => n in s.hubs
    case LetGo(r) => r in s.releases
    case Visit(n, inst) => n in s.hubs && inst in s.hubs[n].installs
    case Tick(to) => s.now <= to
    case Start(n, tid, _, _, _) => n in s.hubs && tid !in s.hubs[n].tasks
    case FrameSent(n, tid) => RunningAt(s, n, tid) && OnTunnel(TaskAt(s, n, tid)) && TaskAt(s, n, tid).phase.Sending?
    case FrameFailed(n, tid) => RunningAt(s, n, tid) && OnTunnel(TaskAt(s, n, tid)) && TaskAt(s, n, tid).phase.Sending?
    case Published(n, tid) => RunningAt(s, n, tid) && !OnTunnel(TaskAt(s, n, tid)) && TaskAt(s, n, tid).phase.Sending?
    case PublishFailed(n, tid, _) => RunningAt(s, n, tid) && !OnTunnel(TaskAt(s, n, tid)) && TaskAt(s, n, tid).phase.Sending?
    case TunnelAnswers(n, inst, f) => n in s.hubs && f.origin == inst
    case Expire(n, tid, _) => RunningAt(s, n, tid) && TaskAt(s, n, tid).phase.Awaiting? && TaskAt(s, n, tid).future.Waiting?
                              && TaskAt(s, n, tid).phase.due <= s.now
    case Resume(n, tid, _, _) => RunningAt(s, n, tid) && TaskAt(s, n, tid).phase.Awaiting? && TaskAt(s, n, tid).future.Settled?
    case Deliver(e, tid) => e in s.bus && e.target in s.hubs && tid !in s.hubs[e.target].tasks
    case Lose(e) => e in s.bus
  }

  /** A request starts under an id that is not in flight anywhere. */
  ghost predicate Fresh(s: Cluster, a: Step) {
    a.Start? ==> !InFlight(s, a.rid)
  }

  /** What a remote leg publishes back when it ends; a failed socket send publishes nothing. */
  function ReplyTo(n: string, k: Task, o: Outcome, oversize: bool): multiset<Envelope>
    requires k.role.Remote?
  {
    match o
    case Response(f) => multiset{Reply(n, k.role.source, k.inst, k.rid, if oversize then OVERSIZE_FRAME else f)}
    case TimedOut => multiset{Reply(n, k.role.source, k.inst, k.rid, TIMEOUT_FRAME)}
    case SendFailed => multiset{}
    case _ => multiset{Reply(n, k.role.source, k.inst, k.rid, NO_TUNNEL)}
  }

  function LegReply(n: string, k: Task, o: Outcome, oversize: bool, lost: bool): multiset<Envelope> {
    if k.role.Remote? && !lost then ReplyTo(n, k, o, oversize) else multiset{}
  }

  /** What a step does to the registry. */
  ghost function RegistryStep(s: Cluster, a: Step): Table
    requires Enabled(s, a)
  {
    match a
    case Open(n, conn) => AfterRegister(s.registry, n, conn.inst, s.now, s.ttl)
    case LetGo(r) => AfterUnregister(s.registry, r.node, r.inst)
    case Visit(n, inst) => AfterHeartbeat(s.registry, n, inst, s.now, s.ttl)
    case Start(n, _, inst, _, _) => if inst in s.hubs[n].installs then s.registry else AfterLookup(s.registry, inst, s.now)
    case _ => s.registry
  }

  /** What a step does to the hubs: at most one of them changes. */
  ghost function HubsStep(s: Cluster, a: Step): map<string, Hub>
    requires Enabled(s, a)
  {
    match a
    case Open(n, conn) => s.hubs[n := Connect(s.hubs[n], conn)]
    case Close(n, inst, conn) => s.hubs[n := Drop(s.hubs[n], inst, conn)]
    case Visit(n, inst) =>
      if HeartbeatOwned(s.registry, n, inst, s.now) then s.hubs
      else s.hubs[n := Drop(s.hubs[n], inst, s.hubs[n].installs[inst])]
    case Start(n, tid, inst, rid, oversize) =>
      s.hubs[n := Begin(s.hubs[n], n, OwnerOf(s.registry, inst, s.now), true, tid, inst, rid, oversize)]
    case FrameSent(n, tid) => s.hubs[n := Sent(s.hubs[n], tid, 0, s.now + s.timeout)]
    case FrameFailed(n, tid) => s.hubs[n := Finish(s.hubs[n], tid, SendFailed)]
    case Published(n, tid) => s.hubs[n := Sent(s.hubs[n], tid, s.hubs[n].tasks[tid].published + 1, s.now + s.timeout)]
    case PublishFailed(n, tid, _) => s.hubs[n := Finish(s.hubs[n], tid, Unavailable)]
    case TunnelAnswers(n, inst, f) => s.hubs[n := Resolve(s.hubs[n], inst, f.requestId, f)]
    case Expire(n, tid, _) => s.hubs[n := Finish(s.hubs[n], tid, TimedOut)]
    case Resume(n, tid, _, _) => s.hubs[n := Finish(s.hubs[n], tid, s.hubs[n].tasks[tid].future.outcome)]
    case Deliver(e, tid) =>
      var h := s.hubs[e.target];
      if e.Reply? then s.hubs[e.target := HandleReply(h, e.cid, e.frame)]
      else if e.inst in h.installs then
        s.hubs[e.target := OpenOnConn(h, tid, Remote(h.installs[e.inst], e.source), e.inst, e.cid)]
      else s.hubs
    case _ => s.hubs
  }

  /** What a step does to the bus. */
  ghost function BusStep(s: Cluster, a: Step): multiset<Envelope>
    requires Enabled(s, a)
  {
    match a
    case Published(n, tid) =>
      var k := s.hubs[n].tasks[tid];
      s.bus + multiset{Request(n, k.role.owner, k.inst, k.rid)}
    case PublishFailed(n, tid, leaked) =>
      var k := s.hubs[n].tasks[tid];
      if leaked then s.bus + multiset{Request(n, k.role.owner, k.inst, k.rid)} else s.bus
    case Expire(n, tid, lost) => s.bus + LegReply(n, s.hubs[n].tasks[tid], TimedOut, false, lost)
    case Resume(n, tid, oversize, lost) =>
      var k := s.hubs[n].tasks[tid];
      s.bus + LegReply(n, k, k.future.outcome, oversize, lost)
    case Deliver(e, _) =>
      if e.Reply? || e.inst in s.hubs[e.target].installs then s.bus - multiset{e}
      else s.bus - multiset{e} + multiset{Reply(e.target, e.source, e.inst, e.cid, NO_TUNNEL)}
    case Lose(e) => s.bus - multiset{e}
    case _ => s.bus
  }

  ghost function ReleasesStep(s: Cluster, a: Step): multiset<Release>
    requires Enabled(s, a)
  {
    match a
    case Close(n, inst, conn) =>
      if HoldsConn(s.hubs[n], inst, conn) then s.releases + multiset{Release(n, inst)} else s.releases
    case LetGo(r) => s.releases - multiset{r}
    case _ => s.releases
  }

  ghost function Next(s: Cluster, a: Step): Cluster
    requires Enabled(s, a)
  {
    Cluster(if a.Tick? then a.to else s.now, s.ttl, s.timeout, RegistryStep(s, a), HubsStep(s, a), BusStep(s, a),
            ReleasesStep(s, a))
  }

  // ---- Invariant of all reachable states --------------------------------------------------------

  datatype Where = Where(node: string, tid: nat)

  /** The running coroutines of the whole cluster. */
  ghost function Alive(hubs: map<string, Hub>): (live: map<Where, Task>)
    ensures forall n, t :: Where(n, t) in live <==> n in hubs && Running(hubs[n], t)
    ensures forall n, t | n in hubs && Running(hubs[n], t) :: live[Where(n, t)] == hubs[n].tasks[t]
  {
    map n: string, t: nat | n in hubs && t in hubs[n].tasks && !hubs[n].tasks[t].phase.Ended? ::
      Where(n, t) := hubs[n].tasks[t]
  }

  ghost predicate HubsOk(s: Cluster) {
    forall n | n in s.hubs :: HubInv(s.hubs[n])
  }

  /** The two ends of one hop: a forwarding origin that has published, and the leg it reached. */
  predicate Ends(k: Task, k': Task) {
    k.role.Cross? && !k.phase.Sending? && k'.role.Remote? && k'.inst == k.inst
  }

  /** Two coroutines share an id only as the two ends of one hop. */
  ghost predicate TwoEnds(live: map<Where, Task>) {
    forall x, y | x in live && y in live && x != y && live[x].rid == live[y].rid ::
      Ends(live[x], live[y]) || Ends(live[y], live[x])
  }

  predicate Awaits(k: Task, e: Envelope) {
    k.role.Cross? && k.phase.Awaiting? && k.inst == e.inst
  }

  /** A reply without an error carries the response of the installation that was asked. */
  predicate RightReply(e: Envelope) {
    e.Reply? && e.frame.relayError == "" ==> e.frame.requestId == e.cid && e.frame.origin == e.inst
  }

  /** The bus carries at most one envelope per id, and only for an awaiting origin or none. */
  ghost predicate OneEnvelope(live: map<Where, Task>, bus: multiset<Envelope>) {
    && (forall e | e in bus :: bus[e] == 1 && RightReply(e))
    && (forall e, f | e in bus && f in bus && e.cid == f.cid :: e == f)
    && (forall e, x | e in bus && x in live && live[x].rid == e.cid :: Awaits(live[x], e))
  }

  ghost predicate Inv(s: Cluster) {
    HubsOk(s) && TwoEnds(Alive(s.hubs)) && OneEnvelope(Alive(s.hubs), s.bus)
  }

  ghost predicate Kept(s: Cluster, s': Cluster) {
    forall n | n in s.hubs :: n in s'.hubs && TasksKept(s.hubs[n], s'.hubs[n])
  }

  // ---- How the running coroutines and the bus may change ------------------------------------------

  predicate NoneEnded(live: map<Where, Task>) {
    forall x | x in live :: !live[x].phase.Ended?
  }

  ghost predicate Shrunk(live: map<Where, Task>, live': map<Where, Task>) {
    live'.Keys <= live.Keys && NoneEnded(live) && NoneEnded(live') && forall x | x in live' :: TaskKept(live[x], live'[x])
  }

  lemma ShrinkKeeps(live: map<Where, Task>, live': map<Where, Task>, bus: multiset<Envelope>, bus': multiset<Envelope>)
    requires TwoEnds(live) && OneEnvelope(live, bus) && Shrunk(live, live') && bus' <= bus
    ensures TwoEnds(live') && OneEnvelope(live', bus')
  {
    forall x, y | x in live' && y in live' && x != y && live'[x].rid == live'[y].rid
      ensures Ends(live'[x], live'[y]) || Ends(live'[y], live'[x]) {
      assert Ends(live[x], live[y]) || Ends(live[y], live[x]);
    }
    hide Ends;
    forall e | e in bus' ensures e in bus && bus'[e] == 1 && RightReply(e) {
      assert bus'[e] <= bus[e];
    }
    forall e, x | e in bus' && x in live' && live'[x].rid == e.cid ensures Awaits(live'[x], e) {
      assert bus'[e] <= bus[e] && Awaits(live[x], e);
    }
  }

  lemma GainKeeps(live: map<Where, Task>, bus: multiset<Envelope>, e: Envelope)
    requires OneEnvelope(live, bus) && RightReply(e)
    requires forall f | f in bus :: f.cid != e.cid
    requires forall x | x in live && live[x].rid == e.cid :: Awaits(live[x], e)
    ensures OneEnvelope(live, bus + multiset{e})
  {
    hide Awaits, RightReply;
  }

  lemma JoinKeeps(live: map<Where, Task>, bus: multiset<Envelope>, w: Where, k: Task)
    requires TwoEnds(live) && OneEnvelope(live, bus) && w !in live
    requires forall x | x in live && live[x].rid == k.rid :: Ends(live[x], k)
    requires forall e | e in bus :: e.cid != k.rid
    ensures TwoEnds(live[w := k]) && OneEnvelope(live[w := k], bus)
  {
    hide Ends, Awaits, RightReply;
  }

  /** One hub changes; what the rest of the cluster sees of it. */
  lemma HubChanges(s: Cluster, s': Cluster, n: string, h': Hub)
    requires HubsOk(s) && n in s.hubs && s'.hubs == s.hubs[n := h'] && HubInv(h') && TasksKept(s.hubs[n], h')
    ensures HubsOk(s') && Kept(s, s')
    ensures NoNewTasks(s.hubs[n], h') ==> Shrunk(Alive(s.hubs), Alive(s'.hubs))
  {
    hide HubInv;
    assert Kept(s, s');
    if NoNewTasks(s.hubs[n], h') {
      var live, live' := Alive(s.hubs), Alive(s'.hubs);
      forall x | x in live' ensures x in live && TaskKept(live[x], live'[x]) {
        assert x == Where(x.node, x.tid);
      }
    }
  }

  /** A quiet segment of one hub, with nothing new on the bus. */
  lemma QuietStep(s: Cluster, s': Cluster, n: string, h': Hub)
    requires Inv(s) && n in s.hubs && Quiet(s.hubs[n], h')
    requires s'.hubs == s.hubs[n := h'] && s'.bus <= s.bus
    ensures Inv(s') && Kept(s, s')
  {
    hide HubInv, TasksKept, TwoEnds, OneEnvelope, Kept, Shrunk;
    HubChanges(s, s', n, h');
    ShrinkKeeps(Alive(s.hubs), Alive(s'.hubs), s.bus, s'.bus);
  }

  /** `live'` is `live` with (n, tid) set to what `h'` says of it. */
  ghost predicate SetAt(live: map<Where, Task>, live': map<Where, Task>, w: Where, h': Hub) {
    forall x :: (x in live' <==> if x == w then Running(h', w.tid) else x in live)
                && (x in live' ==> live'[x] == if x == w then h'.tasks[w.tid] else live[x])
  }

  lemma SetAtIs(live: map<Where, Task>, live': map<Where, Task>, w: Where, h': Hub)
    requires SetAt(live, live', w, h')
    ensures live' == if Running(h', w.tid) then live[w := h'.tasks[w.tid]] else live - {w}
  {
    hide Running;
  }

  /** What ending or changing one coroutine does to the running ones. */
  lemma OneChanges(hubs: map<string, Hub>, n: string, h': Hub, tid: nat)
    requires n in hubs && Running(hubs[n], tid) && OnlyTouches(hubs[n], h', {tid})
    ensures Alive(hubs[n := h']) ==
            if Running(h', tid) then Alive(hubs)[Where(n, tid) := h'.tasks[tid]] else Alive(hubs) - {Where(n, tid)}
  {
    hide Alive;
    assert SetAt(Alive(hubs), Alive(hubs[n := h']), Where(n, tid), h') by {
      forall x: Where ensures x == Where(x.node, x.tid) {}
    }
    hide SetAt;
    SetAtIs(Alive(hubs), Alive(hubs[n := h']), Where(n, tid), h');
  }

  lemma OneJoins(hubs: map<string, Hub>, n: string, h': Hub, tid: nat)
    requires n in hubs && tid !in hubs[n].tasks && tid in h'.tasks && h'.tasks == hubs[n].tasks[tid := h'.tasks[tid]]
    ensures Where(n, tid) !in Alive(hubs)
    ensures Alive(hubs[n := h']) ==
            if Running(h', tid) then Alive(hubs)[Where(n, tid) := h'.tasks[tid]] else Alive(hubs)
  {
    hide Alive;
    assert Where(n, tid) !in Alive(hubs);
    assert SetAt(Alive(hubs), Alive(hubs[n := h']), Where(n, tid), h') by {
      forall x: Where ensures x == Where(x.node, x.tid) {}
    }
    hide SetAt, Running;
    SetAtIs(Alive(hubs), Alive(hubs[n := h']), Where(n, tid), h');
    NotThere(Alive(hubs), Where(n, tid));
  }

  lemma NotThere(live: map<Where, Task>, w: Where)
    requires w !in live
    ensures live - {w} == live
  {
  }

  // ---- The steps ---------------------------------------------------------------------------------

  /** A leg that has ended: whatever still runs under its id awaits its reply. */
  lemma AfterLeg(live: map<Where, Task>, bus: multiset<Envelope>, w: Where, e: Envelope)
    requires TwoEnds(live) && OneEnvelope(live, bus) && NoneEnded(live) && w in live && live[w].role.Remote?
    requires e.cid == live[w].rid && e.inst == live[w].inst
    ensures forall x | x in live - {w} && live[x].rid == e.cid :: Awaits(live[x], e)
    ensures forall f | f in bus :: f.cid != e.cid
  {
    var k := live[w];
    forall x | x in live && x != w && live[x].rid == e.cid ensures Awaits(live[x], e) {
      var other := live[x];
      assert Ends(other, k) || Ends(k, other);
    }
  }

  lemma LiveRuns(hubs: map<string, Hub>)
    ensures NoneEnded(Alive(hubs))
  {
    forall x | x in Alive(hubs) ensures !Alive(hubs)[x].phase.Ended? {
      assert x == Where(x.node, x.tid);
    }
  }

  lemma LegGains(live: map<Where, Task>, bus: multiset<Envelope>, w: Where, e: Envelope)
    requires TwoEnds(live) && OneEnvelope(live, bus) && NoneEnded(live) && w in live && live[w].role.Remote?
    requires e.cid == live[w].rid && e.inst == live[w].inst && RightReply(e) && OneEnvelope(live - {w}, bus)
    ensures OneEnvelope(live - {w}, bus + multiset{e})
  {
    AfterLeg(live, bus, w, e);
    hide TwoEnds, OneEnvelope, Awaits, RightReply;
    GainKeeps(live - {w}, bus, e);
  }

  /** The end of a coroutine, and the reply it may put on the bus. */
  lemma EndsWith(s: Cluster, s': Cluster, n: string, tid: nat, o: Outcome, sent: bool, e: Envelope)
    requires Inv(s) && RunningAt(s, n, tid) && RightFrame(TaskAt(s, n, tid), o)
    requires s'.hubs == s.hubs[n := Finish(s.hubs[n], tid, o)]
    requires s'.bus == if sent then s.bus + multiset{e} else s.bus
    requires sent ==> TaskAt(s, n, tid).role.Remote? && RightReply(e)
                      && e.cid == TaskAt(s, n, tid).rid && e.inst == TaskAt(s, n, tid).inst
    ensures Inv(s') && Kept(s, s')
  {
    var h' := Finish(s.hubs[n], tid, o);
    assert !Running(h', tid) && TaskAt(s, n, tid) == Alive(s.hubs)[Where(n, tid)];
    LiveRuns(s.hubs);
    hide HubInv, TwoEnds, OneEnvelope, Kept, NoneEnded, Alive, Quiet, OnlyTouches, RightReply;
    FinishQuiet(s.hubs[n], tid, o);
    hide Finish;
    OneChanges(s.hubs, n, h', tid);
    QuietStep(s, s'.(bus := s.bus), n, h');
    QuietIsKept(s, s', n, h');
    if sent {
      LegGains(Alive(s.hubs), s.bus, Where(n, tid), e);
    }
  }

  lemma EndKeeps(s: Cluster, s': Cluster, n: string, tid: nat, o: Outcome, oversize: bool, lost: bool)
    requires Inv(s) && RunningAt(s, n, tid) && RightFrame(TaskAt(s, n, tid), o)
    requires s'.hubs == s.hubs[n := Finish(s.hubs[n], tid, o)]
    requires s'.bus == s.bus + LegReply(n, TaskAt(s, n, tid), o, oversize, lost)
    ensures Inv(s') && Kept(s, s')
  {
    hide Inv, Kept, Finish;
    var k := TaskAt(s, n, tid);
    if k.role.Remote? && !lost && !o.SendFailed? {
      var e: Envelope :| ReplyTo(n, k, o, oversize) == multiset{e};
      ReplyIsRight(n, k, o, oversize, e);
      hide ReplyTo, RightReply;
      EndsWith(s, s', n, tid, o, true, e);
    } else {
      assert s'.bus == s.bus;
      EndsWith(s, s', n, tid, o, false, Request("", "", "", ""));
    }
  }

  lemma ReplyIsRight(n: string, k: Task, o: Outcome, oversize: bool, e: Envelope)
    requires k.role.Remote? && RightFrame(k, o) && ReplyTo(n, k, o, oversize) == multiset{e}
    ensures RightReply(e) && e.cid == k.rid && e.inst == k.inst
  {
    assert e in ReplyTo(n, k, o, oversize);
  }

  lemma FreshIdIsFree(s: Cluster, n: string, inst: string, rid: string)
    requires HubsOk(s) && n in s.hubs && !InFlight(s, rid)
    ensures rid !in s.hubs[n].cross
    ensures inst in s.hubs[n].installs ==> Slot(s.hubs[n].installs[inst], rid) !in s.hubs[n].pending
    ensures forall x | x in Alive(s.hubs) :: Alive(s.hubs)[x].rid != rid
  {
    var h := s.hubs[n];
    forall c | c in h.cross ensures c != rid {
      assert RunningAt(s, n, h.cross[c]);
    }
    forall sl | sl in h.pending ensures sl.rid != rid {
      assert RunningAt(s, n, h.pending[sl]);
    }
    hide HubInv;
    forall x | x in Alive(s.hubs) ensures Alive(s.hubs)[x].rid != rid {
      assert x == Where(x.node, x.tid) && RunningAt(s, x.node, x.tid);
    }
  }

  /** A request that starts under a fresh id adds one sound coroutine to its hub. */
  lemma StartAdds(h: Hub, node: string, owner: Option<string>, tid: nat, inst: string, rid: string, oversize: bool)
    requires HubInv(h) && tid !in h.tasks && KeyIsFree(h, node, owner, true, inst, rid, oversize)
    ensures var h' := Begin(h, node, owner, true, tid, inst, rid, oversize);
            && HubInv(h') && TasksKept(h, h') && tid in h'.tasks
            && h'.tasks == h.tasks[tid := h'.tasks[tid]] && h'.tasks[tid].rid == rid
  {
    hide HubInv, TasksKept, KeyIsFree;
    BeginKeeps(h, node, owner, true, tid, inst, rid, oversize);
  }

  lemma HubJoins(s: Cluster, s': Cluster, n: string, tid: nat, h': Hub)
    requires Inv(s) && n in s.hubs && tid !in s.hubs[n].tasks && s'.hubs == s.hubs[n := h'] && s'.bus == s.bus
    requires HubInv(h') && TasksKept(s.hubs[n], h') && tid in h'.tasks
    requires h'.tasks == s.hubs[n].tasks[tid := h'.tasks[tid]] && !InFlight(s, h'.tasks[tid].rid)
    ensures Inv(s') && Kept(s, s')
  {
    FreshIdIsFree(s, n, "", h'.tasks[tid].rid);
    assert forall e | e in s.bus :: e.cid != h'.tasks[tid].rid;
    hide HubInv, TwoEnds, OneEnvelope, Kept, TasksKept, InFlight, Alive, Shrunk;
    HubChanges(s, s', n, h');
    OneJoins(s.hubs, n, h', tid);
    if Running(h', tid) {
      JoinKeeps(Alive(s.hubs), s.bus, Where(n, tid), h'.tasks[tid]);
    }
  }

  lemma StartKeeps(s: Cluster, a: Step)
    requires Inv(s) && a.Start? && Enabled(s, a) && Fresh(s, a)
    ensures Inv(Next(s, a)) && Kept(s, Next(s, a))
  {
    var h := s.hubs[a.n];
    var owner := OwnerOf(s.registry, a.inst, s.now);
    FreshIdIsFree(s, a.n, a.inst, a.rid);
    assert HubInv(h);
    hide HubInv, Inv, Kept, TasksKept, InFlight, Refused, OwnerOf;
    StartAdds(h, a.n, owner, a.tid, a.inst, a.rid, a.oversize);
    hide KeyIsFree, Begin;
    HubJoins(s, Next(s, a), a.n, a.tid, Begin(h, a.n, owner, true, a.tid, a.inst, a.rid, a.oversize));
  }

  /** An origin that has not published yet is alone with its id. */
  lemma SenderAlone(live: map<Where, Task>, bus: multiset<Envelope>, w: Where)
    requires TwoEnds(live) && OneEnvelope(live, bus) && w in live && live[w].role.Cross? && live[w].phase.Sending?
    ensures forall f | f in bus :: f.cid != live[w].rid
    ensures forall x | x in live && x != w :: live[x].rid != live[w].rid
  {
    forall x | x in live && x != w ensures live[x].rid != live[w].rid {
      assert !Ends(live[w], live[x]) && !Ends(live[x], live[w]);
    }
  }

  lemma NotPublishedYet(s: Cluster, n: string, tid: nat)
    requires HubsOk(s) && RunningAt(s, n, tid) && TaskAt(s, n, tid).phase.Sending?
    ensures TaskAt(s, n, tid).published == 0
  {
    hide PendingSound, CrossSound, AllRegistered;
    assert GoodTask(TaskAt(s, n, tid));
  }

  lemma PublishKeeps(s: Cluster, a: Step)
    requires Inv(s) && a.Published? && Enabled(s, a)
    ensures Inv(Next(s, a)) && Kept(s, Next(s, a))
  {
    hide HubInv, Quiet, TwoEnds, OneEnvelope, Kept, Alive, OnlyTouches;
    NotPublishedYet(s, a.n, a.tid);
    var h, k := s.hubs[a.n], TaskAt(s, a.n, a.tid);
    SentQuiet(h, a.tid, 1, s.now + s.timeout);
    SendKeeps(s, Next(s, a), a.n, a.tid, Sent(h, a.tid, 1, s.now + s.timeout), Request(a.n, k.role.owner, k.inst, k.rid), true);
  }

  lemma PublishFailedKeeps(s: Cluster, a: Step)
    requires Inv(s) && a.PublishFailed? && Enabled(s, a)
    ensures Inv(Next(s, a)) && Kept(s, Next(s, a))
  {
    hide HubInv, Quiet, TwoEnds, OneEnvelope, Kept, Alive, OnlyTouches;
    var h, k := s.hubs[a.n], TaskAt(s, a.n, a.tid);
    FinishQuiet(h, a.tid, Unavailable);
    assert !Running(Finish(h, a.tid, Unavailable), a.tid);
    hide Finish;
    SendKeeps(s, Next(s, a), a.n, a.tid, Finish(h, a.tid, Unavailable), Request(a.n, k.role.owner, k.inst, k.rid), a.leaked);
  }

  /** An origin's publish: a quiet segment of its hub, and its request possibly on the bus. */
  lemma SendKeeps(s: Cluster, s': Cluster, n: string, tid: nat, h': Hub, e: Envelope, sent: bool)
    requires Inv(s) && RunningAt(s, n, tid) && TaskAt(s, n, tid).role.Cross? && TaskAt(s, n, tid).phase.Sending?
    requires Quiet(s.hubs[n], h') && OnlyTouches(s.hubs[n], h', {tid}) && s'.hubs == s.hubs[n := h']
    requires e.Request? && e.cid == TaskAt(s, n, tid).rid && (Running(h', tid) ==> Awaits(h'.tasks[tid], e))
    requires s'.bus == if sent then s.bus + multiset{e} else s.bus
    ensures Inv(s') && Kept(s, s')
  {
    var live := Alive(s.hubs);
    assert live[Where(n, tid)] == TaskAt(s, n, tid);
    QuietIsKept(s, s', n, h');
    hide HubInv, Quiet, TwoEnds, OneEnvelope, Kept, Alive;
    OneChanges(s.hubs, n, h', tid);
    QuietStep(s, s'.(bus := s.bus), n, h');
    if sent {
      SenderGains(live, Alive(s'.hubs), s.bus, Where(n, tid), e);
    }
  }

  lemma SenderGains(live: map<Where, Task>, live': map<Where, Task>, bus: multiset<Envelope>, w: Where, e: Envelope)
    requires TwoEnds(live) && OneEnvelope(live, bus) && w in live && live[w].role.Cross? && live[w].phase.Sending?
    requires OneEnvelope(live', bus) && e.Request? && e.cid == live[w].rid
    requires if w in live' then live' == live[w := live'[w]] && Awaits(live'[w], e) else live' == live - {w}
    ensures OneEnvelope(live', bus + multiset{e})
  {
    SenderAlone(live, bus, w);
    hide TwoEnds, OneEnvelope, Awaits;
    assert forall x | x in live' && x != w :: live'[x] == live[x];
    GainKeeps(live', bus, e);
  }

  lemma QuietIsKept(s: Cluster, s': Cluster, n: string, h': Hub)
    requires Inv(s) && n in s.hubs && Quiet(s.hubs[n], h') && s'.hubs == s.hubs[n := h']
    ensures Kept(s, s')
  {
    HubChanges(s, s', n, h');
  }

  /** Taking an envelope off the bus leaves none with its id. */
  lemma TakeKeeps(live: map<Where, Task>, bus: multiset<Envelope>, e: Envelope)
    requires TwoEnds(live) && OneEnvelope(live, bus) && e in bus && NoneEnded(live)
    ensures OneEnvelope(live, bus - multiset{e}) && forall f | f in bus - multiset{e} :: f.cid != e.cid
  {
    ShrinkKeeps(live, live, bus, bus - multiset{e});
  }

  /** No tunnel here serves the id of an envelope that is still on the bus. */
  lemma LegIdIsFree(s: Cluster, e: Envelope)
    requires HubsOk(s) && OneEnvelope(Alive(s.hubs), s.bus) && e in s.bus && e.target in s.hubs
    ensures forall sl | sl in s.hubs[e.target].pending :: sl.rid != e.cid
  {
    var h := s.hubs[e.target];
    forall sl | sl in h.pending ensures sl.rid != e.cid {
      assert Where(e.target, h.pending[sl]) in Alive(s.hubs) && Alive(s.hubs)[Where(e.target, h.pending[sl])].rid == sl.rid;
    }
  }

  /** Whatever runs under the id of a request on the bus is the origin that sent it. */
  lemma NearEnd(live: map<Where, Task>, bus: multiset<Envelope>, e: Envelope, k: Task)
    requires OneEnvelope(live, bus) && e in bus && k.role.Remote? && k.inst == e.inst
    ensures forall x | x in live && live[x].rid == e.cid :: Ends(live[x], k)
  {
    forall x | x in live && live[x].rid == e.cid ensures Ends(live[x], k) {
      assert Awaits(live[x], e);
    }
  }

  /** A request reaches a node that holds the tunnel: one leg opens there. */
  lemma LegOpens(s: Cluster, s': Cluster, e: Envelope, tid: nat)
    requires Inv(s) && e in s.bus && e.target in s.hubs && e.inst in s.hubs[e.target].installs
    requires tid !in s.hubs[e.target].tasks && s'.bus == s.bus - multiset{e}
    requires s'.hubs == s.hubs[e.target := OpenOnConn(s.hubs[e.target], tid,
                                 Remote(s.hubs[e.target].installs[e.inst], e.source), e.inst, e.cid)]
    ensures Inv(s') && Kept(s, s')
  {
    var h := s.hubs[e.target];
    var role := Remote(h.installs[e.inst], e.source);
    var h' := OpenOnConn(h, tid, role, e.inst, e.cid);
    assert role.conn.inst == e.inst;
    LegIdIsFree(s, e);
    LiveRuns(s.hubs);
    hide HubInv, TwoEnds, OneEnvelope, Kept, TasksKept, NoneEnded;
    OpenKeeps(h, tid, role, e.inst, e.cid);
    HubChanges(s, s', e.target, h');
    OneJoins(s.hubs, e.target, h', tid);
    NearEnd(Alive(s.hubs), s.bus, e, h'.tasks[tid]);
    TakeKeeps(Alive(s.hubs), s.bus, e);
    JoinKeeps(Alive(s.hubs), s'.bus, Where(e.target, tid), h'.tasks[tid]);
  }

  /** A node without the tunnel takes an envelope off the bus and puts a refusal in its place. */
  lemma Bounces(s: Cluster, s': Cluster, e: Envelope)
    requires Inv(s) && e in s.bus && s'.hubs == s.hubs
    requires s'.bus == s.bus - multiset{e} + multiset{Reply(e.target, e.source, e.inst, e.cid, NO_TUNNEL)}
    ensures Inv(s') && Kept(s, s')
  {
    var live, reply := Alive(s.hubs), Reply(e.target, e.source, e.inst, e.cid, NO_TUNNEL);
    assert Kept(s, s');
    LiveRuns(s.hubs);
    TakeKeeps(live, s.bus, e);
    forall x | x in live && live[x].rid == e.cid ensures Awaits(live[x], reply) {
      assert Awaits(live[x], e);
    }
    hide HubInv, TwoEnds, OneEnvelope, Awaits, Kept;
    GainKeeps(live, s.bus - multiset{e}, reply);
  }

  lemma ReplyArrives(s: Cluster, s': Cluster, e: Envelope)
    requires Inv(s) && e in s.bus && e.Reply? && e.target in s.hubs && s'.bus == s.bus - multiset{e}
    requires s'.hubs == s.hubs[e.target := HandleReply(s.hubs[e.target], e.cid, e.frame)]
    ensures Inv(s') && Kept(s, s')
  {
    var h := s.hubs[e.target];
    if e.cid in h.cross {
      assert Where(e.target, h.cross[e.cid]) in Alive(s.hubs);
      assert Awaits(h.tasks[h.cross[e.cid]], e);
    }
    hide HubInv, TwoEnds, OneEnvelope, Kept;
    HandleReplyQuiet(h, e.cid, e.frame);
    QuietStep(s, s', e.target, HandleReply(h, e.cid, e.frame));
  }

  /** Whatever an envelope does where it arrives keeps the invariant. */
  lemma DeliverKeeps(s: Cluster, a: Step)
    requires Inv(s) && a.Deliver? && Enabled(s, a)
    ensures Inv(Next(s, a)) && Kept(s, Next(s, a))
  {
    var s' := Next(s, a);
    hide HubInv, TwoEnds, OneEnvelope, OpenOnConn, HandleReply, Kept;
    if a.e.Reply? {
      ReplyArrives(s, s', a.e);
    } else if a.e.inst in s.hubs[a.e.target].installs {
      LegOpens(s, s', a.e, a.tid);
    } else {
      Bounces(s, s', a.e);
    }
  }

  /** A step that leaves the hubs alone and puts nothing on the bus. */
  lemma HubsAlone(s: Cluster, s': Cluster)
    requires Inv(s) && s'.hubs == s.hubs && s'.bus <= s.bus
    ensures Inv(s') && Kept(s, s')
  {
    LiveRuns(s.hubs);
    assert Kept(s, s');
    hide HubInv, TwoEnds, OneEnvelope, Kept, Alive, TasksKept;
    ShrinkKeeps(Alive(s.hubs), Alive(s'.hubs), s.bus, s'.bus);
  }

  lemma VisitKeeps(s: Cluster, a: Step)
    requires Inv(s) && a.Visit? && Enabled(s, a)
    ensures Inv(Next(s, a)) && Kept(s, Next(s, a))
  {
    hide TwoEnds, OneEnvelope, Kept, Drop, Quiet, HubInv;
    var s' := Next(s, a);
    var h := s.hubs[a.n];
    if HeartbeatOwned(s.registry, a.n, a.inst, s.now) {
      HubsAlone(s, s');
    } else {
      DropQuiet(h, a.inst, h.installs[a.inst]);
      QuietStep(s, s', a.n, s'.hubs[a.n]);
    }
  }

  lemma SentStepKeeps(s: Cluster, a: Step)
    requires Inv(s) && Enabled(s, a) && a.FrameSent?
    ensures Inv(Next(s, a)) && Kept(s, Next(s, a))
  {
    hide HubInv, Quiet, TwoEnds, OneEnvelope, Kept, Alive, OnlyTouches;
    var h, due := s.hubs[a.n], s.now + s.timeout;
    SentQuiet(h, a.tid, 0, due);
    hide Sent, InFlight, RegistryStep, ReleasesStep;
    QuietStep(s, Next(s, a), a.n, Sent(h, a.tid, 0, due));
  }

  lemma FailedStepKeeps(s: Cluster, a: Step)
    requires Inv(s) && Enabled(s, a) && a.FrameFailed?
    ensures Inv(Next(s, a)) && Kept(s, Next(s, a))
  {
    hide Inv, Kept, Finish;
    assert s.bus + multiset{} == s.bus;
    EndKeeps(s, Next(s, a), a.n, a.tid, SendFailed, false, false);
  }

  lemma ResumesRight(s: Cluster, n: string, tid: nat)
    requires Inv(s) && RunningAt(s, n, tid) && TaskAt(s, n, tid).future.Settled?
    ensures RightFrame(TaskAt(s, n, tid), TaskAt(s, n, tid).future.outcome)
  {
    hide TwoEnds, OneEnvelope;
    assert GoodTask(s.hubs[n].tasks[tid]);
  }

  lemma WaitStepKeeps(s: Cluster, a: Step)
    requires Inv(s) && Enabled(s, a) && (a.Expire? || a.Resume?)
    ensures Inv(Next(s, a)) && Kept(s, Next(s, a))
  {
    hide Inv, Kept, Finish, LegReply;
    var k := s.hubs[a.n].tasks[a.tid];
    if a.Expire? {
      assert RightFrame(k, TimedOut);
      hide RightFrame;
      EndKeeps(s, Next(s, a), a.n, a.tid, TimedOut, false, a.lost);
    } else {
      ResumesRight(s, a.n, a.tid);
      hide RightFrame;
      EndKeeps(s, Next(s, a), a.n, a.tid, k.future.outcome, a.oversize, a.lost);
    }
  }

  lemma SocketStepKeeps(s: Cluster, a: Step)
    requires Inv(s) && Enabled(s, a) && (a.Open? || a.Close? || a.TunnelAnswers?)
    ensures Inv(Next(s, a)) && Kept(s, Next(s, a))
  {
    var h := s.hubs[a.n];
    hide HubInv, TwoEnds, OneEnvelope, Kept, Quiet;
    if a.Open? {
      ConnectQuiet(h, a.conn);
      QuietStep(s, Next(s, a), a.n, Connect(h, a.conn));
    } else if a.Close? {
      DropQuiet(h, a.inst, a.conn);
      QuietStep(s, Next(s, a), a.n, Drop(h, a.inst, a.conn));
    } else {
      ResolveQuiet(h, a.inst, a.frame.requestId, a.frame);
      QuietStep(s, Next(s, a), a.n, Resolve(h, a.inst, a.frame.requestId, a.frame));
    }
  }

  /** While ids are fresh every step keeps the invariant, and never completes a future or ends a request a
      second time. */
  lemma StepKeeps(s: Cluster, a: Step)
    requires Inv(s) && Enabled(s, a) && Fresh(s, a)
    ensures Inv(Next(s, a)) && Kept(s, Next(s, a))
  {
    if a.Open? || a.Close? || a.TunnelAnswers? {
      SocketStepKeeps(s, a);
    } else if a.FrameSent? {
      SentStepKeeps(s, a);
    } else if a.FrameFailed? {
      FailedStepKeeps(s, a);
    } else if a.Expire? || a.Resume? {
      WaitStepKeeps(s, a);
    } else if a.Visit? {
      VisitKeeps(s, a);
    } else if a.Start? {
      StartKeeps(s, a);
    } else if a.Published? {
      PublishKeeps(s, a);
    } else if a.PublishFailed? {
      PublishFailedKeeps(s, a);
    } else if a.Deliver? {
      DeliverKeeps(s, a);
    } else {
      hide Inv, Kept;
      HubsAlone(s, Next(s, a));
    }
  }
}
