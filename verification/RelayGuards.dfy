/** When ids may be shared: the exact condition, step by step and over runs, under which every hub stays sound. */
module RelayGuards {
  import opened Wrappers
  import opened RelayRegistry
  import opened RelayRouting
  import opened RelayCluster

  /** What has to hold where the step happens: a start finds its key free, a leg its slot, and a reply
      carries an error, comes too late, or is the response to the request that waits under its id. */
  predicate Guard(s: Cluster, a: Step)
    requires Enabled(s, a)
  {
    match a
    case Start(n, _, inst, rid, oversize) =>
      KeyIsFree(s.hubs[n], n, OwnerOf(s.registry, inst, s.now), true, inst, rid, oversize)
    case Deliver(e, _) =>
      var h := s.hubs[e.target];
      if e.Reply? then ReplyFits(h, e.cid, e.frame)
      else e.inst in h.installs ==> Slot(h.installs[e.inst], e.cid) !in h.pending
    case _ => true
  }

  /** The same, as the node can tell: of a reply it sees the installation that the envelope names, not where the
      frame came from. */
  predicate NodeCheck(s: Cluster, a: Step)
    requires Enabled(s, a)
  {
    if a.Deliver? && a.e.Reply? then
      var h := s.hubs[a.e.target];
      (a.e.cid in h.cross && h.cross[a.e.cid] in h.tasks && h.tasks[h.cross[a.e.cid]].future.Waiting?
       && a.e.frame.relayError == "") ==> h.tasks[h.cross[a.e.cid]].inst == a.e.inst
    else Guard(s, a)
  }

  /** Each reply under way carries an error or a response of the installation and under the id that it names. */
  ghost predicate BusRight(bus: multiset<Envelope>) {
    forall e | e in bus :: RightReply(e)
  }

  lemma NodeCanCheck(s: Cluster, a: Step)
    requires BusRight(s.bus) && Enabled(s, a)
    ensures NodeCheck(s, a) <==> Guard(s, a)
  {
    if a.Deliver? && a.e.Reply? {
      assert RightReply(a.e);
    }
  }

  lemma OneMoreRight(bus: multiset<Envelope>, e: Envelope)
    requires BusRight(bus) && RightReply(e)
    ensures BusRight(bus + multiset{e})
  {
    hide RightReply;
  }

  lemma FewerRight(bus: multiset<Envelope>, e: Envelope)
    requires BusRight(bus)
    ensures BusRight(bus - multiset{e})
  {
    hide RightReply;
  }

  lemma LegReplyRight(bus: multiset<Envelope>, n: string, k: Task, o: Outcome, oversize: bool, lost: bool)
    requires BusRight(bus) && RightFrame(k, o)
    ensures BusRight(bus + LegReply(n, k, o, oversize, lost))
  {
    if k.role.Remote? && !lost && !o.SendFailed? {
      var frame := match o
        case Response(f) => if oversize then OVERSIZE_FRAME else f
        case TimedOut => TIMEOUT_FRAME
        case _ => NO_TUNNEL;
      var e := Reply(n, k.role.source, k.inst, k.rid, frame);
      assert ReplyTo(n, k, o, oversize) == multiset{e};
      ReplyIsRight(n, k, o, oversize, e);
      OneMoreRight(bus, e);
    } else {
      assert bus + multiset{} == bus;
    }
  }

  /** Sound hubs put nothing else on the bus, guarded or not. */
  lemma BusStaysRight(s: Cluster, a: Step)
    requires HubsOk(s) && BusRight(s.bus) && Enabled(s, a)
    ensures BusRight(Next(s, a).bus)
  {
    hide HubsOk, RightReply, RightFrame, LegReply, RegistryStep, HubsStep, ReleasesStep, BusRight;
    match a
    case Published(n, tid) => OneMoreRight(s.bus, RequestOf(s, n, tid));
    case PublishFailed(n, tid, _) => OneMoreRight(s.bus, RequestOf(s, n, tid));
    case Expire(n, tid, lost) =>
      assert RightFrame(TaskAt(s, n, tid), TimedOut) by { RightOutcome(s, n, tid, TimedOut); }
      LegReplyRight(s.bus, n, TaskAt(s, n, tid), TimedOut, false, lost);
    case Resume(n, tid, oversize, lost) =>
      var o := TaskAt(s, n, tid).future.outcome;
      RightOutcome(s, n, tid, o);
      LegReplyRight(s.bus, n, TaskAt(s, n, tid), o, oversize, lost);
    case Deliver(e, _) =>
      FewerRight(s.bus, e);
      OneMoreRight(s.bus - multiset{e}, Bounce(e));
    case Lose(e) => FewerRight(s.bus, e);
    case _ =>
  }

  function RequestOf(s: Cluster, n: string, tid: nat): (e: Envelope)
    requires RunningAt(s, n, tid) && TaskAt(s, n, tid).role.Cross?
    ensures RightReply(e)
  {
    Request(n, TaskAt(s, n, tid).role.owner, TaskAt(s, n, tid).inst, TaskAt(s, n, tid).rid)
  }

  function Bounce(e: Envelope): (r: Envelope)
    ensures RightReply(r)
  {
    Reply(e.target, e.source, e.inst, e.cid, NO_TUNNEL)
  }

  lemma RightOutcome(s: Cluster, n: string, tid: nat, o: Outcome)
    requires HubsOk(s) && RunningAt(s, n, tid)
    requires o.TimedOut? || (TaskAt(s, n, tid).future.Settled? && o == TaskAt(s, n, tid).future.outcome)
    ensures RightFrame(TaskAt(s, n, tid), o)
  {
    assert GoodTask(TaskAt(s, n, tid));
  }

  // ---- A guarded step keeps every hub sound ----------------------------------------------------------

  lemma HubSound(s: Cluster, n: string)
    requires HubsOk(s) && n in s.hubs
    ensures HubInv(s.hubs[n])
  {
  }

  lemma QuietSound(s: Cluster, s': Cluster, n: string, h': Hub)
    requires HubsOk(s) && n in s.hubs && s'.hubs == s.hubs[n := h'] && Quiet(s.hubs[n], h')
    ensures HubsOk(s') && Kept(s, s')
  {
    QuietIsSound(s.hubs[n], h');
    hide Quiet, Kept, HubInv, TasksKept;
    HubChanges(s, s', n, h');
  }

  lemma SameHubsSound(s: Cluster, s': Cluster)
    requires HubsOk(s) && s'.hubs == s.hubs
    ensures HubsOk(s') && Kept(s, s')
  {
    hide HubInv;
  }

  lemma SocketSound(s: Cluster, a: Step)
    requires HubsOk(s) && Enabled(s, a) && (a.Open? || a.Close? || a.TunnelAnswers?)
    ensures HubsOk(Next(s, a)) && Kept(s, Next(s, a))
  {
    var h := s.hubs[a.n];
    HubSound(s, a.n);
    hide HubsOk, HubInv, Kept, Quiet, OnlyTouches, RegistryStep, ReleasesStep;
    if a.Open? {
      ConnectQuiet(h, a.conn);
      QuietSound(s, Next(s, a), a.n, Connect(h, a.conn));
    } else if a.Close? {
      DropQuiet(h, a.inst, a.conn);
      QuietSound(s, Next(s, a), a.n, Drop(h, a.inst, a.conn));
    } else {
      ResolveQuiet(h, a.inst, a.frame.requestId, a.frame);
      QuietSound(s, Next(s, a), a.n, Resolve(h, a.inst, a.frame.requestId, a.frame));
    }
  }

  lemma VisitSound(s: Cluster, a: Step)
    requires HubsOk(s) && Enabled(s, a) && a.Visit?
    ensures HubsOk(Next(s, a)) && Kept(s, Next(s, a))
  {
    var h := s.hubs[a.n];
    HubSound(s, a.n);
    hide HubsOk, HubInv, Kept, Quiet, OnlyTouches, Drop;
    if HeartbeatOwned(s.registry, a.n, a.inst, s.now) {
      SameHubsSound(s, Next(s, a));
    } else {
      DropQuiet(h, a.inst, h.installs[a.inst]);
      QuietSound(s, Next(s, a), a.n, Drop(h, a.inst, h.installs[a.inst]));
    }
  }

  lemma SendSound(s: Cluster, a: Step)
    requires HubsOk(s) && Enabled(s, a) && (a.FrameSent? || a.Published?)
    ensures HubsOk(Next(s, a)) && Kept(s, Next(s, a))
  {
    var h, due := s.hubs[a.n], s.now + s.timeout;
    NotPublishedYet(s, a.n, a.tid);
    HubSound(s, a.n);
    hide HubsOk, HubInv, Kept, Quiet, OnlyTouches, RegistryStep, ReleasesStep;
    var published := if a.Published? then 1 else 0;
    SentQuiet(h, a.tid, published, due);
    hide Sent;
    QuietSound(s, Next(s, a), a.n, Sent(h, a.tid, published, due));
  }

  lemma EndSound(s: Cluster, a: Step)
    requires HubsOk(s) && Enabled(s, a) && (a.FrameFailed? || a.PublishFailed? || a.Expire? || a.Resume?)
    ensures HubsOk(Next(s, a)) && Kept(s, Next(s, a))
  {
    var h := s.hubs[a.n];
    HubSound(s, a.n);
    var o := if a.FrameFailed? then SendFailed else if a.PublishFailed? then Unavailable
             else if a.Expire? then TimedOut else h.tasks[a.tid].future.outcome;
    assert RightFrame(h.tasks[a.tid], o) by { assert GoodTask(h.tasks[a.tid]); }
    hide HubsOk, HubInv, Kept, Quiet, OnlyTouches, Finish, RightFrame, GoodTask, BusStep, RegistryStep, ReleasesStep;
    FinishQuiet(h, a.tid, o);
    QuietSound(s, Next(s, a), a.n, Finish(h, a.tid, o));
  }

  lemma StartSound(s: Cluster, a: Step)
    requires HubsOk(s) && Enabled(s, a) && a.Start? && Guard(s, a)
    ensures HubsOk(Next(s, a)) && Kept(s, Next(s, a))
  {
    var h, owner := s.hubs[a.n], OwnerOf(s.registry, a.inst, s.now);
    HubSound(s, a.n);
    hide HubsOk, HubInv, Kept, TasksKept, KeyIsFree, Begin, OwnerOf, RegistryStep;
    BeginKeeps(h, a.n, owner, true, a.tid, a.inst, a.rid, a.oversize);
    HubChanges(s, Next(s, a), a.n, Begin(h, a.n, owner, true, a.tid, a.inst, a.rid, a.oversize));
  }

  lemma DeliverSound(s: Cluster, a: Step)
    requires HubsOk(s) && Enabled(s, a) && a.Deliver? && Guard(s, a)
    ensures HubsOk(Next(s, a)) && Kept(s, Next(s, a))
  {
    var e, h := a.e, s.hubs[a.e.target];
    HubSound(s, e.target);
    assert forall i | i in h.installs :: h.installs[i].inst == i;
    hide HubsOk, HubInv, Kept, TasksKept, Quiet, OnlyTouches, HandleReply, OpenOnConn, ReplyFits, BusStep;
    if e.Reply? {
      HandleReplyQuiet(h, e.cid, e.frame);
      QuietSound(s, Next(s, a), e.target, HandleReply(h, e.cid, e.frame));
    } else if e.inst in h.installs {
      var role := Remote(h.installs[e.inst], e.source);
      OpenKeeps(h, a.tid, role, e.inst, e.cid);
      HubChanges(s, Next(s, a), e.target, OpenOnConn(h, a.tid, role, e.inst, e.cid));
    } else {
      SameHubsSound(s, Next(s, a));
    }
  }

  lemma GuardKeeps(s: Cluster, a: Step)
    requires HubsOk(s) && Enabled(s, a) && Guard(s, a)
    ensures HubsOk(Next(s, a)) && Kept(s, Next(s, a))
  {
    if a.Start? {
      StartSound(s, a);
    } else if a.Deliver? {
      DeliverSound(s, a);
    } else if a.Open? || a.Close? || a.TunnelAnswers? {
      SocketSound(s, a);
    } else if a.Visit? {
      VisitSound(s, a);
    } else if a.FrameSent? || a.Published? {
      SendSound(s, a);
    } else if a.Tick? || a.LetGo? || a.Lose? {
      SameHubsSound(s, Next(s, a));
    } else {
      EndSound(s, a);
    }
  }

  // ---- An unguarded step breaks one -------------------------------------------------------------------

  /** A coroutine that still runs although no entry leads to it, so that no response can reach it. */
  predicate Stranded(h: Hub, t: nat) {
    Running(h, t) && !Registered(h, t)
  }

  /** A request whose result is a response to another one, or from another installation. */
  predicate Misled(h: Hub, t: nat) {
    t in h.tasks && h.tasks[t].future.Settled? && !RightFrame(h.tasks[t], h.tasks[t].future.outcome)
  }

  /** A step whose guard fails strands one request or misleads one, at once. */
  lemma GuardMissed(s: Cluster, a: Step) returns (n: string, t: nat)
    requires HubsOk(s) && Enabled(s, a) && !Guard(s, a)
    ensures n in Next(s, a).hubs && (Stranded(Next(s, a).hubs[n], t) || Misled(Next(s, a).hubs[n], t))
  {
    n := if a.Start? then a.n else a.e.target;
    var h := s.hubs[n];
    HubSound(s, n);
    hide HubsOk, HubInv, RegistryStep, BusStep, Registered, RightFrame;
    if a.Start? {
      t := if a.inst in h.installs then h.pending[Slot(h.installs[a.inst], a.rid)] else h.cross[a.rid];
      StartTakesEntry(h, n, OwnerOf(s.registry, a.inst, s.now), true, a.tid, a.inst, a.rid, a.oversize);
    } else if a.e.Reply? {
      t := h.cross[a.e.cid];
      MisfitIsTaken(h, a.e.cid, a.e.frame);
    } else {
      t := h.pending[Slot(h.installs[a.e.inst], a.e.cid)];
      OpenTakesEntry(h, a.tid, Remote(h.installs[a.e.inst], a.e.source), a.e.inst, a.e.cid);
    }
  }

  lemma SoundHasNone(h: Hub, t: nat)
    requires HubInv(h)
    ensures !Stranded(h, t) && !Misled(h, t)
  {
    assert t in h.tasks ==> GoodTask(h.tasks[t]);
  }

  /** From sound hubs a step leaves every hub sound if and only if its guard holds. */
  lemma GuardExactly(s: Cluster, a: Step)
    requires HubsOk(s) && Enabled(s, a)
    ensures HubsOk(Next(s, a)) <==> Guard(s, a)
  {
    hide HubInv, Stranded, Misled, Next, Enabled;
    if Guard(s, a) {
      GuardKeeps(s, a);
    } else {
      var n, t := GuardMissed(s, a);
      if HubInv(Next(s, a).hubs[n]) {
        SoundHasNone(Next(s, a).hubs[n], t);
      }
    }
  }

  /** A start under an id that is not in flight anywhere, and every other step of a cluster in which all were,
      meets its guard. */
  lemma FreshIsGuarded(s: Cluster, a: Step)
    requires Inv(s) && Enabled(s, a) && Fresh(s, a)
    ensures Guard(s, a)
  {
    hide HubsOk, TwoEnds, OneEnvelope, Guard, Next, Enabled, Fresh, Kept;
    StepKeeps(s, a);
    GuardExactly(s, a);
  }
}
