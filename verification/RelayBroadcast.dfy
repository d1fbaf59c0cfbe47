/** Office -> Field invalidations: fan-out to the devices of one installation on every relay node. */
module RelayBroadcast {
  import opened Wrappers
  import opened RelayWire

  /** A paired mobile socket: connected to `node`, for `inst`, under a connection key made fresh for it. */
  datatype Device = Device(node: string, inst: string, key: string)

  datatype Stage = Announced | Accepted | Rejected

  /** What awaiting the publish showed: done in time, not in time, or an error. */
  datatype Publish = Took | TookTooLate | Failed

  /** Whether a broadcast is accepted. Without a transport local delivery is all there is to do. */
  predicate Accepts(multiNode: bool, oversize: bool, publish: Publish) {
    !multiNode || (!oversize && publish.Took?)
  }

  /** One call of `broadcast`. `taken` says whether the broker has it: that can be so before the call learns of
      it, and even though the call gave up waiting. `audience` records the devices connected when it began. */
  datatype Publication = Publication(origin: string, inst: string, oversize: bool, taken: bool, stage: Stage,
                                     audience: set<Device>)

  datatype Receipt = Receipt(device: Device, pub: nat)

  datatype Job = Job(node: string, pub: nat)

  /** `queue` holds the bus's undelivered handler calls; `log` counts frames received. */
  datatype Fabric = Fabric(multiNode: bool, nodes: set<string>, connected: set<Device>, used: set<Device>,
                           pubs: map<nat, Publication>, queue: set<Job>, log: multiset<Receipt>)

  datatype Step =
    | Join(d: Device)
    | Leave(d: Device)
    | Announce(p: nat, origin: string, inst: string, oversize: bool)   // broadcast: local delivery
    | Take(p: nat)                                                     // the broker takes the publication
    | Return(p: nat, publish: Publish)                                 // broadcast: its result
    | Handle(n: string, p: nat)                                        // _on_broadcast at node n

  /** A publish that came back in time was taken by the broker; nothing is assumed of any other. */
  predicate Enabled(s: Fabric, a: Step) {
    match a
    case Join(d) => d !in s.used && d.node in s.nodes
    case Leave(d) => d in s.connected
    case Announce(p, origin, _, _) => p !in s.pubs && origin in s.nodes
    case Take(p) => s.multiNode && p in s.pubs && !s.pubs[p].oversize && !s.pubs[p].taken
    case Return(p, publish) =>
      && p in s.pubs && s.pubs[p].stage.Announced?
      && (s.multiNode && !s.pubs[p].oversize && publish.Took? ==> s.pubs[p].taken)
    case Handle(n, p) => Job(n, p) in s.queue && p in s.pubs
  }

  function Targets(s: Fabric, n: string, inst: string): set<Device> {
    set d | d in s.connected && d.node == n && d.inst == inst
  }

  /** One frame of publication `p` for each device. */
  function Frames(ds: set<Device>, p: nat): multiset<Receipt> {
    multiset(set d | d in ds :: Receipt(d, p))
  }

  function Next(s: Fabric, a: Step): Fabric
    requires Enabled(s, a)
  {
    match a
    case Join(d) => s.(connected := s.connected + {d}, used := s.used + {d})
    case Leave(d) => s.(connected := s.connected - {d})
    case Announce(p, origin, inst, oversize) =>
      s.(log := s.log + Frames(Targets(s, origin, inst), p),
         pubs := s.pubs[p := Publication(origin, inst, oversize, false, Announced,
                                         set d | d in s.connected && d.inst == inst)])
    case Take(p) =>
      s.(pubs := s.pubs[p := s.pubs[p].(taken := true)], queue := s.queue + set n | n in s.nodes :: Job(n, p))
    case Return(p, publish) =>
      s.(pubs := s.pubs[p := s.pubs[p].(stage := if Accepts(s.multiNode, s.pubs[p].oversize, publish) then Stage.Accepted
                                                 else Stage.Rejected)])
    case Handle(n, p) =>
      var s1 := s.(queue := s.queue - {Job(n, p)});
      if s.pubs[p].origin == n then s1 else s1.(log := s.log + Frames(Targets(s, n, s.pubs[p].inst), p))
  }

  predicate Initial(s: Fabric) {
    && s.connected == {} && s.used == {} && s.pubs == map[] && s.queue == {} && s.log == multiset{}
    && (!s.multiNode ==> |s.nodes| == 1)
  }

  ghost predicate Legal(s: Fabric, run: seq<Step>)
    decreases |run|
  {
    run == [] || (Enabled(s, run[0]) && Legal(Next(s, run[0]), run[1..]))
  }

  ghost function After(s: Fabric, run: seq<Step>): Fabric
    requires Legal(s, run)
    decreases |run|
  {
    if run == [] then s else After(Next(s, run[0]), run[1..])
  }

  /** Still to come from the bus: the handler at the device's node, which the origin drops as its echo. */
  predicate Due(s: Fabric, d: Device, p: nat)
    requires p in s.pubs
  {
    Job(d.node, p) in s.queue && d.node != s.pubs[p].origin
  }

  predicate Owed(s: Fabric, d: Device, p: nat)
    requires p in s.pubs
  {
    d in s.pubs[p].audience && d in s.connected && (d.node == s.pubs[p].origin || s.pubs[p].taken)
  }

  /** Only devices of the installation it was for receive a publication. */
  ghost predicate LogRight(log: multiset<Receipt>, pubs: map<nat, Publication>) {
    forall r | r in log :: r.pub in pubs && r.device.inst == pubs[r.pub].inst
  }

  ghost predicate DevicesOk(s: Fabric) {
    && s.connected <= s.used
    && (forall d | d in s.used :: d.node in s.nodes)
    && (forall p, d | p in s.pubs && d in s.pubs[p].audience :: d in s.used && d.inst == s.pubs[p].inst)
    && LogRight(s.log, s.pubs)
  }

  ghost predicate PubsOk(s: Fabric) {
    && (forall j | j in s.queue :: j.pub in s.pubs && s.pubs[j.pub].taken)
    && (forall p | p in s.pubs :: s.pubs[p].origin in s.nodes)
    && (forall p | p in s.pubs && s.pubs[p].stage.Accepted? && s.multiNode :: s.pubs[p].taken && !s.pubs[p].oversize)
    && (!s.multiNode ==> forall n, m | n in s.nodes && m in s.nodes :: n == m)
  }

  /** Received and still due never exceed one; for a device owed the publication they make exactly one. */
  predicate Fair(s: Fabric, d: Device, p: nat)
    requires p in s.pubs
  {
    var total := s.log[Receipt(d, p)] + (if Due(s, d, p) then 1 else 0);
    && total <= 1
    && (Owed(s, d, p) ==> total == 1)
    && (!s.pubs[p].taken && d.node != s.pubs[p].origin ==> total == 0)
  }

  ghost predicate Inv(s: Fabric) {
    DevicesOk(s) && PubsOk(s) && forall d, p | p in s.pubs :: Fair(s, d, p)
  }

  lemma FramesCount(ds: set<Device>, p: nat)
    ensures forall r :: Frames(ds, p)[r] == if r.pub == p && r.device in ds then 1 else 0
  {
    var got := set d | d in ds :: Receipt(d, p);
    forall r ensures r in got <==> r.pub == p && r.device in ds {}
  }

  lemma AnnounceFair(s: Fabric, a: Step, d: Device, q: nat)
    requires Inv(s) && a.Announce? && Enabled(s, a) && (q == a.p || q in s.pubs)
    ensures Fair(Next(s, a), d, q)
  {
    FramesCount(Targets(s, a.origin, a.inst), a.p);
    hide Frames;
    if q == a.p {
      assert Receipt(d, q) !in s.log && Job(d.node, q) !in s.queue;
    } else {
      assert Fair(s, d, q);
    }
  }

  lemma LogOk(s: Fabric, log: multiset<Receipt>, pubs: map<nat, Publication>, ds: set<Device>, p: nat)
    requires LogRight(s.log, pubs)
    requires p in pubs && forall d | d in ds :: d.inst == pubs[p].inst
    requires log == s.log + Frames(ds, p)
    ensures LogRight(log, pubs)
  {
    FramesCount(ds, p);
    hide Frames;
    forall r | r in log ensures r in s.log || (r.pub == p && r.device in ds) {}
  }

  lemma AnnounceKeeps(s: Fabric, a: Step)
    requires Inv(s) && a.Announce? && Enabled(s, a)
    ensures Inv(Next(s, a))
  {
    var s' := Next(s, a);
    forall d, q | q in s'.pubs ensures Fair(s', d, q) {
      AnnounceFair(s, a, d, q);
    }
    hide Fair;
    LogOk(s, s'.log, s'.pubs, Targets(s, a.origin, a.inst), a.p);
    hide Frames;
    assert PubsOk(s') by { hide DevicesOk; }
    hide PubsOk;
  }

  lemma TakeKeeps(s: Fabric, p: nat)
    requires Inv(s) && Enabled(s, Take(p))
    ensures Inv(Next(s, Take(p)))
  {
    var s' := Next(s, Take(p));
    forall j ensures j in s'.queue <==> j in s.queue || (j.pub == p && j.node in s.nodes) {}
    forall d, q | q in s'.pubs ensures Fair(s', d, q) {
      assert Fair(s, d, q);
    }
    hide Fair;
  }

  lemma HandleFair(s: Fabric, n: string, p: nat, d: Device, q: nat)
    requires Inv(s) && Enabled(s, Handle(n, p)) && q in s.pubs
    ensures Fair(Next(s, Handle(n, p)), d, q)
  {
    var s' := Next(s, Handle(n, p));
    assert Fair(s, d, q) && s.pubs[p].taken;
    FramesCount(Targets(s, n, s.pubs[p].inst), p);
    hide Frames;
    if q == p && d.node == n && s.pubs[p].origin != n {
      assert Due(s, d, p) && !Due(s', d, p);
      assert Owed(s', d, p) ==> d in Targets(s, n, s.pubs[p].inst);
    } else {
      assert Due(s', d, q) == Due(s, d, q);
      assert s'.log[Receipt(d, q)] == s.log[Receipt(d, q)];
    }
  }

  /** A handler call ends what was due at its node, gives the frame to each device connected there for the
      installation, and changes nothing for any other device or publication. */
  lemma HandleMoves(s: Fabric, n: string, p: nat, d: Device, q: nat)
    requires Enabled(s, Handle(n, p)) && q in s.pubs
    ensures Due(Next(s, Handle(n, p)), d, q) == (Due(s, d, q) && !(q == p && d.node == n))
    ensures Next(s, Handle(n, p)).log[Receipt(d, q)] ==
            s.log[Receipt(d, q)] + if q == p && n != s.pubs[p].origin && d in Targets(s, n, s.pubs[p].inst) then 1 else 0
  {
    FramesCount(Targets(s, n, s.pubs[p].inst), p);
    hide Frames;
  }

  lemma HandleKeeps(s: Fabric, n: string, p: nat)
    requires Inv(s) && Enabled(s, Handle(n, p))
    ensures Inv(Next(s, Handle(n, p)))
  {
    var s' := Next(s, Handle(n, p));
    forall d, q | q in s'.pubs ensures Fair(s', d, q) {
      HandleFair(s, n, p, d, q);
    }
    hide Fair;
    if s.pubs[p].origin != n {
      LogOk(s, s'.log, s'.pubs, Targets(s, n, s.pubs[p].inst), p);
    }
    hide Frames;
    assert PubsOk(s') by { hide DevicesOk; }
    hide PubsOk;
  }

  lemma QuietKeeps(s: Fabric, a: Step)
    requires Inv(s) && Enabled(s, a) && (a.Join? || a.Leave? || a.Return?)
    ensures Inv(Next(s, a))
  {
    hide Next, Enabled, Fair, DevicesOk, PubsOk;
    QuietEntries(s, a);
    forall d, q | q in Next(s, a).pubs ensures Fair(Next(s, a), d, q) {
      QuietFair(s, a, d, q);
    }
  }

  lemma QuietEntries(s: Fabric, a: Step)
    requires DevicesOk(s) && PubsOk(s) && Enabled(s, a) && (a.Join? || a.Leave? || a.Return?)
    ensures DevicesOk(Next(s, a)) && PubsOk(Next(s, a)) && Next(s, a).pubs.Keys == s.pubs.Keys
  {
    QuietPubs(s, a);
    hide PubsOk;
    if a.Return? {
      assert LogRight(s.log, Next(s, a).pubs);
      hide LogRight;
    } else {
      hide LogRight;
    }
  }

  lemma QuietPubs(s: Fabric, a: Step)
    requires PubsOk(s) && Enabled(s, a) && (a.Join? || a.Leave? || a.Return?)
    ensures PubsOk(Next(s, a))
  {
    hide Frames, Targets;
  }

  lemma QuietFair(s: Fabric, a: Step, d: Device, q: nat)
    requires Inv(s) && Enabled(s, a) && (a.Join? || a.Leave? || a.Return?) && q in s.pubs
    ensures Fair(Next(s, a), d, q)
  {
    assert Fair(s, d, q);
    hide Frames, Targets, PubsOk;
  }

  lemma StepKeeps(s: Fabric, a: Step)
    requires Inv(s) && Enabled(s, a)
    ensures Inv(Next(s, a))
  {
    hide Inv, Next;
    if a.Announce? {
      AnnounceKeeps(s, a);
    } else if a.Take? {
      TakeKeeps(s, a.p);
    } else if a.Handle? {
      HandleKeeps(s, a.n, a.p);
    } else {
      QuietKeeps(s, a);
    }
  }

  lemma {:induction false} RunKeeps(s: Fabric, run: seq<Step>)
    requires Inv(s) && Legal(s, run)
    ensures Inv(After(s, run))
    decreases |run|
  {
    hide Inv, Next, Enabled;
    if run != [] {
      StepKeeps(s, run[0]);
      RunKeeps(Next(s, run[0]), run[1..]);
    }
  }

  lemma InitialInv(s: Fabric)
    requires Initial(s)
    ensures Inv(s)
  {
    if !s.multiNode {
      forall n, m | n in s.nodes && m in s.nodes ensures n == m {
        OneNode(s.nodes, n, m);
      }
    }
  }

  lemma OneNode(nodes: set<string>, n: string, m: string)
    requires |nodes| == 1 && n in nodes && m in nodes
    ensures n == m
  {
    var rest := nodes - {n};
    assert |rest| == |nodes| - 1;
    assert rest == {} && nodes == {n} + rest;
  }

  /** What a state of the fabric says of one publication and one device. */
  ghost predicate Settled(s: Fabric, p: nat, d: Device)
    requires p in s.pubs
  {
    && s.log[Receipt(d, p)] <= 1
    && (d.inst != s.pubs[p].inst ==> s.log[Receipt(d, p)] == 0)
    && (s.pubs[p].stage.Accepted? && d in s.pubs[p].audience && d in s.connected && Job(d.node, p) !in s.queue
        ==> s.log[Receipt(d, p)] == 1)
    && (!s.pubs[p].taken && d.node != s.pubs[p].origin ==> s.log[Receipt(d, p)] == 0)
  }

  lemma InvSettles(s: Fabric, p: nat, d: Device)
    requires Inv(s) && p in s.pubs
    ensures Settled(s, p, d)
  {
    assert Fair(s, d, p);
    if Receipt(d, p) in s.log {
      assert d.inst == s.pubs[p].inst;
    }
  }

  /** In every run, an accepted publication has reached each device of its installation that stayed
      connected since before it began exactly once, as soon as the bus has run the handler of that device's
      node. No device receives one publication twice, none of another installation receives it at all, and
      a publication the broker never took reaches no other node; one it took although the call gave up waiting
      does, still at most once. */
  lemma ExactlyOnce(s0: Fabric, run: seq<Step>, p: nat, d: Device)
    requires Initial(s0) && Legal(s0, run) && p in After(s0, run).pubs
    ensures Settled(After(s0, run), p, d)
  {
    InitialInv(s0);
    RunKeeps(s0, run);
    InvSettles(After(s0, run), p, d);
  }

  /** A publication that the broker takes crosses to the devices of the installation on another node as soon as that node
      handles it, and to no device of its own node a second time. */
  lemma CrossesOver(s: Fabric, p: nat, origin: string, inst: string, n: string, d: Device)
    requires s.multiNode && p !in s.pubs && origin in s.nodes && n in s.nodes
    requires d in s.connected && d.inst == inst && (d.node == n || d.node == origin) && s.log[Receipt(d, p)] == 0
    ensures var run := [Announce(p, origin, inst, false), Take(p), Handle(n, p)];
            Legal(s, run) && After(s, run).log[Receipt(d, p)] == 1
  {
    var s1 := Next(s, Announce(p, origin, inst, false));
    var s2 := Next(s1, Take(p));
    assert Enabled(s1, Take(p)) && Enabled(s2, Handle(n, p));
    var s3 := Next(s2, Handle(n, p));
    FramesCount(Targets(s, origin, inst), p);
    FramesCount(Targets(s2, n, inst), p);
    hide Frames;
    MoveFirst(s2, Handle(n, p), []);
    MoveFirst(s1, Take(p), [Handle(n, p)]);
    MoveFirst(s, Announce(p, origin, inst, false), [Take(p), Handle(n, p)]);
    assert [Handle(n, p)] + [] == [Handle(n, p)] && [Take(p)] + [Handle(n, p)] == [Take(p), Handle(n, p)];
    assert [Announce(p, origin, inst, false)] + [Take(p), Handle(n, p)] == [Announce(p, origin, inst, false), Take(p), Handle(n, p)];
  }

  lemma MoveFirst(s: Fabric, a: Step, rest: seq<Step>)
    requires Enabled(s, a) && Legal(Next(s, a), rest)
    ensures Legal(s, [a] + rest) && After(s, [a] + rest) == After(Next(s, a), rest)
  {
    assert ([a] + rest)[1..] == rest;
  }

  lemma {:induction false} PublicationStays(s: Fabric, run: seq<Step>, p: nat)
    requires Legal(s, run) && p in s.pubs
    ensures p in After(s, run).pubs && After(s, run).pubs[p].audience == s.pubs[p].audience
    ensures After(s, run).pubs[p].inst == s.pubs[p].inst
    decreases |run|
  {
    if run != [] {
      assert p in Next(s, run[0]).pubs && Next(s, run[0]).pubs[p].audience == s.pubs[p].audience
             && Next(s, run[0]).pubs[p].inst == s.pubs[p].inst;
      hide Next, Enabled;
      PublicationStays(Next(s, run[0]), run[1..], p);
    }
  }

  /** In terms of the run alone: a device of the installation that is connected when a broadcast begins and still
      is at the end has received it exactly once, if it was accepted and the device's node has handled it. */
  lemma ReachesWhoStayed(s0: Fabric, before: seq<Step>, p: nat, origin: string, inst: string, oversize: bool, rest: seq<Step>,
                         d: Device)
    requires Initial(s0) && Legal(s0, before)
    requires var s := After(s0, before);
             Enabled(s, Announce(p, origin, inst, oversize)) && Legal(Next(s, Announce(p, origin, inst, oversize)), rest)
    requires d in After(s0, before).connected && d.inst == inst
    ensures var end := After(Next(After(s0, before), Announce(p, origin, inst, oversize)), rest);
            && p in end.pubs
            && (end.pubs[p].stage.Accepted? && d in end.connected && Job(d.node, p) !in end.queue ==> end.log[Receipt(d, p)] == 1)
            && end.log[Receipt(d, p)] <= 1
  {
    var s := After(s0, before);
    var s1 := Next(s, Announce(p, origin, inst, oversize));
    assert d in s1.pubs[p].audience;
    hide Next, Enabled, Inv;
    InitialInv(s0);
    RunKeeps(s0, before);
    StepKeeps(s, Announce(p, origin, inst, oversize));
    RunKeeps(s1, rest);
    PublicationStays(s1, rest, p);
    InvSettles(After(s1, rest), p, d);
  }

  /** What taking a publication queues is what the bus schedules for its one handler per node. */
  lemma TakeIsPublish(s: Fabric, p: nat, handlers: seq<string>)
    requires Enabled(s, Take(p))
    requires forall n :: n in handlers <==> n in s.nodes
    requires forall i, j | 0 <= i < j < |handlers| :: handlers[i] != handlers[j]
    ensures var calls := Calls(handlers, p);
            && Next(s, Take(p)).queue == s.queue + (set c | c in calls :: Job(c.handler, c.message))
            && forall i, j | 0 <= i < j < |calls| :: calls[i] != calls[j]
  {
    var calls := Calls(handlers, p);
    forall n ensures n in s.nodes <==> Call(n, p) in calls {
      if n in handlers {
        var i :| 0 <= i < |handlers| && handlers[i] == n;
        assert calls[i] == Call(n, p);
      }
    }
    var jobs := set c | c in calls :: Job(c.handler, c.message);
    forall j ensures j in jobs <==> j.pub == p && j.node in s.nodes {
      if j.pub == p && j.node in s.nodes {
        assert Call(j.node, p) in calls;
      }
    }
  }

  // ---- One node's part of the fabric ----------------------------------------------------------------

  /** What node `node` knows: its connected devices and the frames it has sent them. */
  datatype NodeView = NodeView(node: string, multiNode: bool, connected: set<Device>, sent: multiset<Receipt>)

  datatype NodeOp =
    | Registers(inst: string, key: string)
    | Unregisters(inst: string, key: string)
    | Broadcasts(inst: string, p: nat)
    | Receives(origin: string, inst: string, p: nat)

  function DevicesOf(v: NodeView, inst: string): set<Device> {
    set d | d in v.connected && d.inst == inst
  }

  /** The node's operations, when no send fails. */
  function Perform(v: NodeView, op: NodeOp): NodeView {
    match op
    case Registers(inst, key) => v.(connected := v.connected + {Device(v.node, inst, key)})
    case Unregisters(inst, key) => v.(connected := v.connected - {Device(v.node, inst, key)})
    case Broadcasts(inst, p) => v.(sent := v.sent + Frames(DevicesOf(v, inst), p))
    case Receives(origin, inst, p) => if origin == v.node then v else v.(sent := v.sent + Frames(DevicesOf(v, inst), p))
  }

  /** The operation of node `n` that a step of the fabric is, if it is one of that node's. */
  function OpOf(s: Fabric, n: string, a: Step): Option<NodeOp>
    requires Enabled(s, a)
  {
    match a
    case Join(d) => if d.node == n then Some(Registers(d.inst, d.key)) else None
    case Leave(d) => if d.node == n then Some(Unregisters(d.inst, d.key)) else None
    case Announce(p, origin, inst, _) => if origin == n then Some(Broadcasts(inst, p)) else None
    case Handle(m, p) => if m == n then Some(Receives(s.pubs[p].origin, s.pubs[p].inst, p)) else None
    case _ => None
  }

  /** The view is what the fabric holds at that node. */
  ghost predicate Shows(v: NodeView, s: Fabric) {
    && v.multiNode == s.multiNode
    && (forall d :: d in v.connected <==> d in s.connected && d.node == v.node)
    && (forall r :: v.sent[r] == if r.device.node == v.node then s.log[r] else 0)
  }

  function Follow(s: Fabric, v: NodeView, a: Step): NodeView
    requires Enabled(s, a)
  {
    var op := OpOf(s, v.node, a);
    if op.Some? then Perform(v, op.value) else v
  }

  /** Frames given to the node's own devices show in its view; frames given elsewhere do not. */
  lemma FramesShow(v: NodeView, s: Fabric, node: string, inst: string, p: nat)
    requires Shows(v, s)
    ensures node == v.node ==> Targets(s, node, inst) == DevicesOf(v, inst)
    ensures node != v.node ==> forall r: Receipt | r.device.node == v.node :: Frames(Targets(s, node, inst), p)[r] == 0
    ensures forall r: Receipt | r.device.node != v.node :: Frames(DevicesOf(v, inst), p)[r] == 0
  {
    FramesCount(Targets(s, node, inst), p);
    FramesCount(DevicesOf(v, inst), p);
    hide Frames;
  }

  /** The same frames on both sides, as far as the node is concerned. */
  lemma SentShows(v: NodeView, s: Fabric, v': NodeView, s': Fabric, node: string, inst: string, p: nat)
    requires Shows(v, s) && s'.multiNode == s.multiNode && s'.connected == s.connected
    requires s'.log == s.log + Frames(Targets(s, node, inst), p)
    requires v' == if node == v.node then v.(sent := v.sent + Frames(DevicesOf(v, inst), p)) else v
    ensures Shows(v', s')
  {
    FramesShow(v, s, node, inst, p);
    hide Frames, Targets, DevicesOf;
  }

  /** Each node, doing its own operations, holds its part of the fabric after every step of any node. */
  lemma NodeFollows(s: Fabric, v: NodeView, a: Step)
    requires Enabled(s, a) && Shows(v, s)
    ensures Shows(Follow(s, v, a), Next(s, a))
  {
    if a.Announce? {
      hide Shows, Frames;
      SentShows(v, s, Follow(s, v, a), Next(s, a), a.origin, a.inst, a.p);
    } else if a.Handle? && s.pubs[a.p].origin != a.n {
      hide Shows, Frames;
      SentShows(v, s, Follow(s, v, a), Next(s, a), a.n, s.pubs[a.p].inst, a.p);
    } else {
      SilentShows(s, v, a);
    }
  }

  lemma SilentShows(s: Fabric, v: NodeView, a: Step)
    requires Enabled(s, a) && Shows(v, s) && !a.Announce? && (a.Handle? ==> s.pubs[a.p].origin == a.n)
    ensures Shows(Follow(s, v, a), Next(s, a))
  {
    hide Frames, Targets, DevicesOf, Accepts;
  }

  ghost function FollowAll(s: Fabric, v: NodeView, run: seq<Step>): NodeView
    requires Legal(s, run)
    decreases |run|
  {
    if run == [] then v else FollowAll(Next(s, run[0]), Follow(s, v, run[0]), run[1..])
  }

  /** So over whole runs the fabric is nothing but its nodes' own operations. */
  lemma {:induction false} NodesMakeTheFabric(s: Fabric, v: NodeView, run: seq<Step>)
    requires Legal(s, run) && Shows(v, s)
    ensures Shows(FollowAll(s, v, run), After(s, run))
    decreases |run|
  {
    hide Shows, Follow, Next, Enabled;
    if run != [] {
      NodeFollows(s, v, run[0]);
      NodesMakeTheFabric(Next(s, run[0]), Follow(s, v, run[0]), run[1..]);
    }
  }

  // ---- The hub's device table -------------------------------------------------------------------

  datatype Reason = NoReason | PayloadTooLarge | PublishTimeout | PublishFailed

  datatype BroadcastResult = BroadcastResult(deliveredLocal: nat, accepted: bool, reason: Reason)

  function FramesTo(node: string, inst: string, keys: set<string>, p: nat): multiset<Receipt> {
    Frames(set k | k in keys :: Device(node, inst, k), p)
  }

  lemma OneMoreFrame(node: string, inst: string, keys: set<string>, p: nat, key: string)
    requires key !in keys
    ensures FramesTo(node, inst, keys + {key}, p) == FramesTo(node, inst, keys, p) + multiset{Receipt(Device(node, inst, key), p)}
  {
    var ds, es := set k | k in keys :: Device(node, inst, k), set k | k in keys + {key} :: Device(node, inst, k);
    assert es == ds + {Device(node, inst, key)} && Device(node, inst, key) !in ds;
    FramesCount(ds, p);
    FramesCount(es, p);
    hide Frames;
  }

  /** The part of RelayHub that knows the paired devices of one node. `sent` is what the sockets were given. */
  class DeviceTable {
    const nodeId: string
    const transport: bool
    var devices: map<string, set<string>>
    var sent: multiset<Receipt>
    var acked: seq<string>

    constructor (nodeId: string, transport: bool)
      ensures this.nodeId == nodeId && this.transport == transport && Valid()
      ensures View() == NodeView(nodeId, transport, {}, multiset{}) && acked == []
    {
      this.nodeId, this.transport := nodeId, transport;
      devices, sent, acked := map[], multiset{}, [];
    }

    /** No installation keeps an empty dictionary. */
    ghost predicate Valid()
      reads this
    {
      forall i | i in devices :: devices[i] != {}
    }

    function Connected(inst: string): set<string>
      reads this
    {
      if inst in devices then devices[inst] else {}
    }

    ghost function View(): NodeView
      reads this
    {
      NodeView(nodeId, transport, set i, k | i in devices && k in devices[i] :: Device(nodeId, i, k), sent)
    }

    lemma HoldsExactly()
      ensures forall d :: d in View().connected <==> d.node == nodeId && d.key in Connected(d.inst)
    {
      forall d: Device ensures d == Device(d.node, d.inst, d.key) {}
    }

    method RegisterDevice(inst: string, key: string)
      requires Valid()
      modifies this`devices
      ensures Valid() && View() == Perform(old(View()), Registers(inst, key))
    {
      HoldsExactly();
      ghost var before := View().connected;
      devices := devices[inst := Connected(inst) + {key}];
      HoldsExactly();
      assert View().connected == before + {Device(nodeId, inst, key)};
    }

    method UnregisterDevice(inst: string, key: string)
      requires Valid()
      modifies this`devices
      ensures Valid() && View() == Perform(old(View()), Unregisters(inst, key))
    {
      HoldsExactly();
      ghost var before := View().connected;
      if inst in devices {
        var left := devices[inst] - {key};
        devices := if left == {} then devices - {inst} else devices[inst := left];
      }
      HoldsExactly();
      assert View().connected == before - {Device(nodeId, inst, key)};
    }

    /** Every device of the installation whose send does not fail gets the frame exactly once; a failing
        device stops no other, and nobody else gets anything. */
    method DeliverLocal(inst: string, p: nat, broken: set<string>) returns (delivered: nat)
      modifies this`sent
      ensures delivered == |Connected(inst) - broken|
      ensures sent == old(sent) + FramesTo(nodeId, inst, Connected(inst) - broken, p)
    {
      ghost var all := Connected(inst);
      var todo := Connected(inst);
      ghost var done: set<string> := {};
      delivered := 0;
      assert FramesTo(nodeId, inst, {}, p) == multiset{};
      hide FramesTo;
      while todo != {}
        invariant todo <= all
        invariant forall x :: x in done <==> x in all && x !in todo && x !in broken
        invariant delivered == |done|
        invariant sent == old(sent) + FramesTo(nodeId, inst, done, p)
        decreases todo
      {
        var k :| k in todo;
        todo := todo - {k};
        if k !in broken {
          OneMoreFrame(nodeId, inst, done, p, k);
          sent := sent + multiset{Receipt(Device(nodeId, inst, k), p)};
          delivered := delivered + 1;
          done := done + {k};
        }
      }
      assert done == all - broken;
    }

    lemma LocalFrames(inst: string, p: nat)
      ensures FramesTo(nodeId, inst, Connected(inst), p) == Frames(DevicesOf(View(), inst), p)
    {
      assert (set k | k in Connected(inst) :: Device(nodeId, inst, k)) == DevicesOf(View(), inst);
    }

    /** Local delivery always happens; in multi-node mode acceptance needs the broker. */
    method Broadcast(inst: string, p: nat, broken: set<string>, oversize: bool, publish: Publish)
      returns (r: BroadcastResult)
      modifies this`sent
      ensures r.accepted <==> Accepts(transport, oversize, publish)
      ensures r.accepted <==> !transport || (!oversize && publish.Took?)
      ensures r.accepted <==> r.reason.NoReason?
      ensures r.deliveredLocal == |Connected(inst) - broken|
      ensures sent == old(sent) + FramesTo(nodeId, inst, Connected(inst) - broken, p)
      ensures broken == {} ==> View() == Perform(old(View()), Broadcasts(inst, p))
    {
      LocalFrames(inst, p);
      var n := DeliverLocal(inst, p, broken);
      assert broken == {} ==> Connected(inst) - broken == Connected(inst);
      if !transport {
        return BroadcastResult(n, true, NoReason);
      }
      if oversize {
        return BroadcastResult(n, false, PayloadTooLarge);
      }
      match publish
      case Took => return BroadcastResult(n, true, NoReason);
      case TookTooLate => return BroadcastResult(n, false, PublishTimeout);
      case Failed => return BroadcastResult(n, false, PublishFailed);
    }

    /** The Office connector is sent an acknowledgement exactly when the whole topology took the event; that
        send may itself fail, which ends the caller's loop. */
    method BroadcastAndAck(inst: string, p: nat, eventId: string, broken: set<string>, oversize: bool, publish: Publish,
                           ackFails: bool)
      returns (r: BroadcastResult, raised: bool)
      modifies this`sent, this`acked
      ensures r.accepted <==> Accepts(transport, oversize, publish)
      ensures sent == old(sent) + FramesTo(nodeId, inst, Connected(inst) - broken, p)
      ensures raised <==> r.accepted && ackFails
      ensures acked == old(acked) + if r.accepted && !ackFails then [eventId] else []
    {
      r := Broadcast(inst, p, broken, oversize, publish);
      raised := false;
      if !r.accepted {
        return;
      }
      if ackFails {
        raised := true;
      } else {
        acked := acked + [eventId];
      }
    }

    /** The node's own echo is dropped; any other node's publication is delivered once. */
    method OnBroadcast(origin: string, inst: string, p: nat)
      modifies this`sent
      ensures View() == Perform(old(View()), Receives(origin, inst, p))
    {
      if origin == nodeId {
        return;
      }
      LocalFrames(inst, p);
      var _ := DeliverLocal(inst, p, {});
      assert Connected(inst) - {} == Connected(inst);
    }
  }
}
