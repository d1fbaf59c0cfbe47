/** The durable Office outbox, drained through the tunnel: lease, forward, broadcast over the whole fabric, wait
    for the Relay's acceptance, retire. Rows live in Office, the waiters in the tunnel client; whether a
    broadcast is accepted is decided by the fabric it runs on. */
module RelayOutbox {
  import opened Wrappers
  import F = RelayBroadcast

  type Time = real

  const MAX_LEASE: Time := 300.0

  datatype Row = Row(leasedUntil: Option<Time>, delivered: bool, attempts: nat)

  predicate Leasable(r: Row, now: Time) {
    !r.delivered && (r.leasedUntil.None? || r.leasedUntil.value < now)
  }

  // ---- The tunnel client ---------------------------------------------------------------------------

  /** `waiters` maps an event id to whether its future is resolved; `acked` are the ids to report back. */
  datatype Client = Client(waiters: map<string, bool>, acked: set<string>)

  datatype ClientAct = Sends(id: string) | Hears(id: string) | Confirms(id: string) | GivesUp(id: string) | Reports

  function ClientStep(c: Client, a: ClientAct): Client {
    match a
    case Sends(id) => c.(waiters := c.waiters[id := false])
    case Hears(id) => if id in c.waiters then c.(waiters := c.waiters[id := true]) else c
    case Confirms(id) => Client(c.waiters - {id}, c.acked + {id})
    case GivesUp(id) => c.(waiters := c.waiters - {id})
    case Reports => c.(acked := {})
  }

  // ---- Office, client and fabric together ------------------------------------------------------------

  /** `home` is the node that holds the Office tunnel. `uplink` and `acks` are frames under way on it, `calls`
      the broadcasts that the hub has begun for Office, by publication. */
  datatype Drain = Drain(now: Time, rows: map<string, Row>, client: Client, inst: string, home: string,
                         uplink: set<string>, acks: set<string>, calls: map<nat, string>, fabric: F.Fabric)

  datatype Step =
    | Enqueue(id: string)
    | Lease(ids: set<string>, seconds: Time)
    | Send(id: string)
    | HubBegins(id: string, p: nat, oversize: bool)               // broadcast: local delivery
    | HubEnds(p: nat, publish: F.Publish, ackSent: bool)          // broadcast: its result, and the ack
    | Elsewhere(a: F.Step)                                        // anything else the fabric does
    | AckArrives(id: string)
    | Confirm(id: string)                                         // the waiter's future is resolved
    | GiveUp(id: string)                                          // no acceptance in time
    | Retire(committed: bool)                                     // POST outbox/ack; may fail before or after commit
    | Reconnect(home: string)
    | Tick(to: Time)

  predicate Enabled(s: Drain, a: Step) {
    match a
    case Enqueue(id) => id !in s.rows && id != ""
    case Lease(ids, seconds) => s.client == Client(map[], {}) && 5.0 <= seconds <= MAX_LEASE
                                && forall i | i in ids :: i in s.rows && Leasable(s.rows[i], s.now)
    case Send(id) => id in s.rows && id !in s.client.waiters
    case HubBegins(id, p, oversize) => id in s.uplink && F.Enabled(s.fabric, F.Announce(p, s.home, s.inst, oversize))
    case HubEnds(p, publish, _) => p in s.calls && F.Enabled(s.fabric, F.Return(p, publish))
    case Elsewhere(a) => F.Enabled(s.fabric, a) && (a.Return? ==> a.p !in s.calls)
    case AckArrives(id) => id in s.acks
    case Confirm(id) => id in s.client.waiters && s.client.waiters[id]
    case GiveUp(id) => id in s.client.waiters
    case Retire(_) => true
    case Reconnect(home) => home in s.fabric.nodes
    case Tick(to) => s.now <= to
  }

  function Leased(r: Row, until: Time): Row {
    r.(leasedUntil := Some(until), attempts := r.attempts + 1)
  }

  function Delivered(rows: map<string, Row>, ids: set<string>): map<string, Row> {
    map i | i in rows :: if i in ids then rows[i].(delivered := true) else rows[i]
  }

  function RowsStep(s: Drain, a: Step): map<string, Row>
    requires Enabled(s, a)
  {
    match a
    case Enqueue(id) => s.rows[id := Row(None, false, 0)]
    case Lease(ids, seconds) => map i | i in s.rows :: if i in ids then Leased(s.rows[i], s.now + seconds) else s.rows[i]
    case Retire(committed) => if committed then Delivered(s.rows, s.client.acked) else s.rows
    case _ => s.rows
  }

  function ClientsStep(s: Drain, a: Step): Client
    requires Enabled(s, a)
  {
    match a
    case Send(id) => ClientStep(s.client, Sends(id))
    case AckArrives(id) => ClientStep(s.client, Hears(id))
    case Confirm(id) => ClientStep(s.client, Confirms(id))
    case GiveUp(id) => ClientStep(s.client, GivesUp(id))
    case Retire(_) => ClientStep(s.client, Reports)
    case Reconnect(_) => Client(map[], {})
    case _ => s.client
  }

  function FabricStep(s: Drain, a: Step): F.Fabric
    requires Enabled(s, a)
  {
    match a
    case HubBegins(_, p, oversize) => F.Next(s.fabric, F.Announce(p, s.home, s.inst, oversize))
    case HubEnds(p, publish, _) => F.Next(s.fabric, F.Return(p, publish))
    case Elsewhere(a) => F.Next(s.fabric, a)
    case _ => s.fabric
  }

  /** The hub acknowledges the event of a broadcast that the fabric reports accepted, if the tunnel still takes it. */
  function AcksStep(s: Drain, a: Step): set<string>
    requires Enabled(s, a)
  {
    match a
    case HubEnds(p, _, ackSent) =>
      if ackSent && FabricStep(s, a).pubs[p].stage.Accepted? then s.acks + {s.calls[p]} else s.acks
    case AckArrives(id) => s.acks - {id}
    case Reconnect(_) => {}
    case _ => s.acks
  }

  function Next(s: Drain, a: Step): Drain
    requires Enabled(s, a)
  {
    Drain(if a.Tick? then a.to else s.now, RowsStep(s, a), ClientsStep(s, a), s.inst,
          if a.Reconnect? then a.home else s.home,
          if a.Send? then s.uplink + {a.id} else if a.HubBegins? then s.uplink - {a.id}
          else if a.Reconnect? then {} else s.uplink,
          AcksStep(s, a), if a.HubBegins? then s.calls[a.p := a.id] else s.calls, FabricStep(s, a))
  }

  predicate Initial(s: Drain) {
    && s.rows == map[] && s.client == Client(map[], {}) && s.uplink == {} && s.acks == {} && s.calls == map[]
    && F.Initial(s.fabric)
  }

  ghost predicate Legal(s: Drain, run: seq<Step>)
    decreases |run|
  {
    run == [] || (Enabled(s, run[0]) && Legal(Next(s, run[0]), run[1..]))
  }

  ghost function After(s: Drain, run: seq<Step>): Drain
    requires Legal(s, run)
    decreases |run|
  {
    if run == [] then s else After(Next(s, run[0]), run[1..])
  }

  // ---- What every run keeps --------------------------------------------------------------------------

  /** A broadcast that was begun for this event and this installation and that the fabric accepted. */
  predicate AcceptedCall(s: Drain, id: string, p: nat) {
    p in s.calls && s.calls[p] == id && p in s.fabric.pubs && s.fabric.pubs[p].inst == s.inst
    && s.fabric.pubs[p].stage.Accepted?
  }

  ghost predicate WasAccepted(s: Drain, id: string) {
    exists p :: AcceptedCall(s, id, p)
  }

  ghost predicate CallsOk(s: Drain) {
    forall p | p in s.calls :: p in s.fabric.pubs && s.fabric.pubs[p].inst == s.inst
  }

  ghost predicate AcksOk(s: Drain) {
    && (forall i | i in s.acks :: WasAccepted(s, i))
    && (forall i | i in s.client.acked :: WasAccepted(s, i))
    && (forall i | i in s.client.waiters && s.client.waiters[i] :: WasAccepted(s, i))
    && (forall i | i in s.rows && s.rows[i].delivered :: WasAccepted(s, i))
  }

  ghost predicate LeasesOk(s: Drain) {
    forall i | i in s.rows && s.rows[i].leasedUntil.Some? :: s.rows[i].leasedUntil.value <= s.now + MAX_LEASE
  }

  ghost predicate Inv(s: Drain) {
    F.Inv(s.fabric) && CallsOk(s) && AcksOk(s) && LeasesOk(s)
  }

  /** The fabric forgets no publication, and one that was accepted stays so. */
  lemma FabricRemembers(f: F.Fabric, a: F.Step, p: nat)
    requires F.Enabled(f, a) && p in f.pubs
    ensures p in F.Next(f, a).pubs && F.Next(f, a).pubs[p].inst == f.pubs[p].inst
    ensures f.pubs[p].stage.Accepted? ==> F.Next(f, a).pubs[p].stage.Accepted?
  {
  }

  lemma CallsKept(s: Drain, a: Step, p: nat)
    requires Enabled(s, a) && CallsOk(s) && p in s.calls
    ensures p in Next(s, a).calls && Next(s, a).calls[p] == s.calls[p]
    ensures p in Next(s, a).fabric.pubs && Next(s, a).fabric.pubs[p].inst == s.inst
    ensures s.fabric.pubs[p].stage.Accepted? ==> Next(s, a).fabric.pubs[p].stage.Accepted?
  {
    hide F.Next, RowsStep, ClientsStep, AcksStep;
    if a.HubBegins? {
      FabricRemembers(s.fabric, F.Announce(a.p, s.home, s.inst, a.oversize), p);
    } else if a.HubEnds? {
      FabricRemembers(s.fabric, F.Return(a.p, a.publish), p);
    } else if a.Elsewhere? {
      FabricRemembers(s.fabric, a.a, p);
    }
  }

  lemma StaysAccepted(s: Drain, a: Step, id: string)
    requires Enabled(s, a) && CallsOk(s) && WasAccepted(s, id)
    ensures WasAccepted(Next(s, a), id)
  {
    var p :| AcceptedCall(s, id, p);
    CallsKept(s, a, p);
    hide Next, Enabled;
    assert AcceptedCall(Next(s, a), id, p);
  }

  lemma FabricKeeps(s: Drain, a: Step)
    requires Enabled(s, a) && F.Inv(s.fabric)
    ensures F.Inv(Next(s, a).fabric)
  {
    hide F.Next, F.Inv, RowsStep, ClientsStep, AcksStep;
    if a.HubBegins? {
      F.StepKeeps(s.fabric, F.Announce(a.p, s.home, s.inst, a.oversize));
    } else if a.HubEnds? {
      F.StepKeeps(s.fabric, F.Return(a.p, a.publish));
    } else if a.Elsewhere? {
      F.StepKeeps(s.fabric, a.a);
    }
  }

  /** The only new acknowledgement is for a broadcast whose result, just computed, is acceptance. */
  lemma AckMeansAccepted(s: Drain, a: Step, id: string)
    requires Enabled(s, a) && CallsOk(s) && id in Next(s, a).acks && id !in s.acks
    ensures WasAccepted(Next(s, a), id)
  {
    assert AcceptedCall(Next(s, a), id, a.p);
  }

  lemma NewIsKnown(s: Drain, a: Step, id: string)
    requires Enabled(s, a)
    requires var c := Next(s, a).client;
             || (id in c.acked && id !in s.client.acked)
             || (id in c.waiters && c.waiters[id] && !(id in s.client.waiters && s.client.waiters[id]))
             || (id in Next(s, a).rows && Next(s, a).rows[id].delivered && !(id in s.rows && s.rows[id].delivered))
    ensures id in s.acks || id in s.client.acked || (id in s.client.waiters && s.client.waiters[id])
  {
    hide FabricStep, AcksStep, F.Enabled;
  }

  lemma StepKeeps(s: Drain, a: Step)
    requires Inv(s) && Enabled(s, a)
    ensures Inv(Next(s, a))
  {
    var s' := Next(s, a);
    FabricKeeps(s, a);
    LeasesKept(s, a);
    assert CallsOk(s') by {
      CallsAreOk(s, a);
    }
    forall i | WasAccepted(s, i) ensures WasAccepted(s', i) {
      StaysAccepted(s, a, i);
    }
    forall i | i in s'.acks ensures WasAccepted(s', i) {
      if i !in s.acks {
        AckMeansAccepted(s, a, i);
      }
    }
    hide Next, Enabled, WasAccepted, F.Inv;
    forall i | i in s'.client.acked ensures WasAccepted(s', i) {
      if i !in s.client.acked { NewIsKnown(s, a, i); }
    }
    forall i | i in s'.client.waiters && s'.client.waiters[i] ensures WasAccepted(s', i) {
      if !(i in s.client.waiters && s.client.waiters[i]) { NewIsKnown(s, a, i); }
    }
    forall i | i in s'.rows && s'.rows[i].delivered ensures WasAccepted(s', i) {
      if !(i in s.rows && s.rows[i].delivered) { NewIsKnown(s, a, i); }
    }
  }

  lemma CallsAreOk(s: Drain, a: Step)
    requires CallsOk(s) && Enabled(s, a)
    ensures CallsOk(Next(s, a))
  {
    var s' := Next(s, a);
    forall p | p in s'.calls ensures p in s'.fabric.pubs && s'.fabric.pubs[p].inst == s'.inst {
      if p in s.calls {
        CallsKept(s, a, p);
      }
    }
  }

  lemma LeasesKept(s: Drain, a: Step)
    requires LeasesOk(s) && Enabled(s, a)
    ensures LeasesOk(Next(s, a))
  {
    hide FabricStep, AcksStep, ClientsStep, F.Enabled;
  }

  lemma {:induction false} RunKeeps(s: Drain, run: seq<Step>)
    requires Inv(s) && Legal(s, run)
    ensures Inv(After(s, run)) && After(s, run).fabric.multiNode == s.fabric.multiNode && After(s, run).inst == s.inst
    decreases |run|
  {
    hide Inv;
    if run != [] {
      StepKeeps(s, run[0]);
      RunKeeps(Next(s, run[0]), run[1..]);
    }
  }

  lemma InitialInv(s: Drain)
    requires Initial(s)
    ensures Inv(s)
  {
    F.InitialInv(s.fabric);
  }

  /** A row is marked delivered only if a broadcast of that same event and installation was accepted; in
      multi-node mode that broadcast fitted the envelope and the broker took it. Every other row is leasable
      again as soon as the longest lease has run out, whatever was lost on the way. */
  lemma DeliveredMeansAccepted(s0: Drain, run: seq<Step>, id: string)
    requires Initial(s0) && Legal(s0, run) && id in After(s0, run).rows
    ensures var s := After(s0, run);
            && (s.rows[id].delivered ==>
                  exists p :: AcceptedCall(s, id, p)
                              && (s0.fabric.multiNode ==> s.fabric.pubs[p].taken && !s.fabric.pubs[p].oversize))
            && (!s.rows[id].delivered ==> forall t | t > s.now + MAX_LEASE :: Leasable(s.rows[id], t))
  {
    InitialInv(s0);
    RunKeeps(s0, run);
    var s := After(s0, run);
    hide After, Legal;
    if s.rows[id].delivered {
      assert WasAccepted(s, id);
      var p :| AcceptedCall(s, id, p);
    }
  }

  /** And end to end: of a delivered event some publication has reached every device of the installation that
      was connected when it began and still is, exactly once, as soon as that device's node has handled it. */
  lemma DeliveredReachesDevices(s0: Drain, run: seq<Step>, id: string) returns (p: nat)
    requires Initial(s0) && Legal(s0, run) && id in After(s0, run).rows && After(s0, run).rows[id].delivered
    ensures var s := After(s0, run);
            && AcceptedCall(s, id, p)
            && forall d | d in s.fabric.pubs[p].audience && d in s.fabric.connected && F.Job(d.node, p) !in s.fabric.queue ::
                 s.fabric.log[F.Receipt(d, p)] == 1
  {
    InitialInv(s0);
    RunKeeps(s0, run);
    var s := After(s0, run);
    hide After, Legal;
    assert WasAccepted(s, id);
    p :| AcceptedCall(s, id, p);
    forall d | d in s.fabric.pubs[p].audience && d in s.fabric.connected && F.Job(d.node, p) !in s.fabric.queue
      ensures s.fabric.log[F.Receipt(d, p)] == 1 {
      F.InvSettles(s.fabric, p, d);
    }
  }

  /** Delivered rows are final: never leased, never undelivered. */
  lemma {:induction false} DeliveredIsFinal(s: Drain, run: seq<Step>, id: string)
    requires Legal(s, run) && id in s.rows && s.rows[id].delivered
    ensures id in After(s, run).rows && After(s, run).rows[id] == s.rows[id]
    decreases |run|
  {
    if run != [] {
      assert id in Next(s, run[0]).rows && Next(s, run[0]).rows[id] == s.rows[id] by {
        hide FabricStep, AcksStep, ClientsStep, F.Enabled;
      }
      hide Next, Enabled;
      DeliveredIsFinal(Next(s, run[0]), run[1..], id);
    }
  }

  // ---- How a row is delivered -----------------------------------------------------------------------------

  /** A leased row is nobody else's until its lease runs out, and then anybody's unless it was delivered. */
  lemma LeaseExcludes(s: Drain, ids: set<string>, seconds: Time, id: string, t: Time)
    requires Enabled(s, Lease(ids, seconds)) && id in ids
    ensures id in Next(s, Lease(ids, seconds)).rows
    ensures Leasable(Next(s, Lease(ids, seconds)).rows[id], t) <==> t > s.now + seconds
    ensures Next(s, Lease(ids, seconds)).rows[id].attempts == s.rows[id].attempts + 1
  {
  }

  /** The result of a broadcast puts the event's acknowledgement on the tunnel exactly if there is only one node,
      or the envelope fitted and the publish came back in time. */
  lemma AckExactly(s: Drain, p: nat, publish: F.Publish)
    requires Enabled(s, HubEnds(p, publish, true)) && s.calls[p] !in s.acks
    ensures s.calls[p] in Next(s, HubEnds(p, publish, true)).acks <==>
            !s.fabric.multiNode || (!s.fabric.pubs[p].oversize && publish == F.Took)
  {
  }

  /** The hub has begun the broadcast of this event as publication `p`; the client waits for its acceptance. */
  ghost predicate Begun(s: Drain, id: string, p: nat) {
    && id in s.rows && id in s.client.waiters && p in s.calls && s.calls[p] == id
    && p in s.fabric.pubs && s.fabric.pubs[p].stage.Announced?
  }

  lemma ActFirst(s: Drain, a: Step, rest: seq<Step>)
    requires Enabled(s, a) && Legal(Next(s, a), rest)
    ensures Legal(s, [a] + rest) && After(s, [a] + rest) == After(Next(s, a), rest)
  {
    assert ([a] + rest)[1..] == rest;
  }

  lemma ThreeSteps(s: Drain, a: Step, b: Step, c: Step, rest: seq<Step>)
    requires Enabled(s, a) && Enabled(Next(s, a), b) && Enabled(Next(Next(s, a), b), c)
    requires Legal(Next(Next(Next(s, a), b), c), rest)
    ensures Legal(s, [a, b, c] + rest) && After(s, [a, b, c] + rest) == After(Next(Next(Next(s, a), b), c), rest)
  {
    hide Next, Enabled;
    ActFirst(Next(Next(s, a), b), c, rest);
    ActFirst(Next(s, a), b, [c] + rest);
    ActFirst(s, a, [b] + ([c] + rest));
    assert [a, b, c] + rest == [a] + ([b] + ([c] + rest));
  }

  /** Leased, sent, and its broadcast begun. */
  lemma Begins(s: Drain, id: string, p: nat, oversize: bool) returns (s3: Drain)
    requires id in s.rows && Leasable(s.rows[id], s.now) && s.client == Client(map[], {})
    requires s.home in s.fabric.nodes && p !in s.fabric.pubs
    ensures var a, b, c := Lease({id}, 60.0), Send(id), HubBegins(id, p, oversize);
            && Enabled(s, a) && Enabled(Next(s, a), b) && Enabled(Next(Next(s, a), b), c)
            && s3 == Next(Next(Next(s, a), b), c)
    ensures Begun(s3, id, p) && s3.fabric.multiNode == s.fabric.multiNode && s3.fabric.pubs[p].oversize == oversize
    ensures !s3.fabric.pubs[p].taken && s3.fabric.pubs[p].inst == s.inst
    ensures forall d | d in s.fabric.connected && d.node == s.home && d.inst == s.inst ::
              s3.fabric.log[F.Receipt(d, p)] == s.fabric.log[F.Receipt(d, p)] + 1
  {
    var s1 := Next(s, Lease({id}, 60.0));
    var s2 := Next(s1, Send(id));
    s3 := Next(s2, HubBegins(id, p, oversize));
    assert s2.fabric == s.fabric && s2.home == s.home && s2.inst == s.inst;
    BeginsAt(s2, id, p, oversize);
    hide F.Frames, F.Targets;
  }

  lemma BeginsAt(s: Drain, id: string, p: nat, oversize: bool)
    requires Enabled(s, HubBegins(id, p, oversize))
    ensures forall d | d in s.fabric.connected && d.node == s.home && d.inst == s.inst ::
              Next(s, HubBegins(id, p, oversize)).fabric.log[F.Receipt(d, p)] == s.fabric.log[F.Receipt(d, p)] + 1
  {
    F.FramesCount(F.Targets(s.fabric, s.home, s.inst), p);
    hide F.Frames;
  }

  /** The acknowledgement on its way retires the row. */
  lemma AckRetires(s: Drain, id: string) returns (run: seq<Step>)
    requires id in s.acks && id in s.rows && id in s.client.waiters
    ensures run == [AckArrives(id), Confirm(id), Retire(true)] && Legal(s, run)
    ensures id in After(s, run).rows && After(s, run).rows[id].delivered && After(s, run).fabric == s.fabric
  {
    var s1 := Next(s, AckArrives(id));
    var s2 := Next(s1, Confirm(id));
    ThreeSteps(s, AckArrives(id), Confirm(id), Retire(true), []);
    assert [AckArrives(id), Confirm(id), Retire(true)] + [] == [AckArrives(id), Confirm(id), Retire(true)];
    run := [AckArrives(id), Confirm(id), Retire(true)];
  }

  lemma ResultRetires(s: Drain, id: string, p: nat, publish: F.Publish) returns (run: seq<Step>)
    requires Begun(s, id, p) && Enabled(s, HubEnds(p, publish, true))
    requires !s.fabric.multiNode || (!s.fabric.pubs[p].oversize && publish == F.Took)
    ensures run == [HubEnds(p, publish, true), AckArrives(id), Confirm(id), Retire(true)] && Legal(s, run)
    ensures id in After(s, run).rows && After(s, run).rows[id].delivered && After(s, run).fabric.log == s.fabric.log
  {
    var s1 := Next(s, HubEnds(p, publish, true));
    assert id in s1.acks && s1.client == s.client && s1.rows == s.rows && s1.fabric.log == s.fabric.log;
    hide Next, Enabled;
    var last := AckRetires(s1, id);
    ActFirst(s, HubEnds(p, publish, true), last);
    run := [HubEnds(p, publish, true)] + last;
  }

  /** On a single node a leasable row is delivered by this run, whatever the size of the frame and the state of any
      broker, and each device of the installation has had the frame. */
  lemma SingleNodeDelivers(s: Drain, id: string, p: nat, oversize: bool, publish: F.Publish) returns (run: seq<Step>)
    requires !s.fabric.multiNode && id in s.rows && Leasable(s.rows[id], s.now) && s.client == Client(map[], {})
    requires s.home in s.fabric.nodes && p !in s.fabric.pubs
    ensures run == [Lease({id}, 60.0), Send(id), HubBegins(id, p, oversize), HubEnds(p, publish, true), AckArrives(id),
                    Confirm(id), Retire(true)]
    ensures Legal(s, run) && id in After(s, run).rows && After(s, run).rows[id].delivered
    ensures forall d | d in s.fabric.connected && d.node == s.home && d.inst == s.inst ::
              After(s, run).fabric.log[F.Receipt(d, p)] == s.fabric.log[F.Receipt(d, p)] + 1
  {
    var s3 := Begins(s, id, p, oversize);
    assert Enabled(s3, HubEnds(p, publish, true));
    hide Next, Enabled, Begun;
    var last := ResultRetires(s3, id, p, publish);
    ThreeSteps(s, Lease({id}, 60.0), Send(id), HubBegins(id, p, oversize), last);
    run := [Lease({id}, 60.0), Send(id), HubBegins(id, p, oversize)] + last;
  }

  /** In multi-node mode it is delivered when the frame fits, the broker takes it and the publish returns in time. */
  lemma MultiNodeDelivers(s: Drain, id: string, p: nat) returns (run: seq<Step>)
    requires s.fabric.multiNode && id in s.rows && Leasable(s.rows[id], s.now) && s.client == Client(map[], {})
    requires s.home in s.fabric.nodes && p !in s.fabric.pubs
    ensures run == [Lease({id}, 60.0), Send(id), HubBegins(id, p, false), Elsewhere(F.Take(p)), HubEnds(p, F.Took, true),
                    AckArrives(id), Confirm(id), Retire(true)]
    ensures Legal(s, run) && id in After(s, run).rows && After(s, run).rows[id].delivered
  {
    var s3 := Begins(s, id, p, false);
    hide Next, Enabled, Begun, Leasable;
    var rest := TakenRetires(s3, id, p);
    var a, b, c := Lease({id}, 60.0), Send(id), HubBegins(id, p, false);
    ThreeSteps(s, a, b, c, rest);
    hide Legal, After;
    EightInAll(a, b, c, rest);
    run := [a, b, c] + rest;
  }

  lemma EightInAll(a: Step, b: Step, c: Step, rest: seq<Step>)
    requires |rest| == 5
    ensures [a, b, c] + rest == [a, b, c, rest[0], rest[1], rest[2], rest[3], rest[4]]
  {
  }

  lemma TakenRetires(s: Drain, id: string, p: nat) returns (run: seq<Step>)
    requires Begun(s, id, p) && s.fabric.multiNode && !s.fabric.pubs[p].oversize && !s.fabric.pubs[p].taken
    ensures run == [Elsewhere(F.Take(p)), HubEnds(p, F.Took, true), AckArrives(id), Confirm(id), Retire(true)]
    ensures Legal(s, run) && id in After(s, run).rows && After(s, run).rows[id].delivered
  {
    hide Next, Enabled, Begun;
    BrokerTakes(s, id, p);
    var last := ResultRetires(Next(s, Elsewhere(F.Take(p))), id, p, F.Took);
    ActFirst(s, Elsewhere(F.Take(p)), last);
    run := [Elsewhere(F.Take(p))] + last;
  }

  lemma BrokerTakes(s: Drain, id: string, p: nat)
    requires Begun(s, id, p) && s.fabric.multiNode && !s.fabric.pubs[p].oversize && !s.fabric.pubs[p].taken
    ensures Enabled(s, Elsewhere(F.Take(p)))
    ensures var s1 := Next(s, Elsewhere(F.Take(p)));
            && Begun(s1, id, p) && Enabled(s1, HubEnds(p, F.Took, true)) && !s1.fabric.pubs[p].oversize
            && s1.fabric.multiNode
  {
  }

  // ---- One leased batch in the client ------------------------------------------------------------------

  /** The client's acts for one event: `arrives` tells whether its acceptance came before the timeout. */
  function Forwarded(c: Client, id: string, arrives: bool): Client {
    var sent := ClientStep(c, Sends(id));
    if arrives then ClientStep(ClientStep(sent, Hears(id)), Confirms(id)) else ClientStep(sent, GivesUp(id))
  }

  /** A whole batch; frames without an id are skipped. */
  function Pumped(c: Client, events: seq<string>, arrives: seq<bool>): Client
    requires |events| == |arrives|
  {
    if events == [] then c
    else
      var n := |events| - 1;
      var before := Pumped(c, events[..n], arrives[..n]);
      if events[n] == "" then before else Forwarded(before, events[n], arrives[n])
  }

  /** The events whose acceptance arrived in time, in order. */
  function Confirmed(events: seq<string>, arrives: seq<bool>): (ids: seq<string>)
    requires |events| == |arrives|
    ensures forall i | i in ids :: exists j | 0 <= j < |events| :: events[j] == i && arrives[j]
  {
    if events == [] then []
    else
      var n := |events| - 1;
      var ids := Confirmed(events[..n], arrives[..n]);
      if events[n] != "" && arrives[n] then ids + [events[n]] else ids
  }

  /** A batch reports exactly the confirmed events and leaves none of its waiters behind. */
  lemma PumpReportsConfirmed(c: Client, events: seq<string>, arrives: seq<bool>)
    requires |events| == |arrives|
    ensures Pumped(c, events, arrives).acked == c.acked + Named(Confirmed(events, arrives))
    ensures Pumped(c, events, arrives).waiters == c.waiters - (Named(events) - {""})
  {
    PumpAcks(c, events, arrives);
    PumpClears(c, events, arrives);
  }

  function Named(ids: seq<string>): set<string> {
    set i | i in ids
  }

  lemma NamedMore(ids: seq<string>, id: string)
    ensures Named(ids + [id]) == Named(ids) + {id}
  {
  }

  lemma {:induction false} PumpAcks(c: Client, events: seq<string>, arrives: seq<bool>)
    requires |events| == |arrives|
    ensures Pumped(c, events, arrives).acked == c.acked + Named(Confirmed(events, arrives))
  {
    if events != [] {
      var n := |events| - 1;
      PumpAcks(c, events[..n], arrives[..n]);
      NamedMore(Confirmed(events[..n], arrives[..n]), events[n]);
      hide Named;
    }
  }

  lemma {:induction false} PumpClears(c: Client, events: seq<string>, arrives: seq<bool>)
    requires |events| == |arrives|
    ensures Pumped(c, events, arrives).waiters == c.waiters - (Named(events) - {""})
  {
    if events != [] {
      var n := |events| - 1;
      PumpClears(c, events[..n], arrives[..n]);
      NamedMore(events[..n], events[n]);
      assert events == events[..n] + [events[n]];
      hide Named;
    }
  }

  class InstallationTunnel {
    var acceptWaiters: map<string, bool>
    var acked: seq<string>

    constructor ()
      ensures View() == Client(map[], {})
    {
      acceptWaiters, acked := map[], [];
    }

    ghost function View(): Client
      reads this
    {
      Client(acceptWaiters, set i | i in acked)
    }

    /** A broadcast_ack frame: resolves the waiter of its own event id only. */
    method ResolveAcceptance(eventId: string)
      modifies this`acceptWaiters
      ensures View() == if eventId == "" then old(View()) else ClientStep(old(View()), Hears(eventId))
    {
      ghost var was := acceptWaiters;
      if eventId != "" && eventId in acceptWaiters && !acceptWaiters[eventId] {
        acceptWaiters := acceptWaiters[eventId := true];
      }
      assert eventId in was && was[eventId] ==> was[eventId := true] == was;
    }

    /** Forwards a leased batch; `arrives[i]` tells whether the i-th acceptance came before its timeout. */
    method PumpBatch(events: seq<string>, arrives: seq<bool>)
      requires |events| == |arrives| && acked == []
      modifies this
      ensures View() == Pumped(old(View()), events, arrives) && acked == Confirmed(events, arrives)
    {
      ghost var c := View();
      for i := 0 to |events|
        invariant acked == Confirmed(events[..i], arrives[..i])
        invariant View() == Pumped(c, events[..i], arrives[..i])
      {
        assert events[..i + 1][..i] == events[..i] && arrives[..i + 1][..i] == arrives[..i];
        var id := events[i];
        if id != "" {
          ghost var before := View();
          acceptWaiters := acceptWaiters[id := false];
          assert View() == ClientStep(before, Sends(id));
          if arrives[i] {
            ResolveAcceptance(id);
            acked := acked + [id];
          }
          acceptWaiters := acceptWaiters - {id};
          assert View() == Forwarded(before, id, arrives[i]);
        }
      }
      assert events[..|events|] == events && arrives[..|arrives|] == arrives;
    }

    /** After the report, successful or not, the batch is forgotten; undelivered rows are leased again later. */
    method FinishBatch()
      modifies this`acked
      ensures View() == ClientStep(old(View()), Reports) && acked == []
    {
      acked := [];
    }
  }
}
