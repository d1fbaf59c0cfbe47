/** One relay node: its local tunnels, the futures of its in-flight requests, and the coroutines that
    wait on them. The code between two suspension points of a hub coroutine is one function here; the
    class RelayHub performs the same steps in place. */
module RelayRouting {
  import opened Wrappers
  import opened RelayRegistry

  /** A response frame. `relayError` is the hub's own "__relay_error__" key, "" when absent. `origin` records
      the installation whose tunnel sent the frame; no code looks at it. */
  datatype Frame = Frame(requestId: string, relayError: string, body: string, origin: string)

  /** An authenticated tunnel; it knows its installation. */
  datatype Conn = Conn(inst: string, serial: nat)

  datatype Outcome = Response(frame: Frame) | Unavailable | TimedOut | TooLarge | SendFailed

  datatype Future = Waiting | Settled(outcome: Outcome)

  /** Local: the tunnel is here. Cross: forwarded to `owner`. Remote: serving a request of `source`. */
  datatype Role = Local(conn: Conn) | Cross(owner: string) | Remote(conn: Conn, source: string)

  /** What was sent is waited for until `due`. */
  datatype Phase = Sending | Awaiting(due: Time) | Ended(outcome: Outcome)

  /** A coroutine handling one request, with its future and how often it published a request. */
  datatype Task = Task(role: Role, inst: string, rid: string, future: Future, phase: Phase, published: nat)

  /** A key of one connection's `pending` dictionary. */
  datatype Slot = Slot(conn: Conn, rid: string)

  datatype Hub = Hub(installs: map<string, Conn>, pending: map<Slot, nat>, cross: map<string, nat>,
                     tasks: map<nat, Task>)

  const EMPTY_HUB := Hub(map[], map[], map[], map[])

  const NO_TUNNEL := Frame("", "tunnel_unavailable", "", "")
  const TIMEOUT_FRAME := Frame("", "request_timeout", "", "")
  const OVERSIZE_FRAME := Frame("", "response_too_large", "", "")

  // ---- Segments of the hub's coroutines --------------------------------------------------------

  function Settle(k: Task, o: Outcome): Task {
    if k.future.Waiting? then k.(future := Settled(o)) else k
  }

  function PendingOf(h: Hub, conn: Conn): set<nat> {
    set s | s in h.pending && s.conn == conn :: h.pending[s]
  }

  function FailPending(h: Hub, conn: Conn): (r: Hub)
    ensures r.installs == h.installs && r.pending == h.pending && r.cross == h.cross
  {
    var failed := PendingOf(h, conn);
    h.(tasks := map t | t in h.tasks :: if t in failed then Settle(h.tasks[t], Unavailable) else h.tasks[t])
  }

  function Connect(h: Hub, conn: Conn): Hub {
    var h' := if conn.inst in h.installs && h.installs[conn.inst] != conn then FailPending(h, h.installs[conn.inst]) else h;
    h'.(installs := h.installs[conn.inst := conn])
  }

  predicate HoldsConn(h: Hub, inst: string, conn: Conn) {
    inst in h.installs && h.installs[inst] == conn
  }

  function Drop(h: Hub, inst: string, conn: Conn): Hub {
    if HoldsConn(h, inst, conn) then FailPending(h, conn).(installs := h.installs - {inst}) else h
  }

  function Resolve(h: Hub, inst: string, rid: string, frame: Frame): Hub {
    if inst in h.installs && Slot(h.installs[inst], rid) in h.pending
       && h.pending[Slot(h.installs[inst], rid)] in h.tasks then
      var t := h.pending[Slot(h.installs[inst], rid)];
      h.(tasks := h.tasks[t := Settle(h.tasks[t], Response(frame))])
    else h
  }

  function OpenOnConn(h: Hub, tid: nat, role: Role, inst: string, rid: string): Hub
    requires !role.Cross?
  {
    h.(pending := h.pending[Slot(role.conn, rid) := tid],
       tasks := h.tasks[tid := Task(role, inst, rid, Waiting, Sending, 0)])
  }

  function Refuse(h: Hub, tid: nat, inst: string, rid: string, o: Outcome): Hub {
    h.(tasks := h.tasks[tid := Task(Cross(""), inst, rid, Waiting, Ended(o), 0)])
  }

  /** `route` up to its first suspension: local tunnel first, else one hop to the recorded owner. */
  function Begin(h: Hub, node: string, owner: Option<string>, transport: bool, tid: nat, inst: string,
                 rid: string, oversize: bool): Hub
  {
    if inst in h.installs then OpenOnConn(h, tid, Local(h.installs[inst]), inst, rid)
    else if owner.None? || owner.value == node || !transport then Refuse(h, tid, inst, rid, Unavailable)
    else if oversize then Refuse(h, tid, inst, rid, TooLarge)
    else h.(cross := h.cross[rid := tid],
            tasks := h.tasks[tid := Task(Cross(owner.value), inst, rid, Waiting, Sending, 0)])
  }

  function Sent(h: Hub, tid: nat, published: nat, due: Time): Hub
    requires tid in h.tasks
  {
    h.(tasks := h.tasks[tid := h.tasks[tid].(phase := Awaiting(due), published := published)])
  }

  /** The `finally` block: the correlation entry goes, whatever the outcome. */
  function Finish(h: Hub, tid: nat, o: Outcome): Hub
    requires tid in h.tasks
  {
    var k := h.tasks[tid];
    var h' := h.(tasks := h.tasks[tid := k.(phase := Ended(o))]);
    if k.role.Cross? then h'.(cross := h.cross - {k.rid})
    else h'.(pending := h.pending - {Slot(k.role.conn, k.rid)})
  }

  function HandleReply(h: Hub, cid: string, frame: Frame): Hub {
    if cid in h.cross && h.cross[cid] in h.tasks then
      var t := h.cross[cid];
      var o := if frame.relayError == "request_timeout" then TimedOut
               else if frame.relayError != "" then Unavailable else Response(frame);
      h.(tasks := h.tasks[t := Settle(h.tasks[t], o)])
    else h
  }

  // ---- What every segment keeps ----------------------------------------------------------------

  predicate Running(h: Hub, t: nat) {
    t in h.tasks && !h.tasks[t].phase.Ended?
  }

  /** A response bears the request's own id and came from the request's own installation. */
  predicate RightFrame(k: Task, o: Outcome) {
    o.Response? ==> o.frame.requestId == k.rid && o.frame.origin == k.inst
  }

  predicate GoodTask(k: Task) {
    && (k.future.Settled? ==> RightFrame(k, k.future.outcome))
    && (k.phase.Ended? ==> RightFrame(k, k.phase.outcome))
    && k.published <= (if k.role.Cross? && !k.phase.Sending? then 1 else 0)
    && (!k.role.Cross? ==> k.role.conn.inst == k.inst)
  }

  predicate Registered(h: Hub, t: nat)
    requires t in h.tasks
  {
    var k := h.tasks[t];
    if k.role.Cross? then k.rid in h.cross && h.cross[k.rid] == t
    else Slot(k.role.conn, k.rid) in h.pending && h.pending[Slot(k.role.conn, k.rid)] == t
  }

  ghost predicate PendingSound(h: Hub) {
    forall s | s in h.pending ::
      Running(h, h.pending[s]) && !h.tasks[h.pending[s]].role.Cross?
      && s == Slot(h.tasks[h.pending[s]].role.conn, h.tasks[h.pending[s]].rid)
  }

  ghost predicate CrossSound(h: Hub) {
    forall c | c in h.cross ::
      Running(h, h.cross[c]) && h.tasks[h.cross[c]].role.Cross? && c == h.tasks[h.cross[c]].rid
  }

  ghost predicate AllRegistered(h: Hub) {
    forall t | Running(h, t) :: Registered(h, t)
  }

  ghost predicate AllGood(h: Hub) {
    && (forall t | t in h.tasks :: GoodTask(h.tasks[t]))
    && (forall i | i in h.installs :: h.installs[i].inst == i)
  }

  /** Correlation entries and running coroutines match one to one, and results are the right ones. */
  ghost predicate HubInv(h: Hub) {
    PendingSound(h) && CrossSound(h) && AllRegistered(h) && AllGood(h)
  }

  /** From `k` to `k'` no future is completed a second time and no outcome is changed. */
  predicate TaskKept(k: Task, k': Task) {
    && k'.role == k.role && k'.inst == k.inst && k'.rid == k.rid
    && (k.future.Settled? ==> k'.future == k.future)
    && (k.phase.Ended? ==> k' == k)
    && (k.phase.Awaiting? ==> k'.phase == k.phase || k'.phase.Ended?)
    && k.published <= k'.published
  }

  ghost predicate TasksKept(h: Hub, h': Hub) {
    forall t | t in h.tasks :: t in h'.tasks && TaskKept(h.tasks[t], h'.tasks[t])
  }

  ghost predicate NoNewTasks(h: Hub, h': Hub) {
    h'.tasks.Keys == h.tasks.Keys
  }

  /** The shape every quiet segment has: same coroutines, none restarted, invariant kept. */
  ghost predicate Quiet(h: Hub, h': Hub) {
    HubInv(h') && TasksKept(h, h') && NoNewTasks(h, h')
  }

  /** Same coroutines, and all but those of `touched` exactly as they were. */
  ghost predicate OnlyTouches(h: Hub, h': Hub, touched: set<nat>) {
    NoNewTasks(h, h') && forall t | t in h.tasks && t !in touched :: h'.tasks[t] == h.tasks[t]
  }

  lemma QuietChains(h: Hub, h1: Hub, h2: Hub)
    requires Quiet(h, h1) && Quiet(h1, h2)
    ensures Quiet(h, h2) && HubInv(h2)
  {
    hide HubInv;
  }

  /** Touching only futures and phases of coroutines, without ending any, is quiet. */
  lemma SameEntriesQuiet(h: Hub, h': Hub)
    requires HubInv(h) && h'.pending == h.pending && h'.cross == h.cross && NoNewTasks(h, h')
    requires forall t | t in h.tasks :: TaskKept(h.tasks[t], h'.tasks[t]) && GoodTask(h'.tasks[t])
                                        && (h'.tasks[t].phase.Ended? <==> h.tasks[t].phase.Ended?)
    requires forall i | i in h'.installs :: h'.installs[i].inst == i
    ensures Quiet(h, h')
  {
    forall t ensures Running(h', t) == Running(h, t) {}
    forall t | Running(h', t) ensures Registered(h', t) { assert Registered(h, t); }
  }

  lemma FailPendingQuiet(h: Hub, conn: Conn, installs: map<string, Conn>)
    requires HubInv(h) && forall i | i in installs :: installs[i].inst == i
    ensures Quiet(h, FailPending(h, conn).(installs := installs))
    ensures OnlyTouches(h, FailPending(h, conn).(installs := installs), PendingOf(h, conn))
  {
    SameEntriesQuiet(h, FailPending(h, conn).(installs := installs));
  }

  /** A new tunnel fails the requests pending on the one it replaces, and touches no other. */
  lemma ConnectQuiet(h: Hub, conn: Conn)
    requires HubInv(h)
    ensures Quiet(h, Connect(h, conn))
    ensures OnlyTouches(h, Connect(h, conn), if conn.inst in h.installs && h.installs[conn.inst] != conn
                                             then PendingOf(h, h.installs[conn.inst]) else {})
  {
    if conn.inst in h.installs && h.installs[conn.inst] != conn {
      FailPendingQuiet(h, h.installs[conn.inst], h.installs[conn.inst := conn]);
    } else {
      SameEntriesQuiet(h, Connect(h, conn));
    }
  }

  lemma DropQuiet(h: Hub, inst: string, conn: Conn)
    requires HubInv(h)
    ensures Quiet(h, Drop(h, inst, conn))
    ensures OnlyTouches(h, Drop(h, inst, conn), if HoldsConn(h, inst, conn) then PendingOf(h, conn) else {})
  {
    FailPendingQuiet(h, conn, h.installs - {inst});
    FailPendingQuiet(h, conn, h.installs);
    if !HoldsConn(h, inst, conn) {
      SameEntriesQuiet(h, h);
    }
  }

  /** The coroutine found under a key, if any. */
  function Under<K>(entries: map<K, nat>, key: K): set<nat> {
    if key in entries then {entries[key]} else {}
  }

  /** The request a tunnel's response belongs to: the one pending under its id on the current tunnel. */
  function Answered(h: Hub, inst: string, rid: string): set<nat> {
    if inst in h.installs then Under(h.pending, Slot(h.installs[inst], rid)) else {}
  }

  /** A tunnel response settles the request of that installation which has its id, and touches no other. */
  lemma ResolveQuiet(h: Hub, inst: string, rid: string, frame: Frame)
    requires HubInv(h) && frame.requestId == rid && frame.origin == inst
    ensures Quiet(h, Resolve(h, inst, rid, frame))
    ensures OnlyTouches(h, Resolve(h, inst, rid, frame), Answered(h, inst, rid))
    ensures forall t | t in Answered(h, inst, rid) ::
              Running(h, t) && h.tasks[t].rid == rid && h.tasks[t].inst == inst
              && Resolve(h, inst, rid, frame).tasks[t].future.Settled?
  {
    SameEntriesQuiet(h, Resolve(h, inst, rid, frame));
  }

  /** Whatever request still waits under this correlation id, the reply carries an error or is its own response. */
  predicate ReplyFits(h: Hub, cid: string, frame: Frame) {
    cid in h.cross && h.cross[cid] in h.tasks && h.tasks[h.cross[cid]].future.Waiting? && frame.relayError == "" ==>
      frame.requestId == cid && frame.origin == h.tasks[h.cross[cid]].inst
  }

  /** A reply settles the one request forwarded under its correlation id, and touches no other. */
  lemma HandleReplyQuiet(h: Hub, cid: string, frame: Frame)
    requires HubInv(h) && ReplyFits(h, cid, frame)
    ensures Quiet(h, HandleReply(h, cid, frame))
    ensures OnlyTouches(h, HandleReply(h, cid, frame), Under(h.cross, cid))
    ensures cid in h.cross ==> HandleReply(h, cid, frame).tasks[h.cross[cid]].future.Settled?
  {
    SameEntriesQuiet(h, HandleReply(h, cid, frame));
  }

  lemma SentQuiet(h: Hub, tid: nat, published: nat, due: Time)
    requires HubInv(h) && tid in h.tasks && h.tasks[tid].phase.Sending?
    requires published <= (if h.tasks[tid].role.Cross? then 1 else 0)
    ensures Quiet(h, Sent(h, tid, published, due)) && OnlyTouches(h, Sent(h, tid, published, due), {tid})
  {
    SameEntriesQuiet(h, Sent(h, tid, published, due));
  }

  /** Ending a coroutine removes its own entry and no other. */
  lemma FinishEntries(h: Hub, tid: nat, o: Outcome)
    requires HubInv(h) && Running(h, tid)
    ensures var h' := Finish(h, tid, o);
            && (forall s | s in h'.pending :: s in h.pending && h'.pending[s] == h.pending[s] != tid)
            && (forall c | c in h'.cross :: c in h.cross && h'.cross[c] == h.cross[c] != tid)
            && (forall t | Running(h, t) && t != tid :: Registered(h', t))
  {
    assert Registered(h, tid);
    forall t | Running(h, t) && t != tid ensures Registered(Finish(h, tid, o), t) {
      assert Registered(h, t);
    }
  }

  lemma FinishSound(h: Hub, tid: nat, o: Outcome)
    requires HubInv(h) && Running(h, tid)
    ensures var h' := Finish(h, tid, o); PendingSound(h') && CrossSound(h') && AllRegistered(h')
  {
    var h' := Finish(h, tid, o);
    FinishEntries(h, tid, o);
    hide Registered, GoodTask;
    assert !Running(h', tid);
    forall t | t in h'.tasks && t != tid ensures Running(h', t) == Running(h, t) {}
  }

  /** The end of one coroutine keeps entries and running coroutines matched and touches no other coroutine. */
  lemma FinishQuiet(h: Hub, tid: nat, o: Outcome)
    requires HubInv(h) && Running(h, tid) && RightFrame(h.tasks[tid], o)
    ensures Quiet(h, Finish(h, tid, o)) && OnlyTouches(h, Finish(h, tid, o), {tid})
  {
    FinishSound(h, tid, o);
    hide PendingSound, CrossSound, AllRegistered, Registered;
    FinishGood(h.tasks[tid], o);
    hide GoodTask, RightFrame;
  }

  lemma FinishGood(k: Task, o: Outcome)
    requires GoodTask(k) && RightFrame(k, o)
    ensures GoodTask(k.(phase := Ended(o)))
  {
  }

  // ---- Starting a request ------------------------------------------------------------------------

  /** `h'` is `h` with one more coroutine and, if it runs, its own entry under a free key. */
  predicate OneMore(h: Hub, h': Hub, tid: nat, k: Task) {
    && tid !in h.tasks && h'.tasks == h.tasks[tid := k] && h'.installs == h.installs
    && if k.phase.Ended? then h'.pending == h.pending && h'.cross == h.cross
       else if k.role.Cross? then k.rid !in h.cross && h'.cross == h.cross[k.rid := tid] && h'.pending == h.pending
       else Slot(k.role.conn, k.rid) !in h.pending && h'.cross == h.cross
            && h'.pending == h.pending[Slot(k.role.conn, k.rid) := tid]
  }

  lemma NewTaskRegistered(h: Hub, h': Hub, tid: nat, k: Task)
    requires AllRegistered(h) && OneMore(h, h', tid, k)
    ensures AllRegistered(h')
  {
    forall t | Running(h', t) ensures Registered(h', t) {
      assert t != tid ==> Running(h, t) && Registered(h, t);
    }
  }

  lemma NewTaskEntries(h: Hub, h': Hub, tid: nat, k: Task)
    requires PendingSound(h) && CrossSound(h) && OneMore(h, h', tid, k)
    ensures PendingSound(h') && CrossSound(h')
  {
    forall t | t in h.tasks ensures t != tid && h'.tasks[t] == h.tasks[t] && Running(h', t) == Running(h, t) {}
    assert PendingSound(h') by { hide CrossSound; }
    hide PendingSound;
  }

  lemma NewTaskSound(h: Hub, h': Hub, tid: nat, k: Task)
    requires HubInv(h) && GoodTask(k) && OneMore(h, h', tid, k)
    ensures HubInv(h') && TasksKept(h, h')
  {
    NewTaskRegistered(h, h', tid, k);
    NewTaskEntries(h, h', tid, k);
    hide PendingSound, CrossSound, AllRegistered, GoodTask;
  }

  lemma OpenKeeps(h: Hub, tid: nat, role: Role, inst: string, rid: string)
    requires HubInv(h) && tid !in h.tasks && !role.Cross? && role.conn.inst == inst
    requires Slot(role.conn, rid) !in h.pending
    ensures HubInv(OpenOnConn(h, tid, role, inst, rid)) && TasksKept(h, OpenOnConn(h, tid, role, inst, rid))
  {
    hide HubInv, TasksKept;
    NewTaskSound(h, OpenOnConn(h, tid, role, inst, rid), tid, Task(role, inst, rid, Waiting, Sending, 0));
  }

  /** A leg opens under a slot that is taken: the coroutine that held it still runs, and no entry leads to it. */
  lemma OpenTakesEntry(h: Hub, tid: nat, role: Role, inst: string, rid: string)
    requires HubInv(h) && tid !in h.tasks && !role.Cross? && Slot(role.conn, rid) in h.pending
    ensures var first, h' := h.pending[Slot(role.conn, rid)], OpenOnConn(h, tid, role, inst, rid);
            Running(h', first) && h'.tasks[first].rid == rid && !Registered(h', first)
  {
    assert Running(h, h.pending[Slot(role.conn, rid)]);
  }

  predicate Refused(node: string, owner: Option<string>, transport: bool) {
    owner.None? || owner.value == node || !transport
  }

  /** The key that the start would write is not taken. */
  predicate KeyIsFree(h: Hub, node: string, owner: Option<string>, transport: bool, inst: string, rid: string,
                      oversize: bool)
  {
    if inst in h.installs then Slot(h.installs[inst], rid) !in h.pending
    else Refused(node, owner, transport) || oversize || rid !in h.cross
  }

  lemma BeginKeeps(h: Hub, node: string, owner: Option<string>, transport: bool, tid: nat, inst: string,
                   rid: string, oversize: bool)
    requires HubInv(h) && tid !in h.tasks && KeyIsFree(h, node, owner, transport, inst, rid, oversize)
    ensures HubInv(Begin(h, node, owner, transport, tid, inst, rid, oversize))
    ensures TasksKept(h, Begin(h, node, owner, transport, tid, inst, rid, oversize))
  {
    var h' := Begin(h, node, owner, transport, tid, inst, rid, oversize);
    assert inst in h.installs ==> h.installs[inst].inst == inst;
    hide HubInv, TasksKept;
    NewTaskSound(h, h', tid, h'.tasks[tid]);
  }

  /** Right after a start the hub is sound exactly when the key that the start writes was free: with a tunnel
      here, its id among the tunnel's pending requests; without one, unless the start is refused or oversize,
      its id among all requests this node has forwarded, for whichever installation. A free key is not enough
      for what comes later: see LateReplyCrosses, LegsCollide, and RelayGuards for the exact condition on runs. */
  lemma StartIsSoundExactly(h: Hub, node: string, owner: Option<string>, transport: bool, tid: nat, inst: string,
                            rid: string, oversize: bool)
    requires HubInv(h) && tid !in h.tasks
    ensures HubInv(Begin(h, node, owner, transport, tid, inst, rid, oversize)) <==>
            KeyIsFree(h, node, owner, transport, inst, rid, oversize)
  {
    if KeyIsFree(h, node, owner, transport, inst, rid, oversize) {
      BeginKeeps(h, node, owner, transport, tid, inst, rid, oversize);
    } else {
      StartTakesEntry(h, node, owner, transport, tid, inst, rid, oversize);
    }
  }

  /** The request that held the key before still runs, and no entry leads to it any more. */
  lemma StartTakesEntry(h: Hub, node: string, owner: Option<string>, transport: bool, tid: nat, inst: string,
                        rid: string, oversize: bool)
    requires HubInv(h) && tid !in h.tasks && !KeyIsFree(h, node, owner, transport, inst, rid, oversize)
    ensures var first := if inst in h.installs then h.pending[Slot(h.installs[inst], rid)] else h.cross[rid];
            var h' := Begin(h, node, owner, transport, tid, inst, rid, oversize);
            Running(h', first) && h'.tasks[first].rid == rid && !Registered(h', first)
  {
    var first := if inst in h.installs then h.pending[Slot(h.installs[inst], rid)] else h.cross[rid];
    assert Running(h, first) && first != tid;
  }

  /** On one tunnel a response then goes to the later request alone; and when that one ends, the earlier one
      keeps running with no entry left through which anything could complete it. */
  lemma SharedIdStrandsTheFirst(h: Hub, first: nat, second: nat, inst: string, rid: string, frame: Frame, o: Outcome)
    requires inst in h.installs && first != second
    ensures var role := Local(h.installs[inst]);
            var both := OpenOnConn(OpenOnConn(h, first, role, inst, rid), second, role, inst, rid);
            && Resolve(both, inst, rid, frame).tasks[first].future == Waiting
            && Resolve(both, inst, rid, frame).tasks[second].future == Settled(Response(frame))
            && Running(Finish(both, second, o), first) && !Registered(Finish(both, second, o), first)
            && Resolve(Finish(both, second, o), inst, rid, frame) == Finish(both, second, o)
  {
  }

  /** Across nodes the ids of different installations collide too: of two requests forwarded from one node
      under one id, the later is given the answer of the earlier one's installation. */
  lemma SharedIdCrossesInstallations(h: Hub, node: string, ownerA: string, ownerB: string, first: nat, second: nat,
                                     a: string, b: string, rid: string, frame: Frame)
    requires a !in h.installs && b !in h.installs && a != b && first != second && ownerA != node && ownerB != node
    requires frame.relayError == "" && frame.requestId == rid && frame.origin == a
    ensures var one := Begin(h, node, Some(ownerA), true, first, a, rid, false);
            var two := Begin(one, node, Some(ownerB), true, second, b, rid, false);
            var after := HandleReply(two, rid, frame);
            && after.tasks[first].future == Waiting && !Registered(after, first)
            && after.tasks[second].future == Settled(Response(frame)) && after.tasks[second].inst == b
            && !RightFrame(after.tasks[second], Response(frame))
  {
  }

  /** A reply that does not fit is taken all the same. */
  lemma MisfitIsTaken(h: Hub, cid: string, frame: Frame)
    requires HubInv(h) && !ReplyFits(h, cid, frame)
    ensures var t, h' := h.cross[cid], HandleReply(h, cid, frame);
            t in h'.tasks && h'.tasks[t].future == Settled(Response(frame)) && !RightFrame(h'.tasks[t], Response(frame))
  {
  }

  /** A request forwarded under `rid` that timed out. */
  function TimedOutOnce(h: Hub, node: string, owner: string, tid: nat, inst: string, rid: string, due: Time): Hub {
    Finish(Sent(Begin(h, node, Some(owner), true, tid, inst, rid, false), tid, 1, due), tid, TimedOut)
  }

  lemma TimeoutFreesKey(h: Hub, node: string, owner: string, tid: nat, inst: string, rid: string, due: Time)
    requires HubInv(h) && inst !in h.installs && owner != node && tid !in h.tasks && rid !in h.cross
    ensures var over := TimedOutOnce(h, node, owner, tid, inst, rid, due);
            HubInv(over) && rid !in over.cross && over.installs == h.installs && over.tasks.Keys == h.tasks.Keys + {tid}
  {
    var one := Begin(h, node, Some(owner), true, tid, inst, rid, false);
    assert Running(one, tid) && RightFrame(one.tasks[tid], TimedOut);
    hide HubInv, Quiet, RightFrame, OnlyTouches;
    BeginKeeps(h, node, Some(owner), true, tid, inst, rid, false);
    SentQuiet(one, tid, 1, due);
    assert HubInv(Sent(one, tid, 1, due)) by { QuietIsSound(one, Sent(one, tid, 1, due)); }
    FinishQuiet(Sent(one, tid, 1, due), tid, TimedOut);
    QuietIsSound(Sent(one, tid, 1, due), Finish(Sent(one, tid, 1, due), tid, TimedOut));
  }

  lemma QuietIsSound(h: Hub, h': Hub)
    requires Quiet(h, h')
    ensures HubInv(h') && TasksKept(h, h')
  {
  }

  /** Two requests under one id that never overlap on their own node collide too: the first is forwarded and
      times out, the second finds its key free, and the late response to the first completes the second. */
  lemma LateReplyCrosses(h: Hub, node: string, ownerA: string, ownerB: string, first: nat, second: nat,
                         a: string, b: string, rid: string, due: Time, frame: Frame)
    requires HubInv(h) && a !in h.installs && b !in h.installs && a != b && ownerA != node && ownerB != node
    requires first != second && first !in h.tasks && second !in h.tasks && rid !in h.cross
    requires frame.relayError == "" && frame.requestId == rid && frame.origin == a
    ensures var over := TimedOutOnce(h, node, ownerA, first, a, rid, due);
            var two := Begin(over, node, Some(ownerB), true, second, b, rid, false);
            var after := HandleReply(two, rid, frame);
            && KeyIsFree(over, node, Some(ownerB), true, b, rid, false) && HubInv(two)
            && after.tasks[second].future == Settled(Response(frame)) && after.tasks[second].inst == b
            && !RightFrame(after.tasks[second], Response(frame))
  {
    hide HubInv, TimedOutOnce, TasksKept;
    TimeoutFreesKey(h, node, ownerA, first, a, rid, due);
    BeginKeeps(TimedOutOnce(h, node, ownerA, first, a, rid, due), node, Some(ownerB), true, second, b, rid, false);
  }

  /** Two origins that forward one id to one installation both find their key free on their own node; where the
      tunnel is, the second leg takes the first one's slot and its response. */
  lemma LegsCollide(h: Hub, first: nat, second: nat, source1: string, source2: string, inst: string, rid: string, frame: Frame)
    requires inst in h.installs && first != second
    ensures var one := OpenOnConn(h, first, Remote(h.installs[inst], source1), inst, rid);
            var two := OpenOnConn(one, second, Remote(h.installs[inst], source2), inst, rid);
            && Running(two, first) && !Registered(two, first)
            && Resolve(two, inst, rid, frame).tasks[first].future == Waiting
            && Resolve(two, inst, rid, frame).tasks[second].future == Settled(Response(frame))
  {
  }

  /** No correlation entry outlives its request: with nothing running, both tables are empty. */
  lemma NothingLeaks(h: Hub)
    requires HubInv(h) && forall t | t in h.tasks :: !Running(h, t)
    ensures h.pending == map[] && h.cross == map[]
  {
  }
}
