/** What becomes of a request: where it is sent, who answers it, and which of the possible ends it comes to. Every
    lemma names a run of the cluster by its steps alone and says how the request has ended after it. */
module RelayAnswers {
  import opened Wrappers
  import opened RelayRegistry
  import opened RelayRouting
  import opened RelayCluster
  import opened RelayRuns

  lemma StepFirst(s: Cluster, a: Step, rest: seq<Step>)
    requires Enabled(s, a) && Legal(Next(s, a), rest)
    ensures Legal(s, [a] + rest) && After(s, [a] + rest) == After(Next(s, a), rest)
  {
    assert ([a] + rest)[1..] == rest;
  }

  lemma NothingDone(s: Cluster)
    ensures Legal(s, []) && After(s, []) == s
  {
  }

  ghost predicate EndedWith(s: Cluster, n: string, tid: nat, o: Outcome) {
    n in s.hubs && tid in s.hubs[n].tasks && s.hubs[n].tasks[tid].phase == Ended(o)
  }

  /** Node `a` holds no tunnel for the installation, and the registry names `b` as its live owner. */
  ghost predicate LivesElsewhere(s: Cluster, a: string, b: string, inst: string) {
    a in s.hubs && b in s.hubs && a != b && inst !in s.hubs[a].installs && OwnedBy(s, inst, b)
  }

  ghost predicate Unused(s: Cluster, n: string, tid: nat) {
    n in s.hubs && tid !in s.hubs[n].tasks
  }

  /** Coroutine `tid` of node `n` waits for the reply to the request that it forwarded under `rid`. */
  ghost predicate Expects(s: Cluster, n: string, tid: nat, inst: string, rid: string) {
    && n in s.hubs && rid in s.hubs[n].cross && s.hubs[n].cross[rid] == tid && tid in s.hubs[n].tasks
    && var k := s.hubs[n].tasks[tid];
       k.role.Cross? && k.inst == inst && k.rid == rid && k.phase.Awaiting? && k.future.Waiting?
  }

  /** Coroutine `leg` of node `n` serves request `rid` of `source` on the current tunnel of the installation. */
  ghost predicate Serving(s: Cluster, n: string, leg: nat, source: string, inst: string, rid: string) {
    && n in s.hubs && inst in s.hubs[n].installs && leg in s.hubs[n].tasks
    && var k, conn := s.hubs[n].tasks[leg], s.hubs[n].installs[inst];
       && k.role == Role.Remote(conn, source) && k.inst == inst && k.rid == rid && k.future.Waiting?
       && Slot(conn, rid) in s.hubs[n].pending && s.hubs[n].pending[Slot(conn, rid)] == leg
  }

  /** Nothing happened at any other node. */
  ghost predicate OnlyAt(s: Cluster, s': Cluster, b: string) {
    s'.hubs.Keys == s.hubs.Keys && forall n | n in s.hubs && n != b :: s'.hubs[n] == s.hubs[n]
  }

  lemma StillExpects(s: Cluster, s': Cluster, a: string, b: string, tid: nat, spare: nat, inst: string, rid: string)
    requires Expects(s, a, tid, inst, rid) && OnlyAt(s, s', b) && a != b && Unused(s, a, spare)
    ensures Expects(s', a, tid, inst, rid) && Unused(s', a, spare)
  {
  }

  lemma InThree(s: Cluster, x: seq<Step>, y: seq<Step>, z: seq<Step>)
    requires Legal(s, x) && Legal(After(s, x), y) && Legal(After(After(s, x), y), z)
    ensures Legal(s, x + y + z) && After(s, x + y + z) == After(After(After(s, x), y), z)
  {
    Join(s, x, y);
    Join(s, x + y, z);
  }

  lemma InOne(a: Step, b: Step, y: seq<Step>, z: seq<Step>)
    requires |y| == 4 && |z| == 2
    ensures [a, b] + y + z == [a, b, y[0], y[1], y[2], y[3], z[0], z[1]]
  {
  }

  // ---- The hops of a forwarded request -----------------------------------------------------------------

  /** A request for an installation that lives elsewhere goes to its owner, and to nobody else. */
  lemma GoesToOwner(s: Cluster, a: string, b: string, tid: nat, inst: string, rid: string) returns (s2: Cluster)
    requires LivesElsewhere(s, a, b, inst) && Unused(s, a, tid)
    ensures Legal(s, [Start(a, tid, inst, rid, false), Published(a, tid)])
    ensures s2 == After(s, [Start(a, tid, inst, rid, false), Published(a, tid)])
    ensures Expects(s2, a, tid, inst, rid) && s2.bus == s.bus + multiset{Request(a, b, inst, rid)}
    ensures OnlyAt(s, s2, a) && s2.now == s.now && s2.timeout == s.timeout
    ensures forall t :: Unused(s2, a, t) <==> Unused(s, a, t) && t != tid
  {
    var s1 := Next(s, Start(a, tid, inst, rid, false));
    assert OwnerOf(s.registry, inst, s.now) == Some(b);
    assert Enabled(s1, Published(a, tid));
    s2 := Next(s1, Published(a, tid));
    NothingDone(s2);
    StepFirst(s1, Published(a, tid), []);
    StepFirst(s, Start(a, tid, inst, rid, false), [Published(a, tid)]);
    assert [Start(a, tid, inst, rid, false)] + [Published(a, tid)] == [Start(a, tid, inst, rid, false), Published(a, tid)];
  }

  /** Where the tunnel is, the request opens a leg on it. */
  lemma LegServes(s: Cluster, a: string, b: string, leg: nat, inst: string, rid: string)
    requires Request(a, b, inst, rid) in s.bus && Unused(s, b, leg) && inst in s.hubs[b].installs
    ensures Enabled(s, Deliver(Request(a, b, inst, rid), leg))
    ensures var s1 := Next(s, Deliver(Request(a, b, inst, rid), leg));
            && Serving(s1, b, leg, a, inst, rid) && s1.hubs[b].tasks[leg].phase.Sending?
            && s1.hubs == s.hubs[b := s1.hubs[b]] && s1.now == s.now && s1.timeout == s.timeout
  {
  }

  lemma LegSends(s: Cluster, a: string, b: string, leg: nat, inst: string, rid: string)
    requires Serving(s, b, leg, a, inst, rid) && s.hubs[b].tasks[leg].phase.Sending?
    ensures Enabled(s, FrameSent(b, leg))
    ensures var s1 := Next(s, FrameSent(b, leg));
            && Serving(s1, b, leg, a, inst, rid) && s1.hubs[b].tasks[leg].phase == Awaiting(s.now + s.timeout)
            && s1.hubs == s.hubs[b := s1.hubs[b]] && s1.now == s.now && s1.timeout == s.timeout
  {
  }

  /** The tunnel's answer, and how the leg passes it on. */
  lemma LegAnswers(s: Cluster, a: string, b: string, leg: nat, inst: string, rid: string, frame: Frame, oversize: bool)
    requires Serving(s, b, leg, a, inst, rid) && s.hubs[b].tasks[leg].phase.Awaiting?
    requires frame.requestId == rid && frame.origin == inst
    ensures Enabled(s, TunnelAnswers(b, inst, frame))
    ensures var s1 := Next(s, TunnelAnswers(b, inst, frame));
            && Enabled(s1, Resume(b, leg, oversize, false))
            && var s2 := Next(s1, Resume(b, leg, oversize, false));
               && Reply(b, a, inst, rid, if oversize then OVERSIZE_FRAME else frame) in s2.bus
               && s2.hubs == s.hubs[b := s2.hubs[b]]
  {
  }

  /** A reply to a request that expects it, and what the request ends with. */
  lemma ReplyEnds(s: Cluster, a: string, b: string, tid: nat, spare: nat, inst: string, rid: string, frame: Frame)
    returns (run: seq<Step>)
    requires Expects(s, a, tid, inst, rid) && Reply(b, a, inst, rid, frame) in s.bus && Unused(s, a, spare)
    ensures run == [Deliver(Reply(b, a, inst, rid, frame), spare), Resume(a, tid, false, false)] && Legal(s, run)
    ensures EndedWith(After(s, run), a, tid,
              if frame.relayError == "" then Response(frame)
              else if frame.relayError == "request_timeout" then TimedOut else Unavailable)
  {
    var d, r := Deliver(Reply(b, a, inst, rid, frame), spare), Resume(a, tid, false, false);
    var s1 := Next(s, d);
    assert Enabled(s1, r);
    NothingDone(Next(s1, r));
    StepFirst(s1, r, []);
    StepFirst(s, d, [r]);
    run := [d] + [r];
  }

  // ---- The ends of a forwarded request -----------------------------------------------------------------

  /** A request for an installation whose tunnel is on another node, its live owner, can be answered: this run
      of eight steps ends it with exactly the frame that the owner's tunnel sent. */
  lemma OwnerAnswers(s: Cluster, a: string, b: string, tid: nat, leg: nat, spare: nat, inst: string, rid: string, frame: Frame)
    returns (run: seq<Step>)
    requires LivesElsewhere(s, a, b, inst) && inst in s.hubs[b].installs
    requires Unused(s, a, tid) && Unused(s, a, spare) && spare != tid && Unused(s, b, leg)
    requires frame.requestId == rid && frame.origin == inst && frame.relayError == ""
    ensures run == [Start(a, tid, inst, rid, false), Published(a, tid), Deliver(Request(a, b, inst, rid), leg),
                    FrameSent(b, leg), TunnelAnswers(b, inst, frame), Resume(b, leg, false, false),
                    Deliver(Reply(b, a, inst, rid, frame), spare), Resume(a, tid, false, false)]
    ensures Legal(s, run) && EndedWith(After(s, run), a, tid, Response(frame))
  {
    run := TunnelReplies(s, a, b, tid, leg, spare, inst, rid, frame, false);
  }

  /** A response too large for an envelope ends the request unavailable. */
  lemma OversizeResponseFails(s: Cluster, a: string, b: string, tid: nat, leg: nat, spare: nat, inst: string, rid: string, frame: Frame)
    returns (run: seq<Step>)
    requires LivesElsewhere(s, a, b, inst) && inst in s.hubs[b].installs
    requires Unused(s, a, tid) && Unused(s, a, spare) && spare != tid && Unused(s, b, leg)
    requires frame.requestId == rid && frame.origin == inst
    ensures |run| == 8 && run[5] == Resume(b, leg, true, false)
    ensures Legal(s, run) && EndedWith(After(s, run), a, tid, Unavailable)
  {
    run := TunnelReplies(s, a, b, tid, leg, spare, inst, rid, frame, true);
  }

  lemma TunnelReplies(s: Cluster, a: string, b: string, tid: nat, leg: nat, spare: nat, inst: string, rid: string, frame: Frame,
                      oversize: bool)
    returns (run: seq<Step>)
    requires LivesElsewhere(s, a, b, inst) && inst in s.hubs[b].installs
    requires Unused(s, a, tid) && Unused(s, a, spare) && spare != tid && Unused(s, b, leg)
    requires frame.requestId == rid && frame.origin == inst
    ensures var reply := if oversize then OVERSIZE_FRAME else frame;
            && run == [Start(a, tid, inst, rid, false), Published(a, tid), Deliver(Request(a, b, inst, rid), leg),
                       FrameSent(b, leg), TunnelAnswers(b, inst, frame), Resume(b, leg, oversize, false),
                       Deliver(Reply(b, a, inst, rid, reply), spare), Resume(a, tid, false, false)]
            && Legal(s, run)
            && EndedWith(After(s, run), a, tid,
                 if reply.relayError == "" then Response(reply)
                 else if reply.relayError == "request_timeout" then TimedOut else Unavailable)
  {
    hide Next, Enabled, Legal, After, OwnedBy;
    var s2 := GoesToOwner(s, a, b, tid, inst, rid);
    var reply := if oversize then OVERSIZE_FRAME else frame;
    var first := [Start(a, tid, inst, rid, false), Published(a, tid)];
    assert Unused(s2, b, leg) && s2.hubs[b] == s.hubs[b];
    hide Unused, Expects, OnlyAt, LivesElsewhere;
    var middle := LegRun(s2, a, b, leg, inst, rid, frame, oversize);
    StillExpects(s2, After(s2, middle), a, b, tid, spare, inst, rid);
    var last := ReplyEnds(After(s2, middle), a, b, tid, spare, inst, rid, reply);
    hide EndedWith;
    InThree(s, first, middle, last);
    InOne(first[0], first[1], middle, last);
    run := first + middle + last;
  }

  lemma LegRun(s: Cluster, a: string, b: string, leg: nat, inst: string, rid: string, frame: Frame, oversize: bool)
    returns (run: seq<Step>)
    requires Request(a, b, inst, rid) in s.bus && Unused(s, b, leg) && inst in s.hubs[b].installs
    requires frame.requestId == rid && frame.origin == inst
    ensures run == [Deliver(Request(a, b, inst, rid), leg), FrameSent(b, leg), TunnelAnswers(b, inst, frame),
                    Resume(b, leg, oversize, false)]
    ensures Legal(s, run) && OnlyAt(s, After(s, run), b)
    ensures Reply(b, a, inst, rid, if oversize then OVERSIZE_FRAME else frame) in After(s, run).bus
  {
    hide Next, Enabled, Unused;
    var d, t, r := Deliver(Request(a, b, inst, rid), leg), TunnelAnswers(b, inst, frame), Resume(b, leg, oversize, false);
    LegServes(s, a, b, leg, inst, rid);
    var s1 := Next(s, d);
    LegSends(s1, a, b, leg, inst, rid);
    var s2 := Next(s1, FrameSent(b, leg));
    LegAnswers(s2, a, b, leg, inst, rid, frame, oversize);
    var s3 := Next(s2, t);
    hide Serving;
    FourSteps(s, d, FrameSent(b, leg), t, r);
    run := [d, FrameSent(b, leg), t, r];
  }

  lemma FourSteps(s: Cluster, a: Step, b: Step, c: Step, d: Step)
    requires Enabled(s, a) && Enabled(Next(s, a), b) && Enabled(Next(Next(s, a), b), c)
    requires Enabled(Next(Next(Next(s, a), b), c), d)
    ensures Legal(s, [a, b, c, d]) && After(s, [a, b, c, d]) == Next(Next(Next(Next(s, a), b), c), d)
  {
    hide Next, Enabled;
    var s1 := Next(s, a);
    var s2 := Next(s1, b);
    var s3 := Next(s2, c);
    NothingDone(Next(s3, d));
    StepFirst(s3, d, []);
    StepFirst(s2, c, [d]);
    StepFirst(s1, b, [c, d]);
    StepFirst(s, a, [b, c, d]);
    assert [c] + [d] == [c, d] && [b] + [c, d] == [b, c, d] && [a] + [b, c, d] == [a, b, c, d];
  }

  lemma {:induction false} Join(s: Cluster, first: seq<Step>, rest: seq<Step>)
    requires Legal(s, first) && Legal(After(s, first), rest)
    ensures Legal(s, first + rest) && After(s, first + rest) == After(After(s, first), rest)
    decreases |first|
  {
    hide Next, Enabled;
    if first == [] {
      assert first + rest == rest;
    } else {
      Join(Next(s, first[0]), first[1..], rest);
      assert (first + rest)[1..] == first[1..] + rest && (first + rest)[0] == first[0];
    }
  }

  /** An owner that has lost the tunnel sends the request back, and it ends unavailable. */
  lemma BouncedEnds(s: Cluster, a: string, b: string, tid: nat, leg: nat, spare: nat, inst: string, rid: string)
    returns (run: seq<Step>)
    requires LivesElsewhere(s, a, b, inst) && inst !in s.hubs[b].installs
    requires Unused(s, a, tid) && Unused(s, a, spare) && spare != tid && Unused(s, b, leg)
    ensures run == [Start(a, tid, inst, rid, false), Published(a, tid), Deliver(Request(a, b, inst, rid), leg),
                    Deliver(Reply(b, a, inst, rid, NO_TUNNEL), spare), Resume(a, tid, false, false)]
    ensures Legal(s, run) && EndedWith(After(s, run), a, tid, Unavailable)
  {
    hide Next, Enabled, Legal, After, OwnedBy;
    var s2 := GoesToOwner(s, a, b, tid, inst, rid);
    var d := Deliver(Request(a, b, inst, rid), leg);
    var first := [Start(a, tid, inst, rid, false), Published(a, tid)];
    assert Unused(s2, b, leg) && s2.hubs[b] == s.hubs[b];
    hide LivesElsewhere;
    BusBounces(s2, a, b, leg, inst, rid);
    NothingDone(Next(s2, d));
    StepFirst(s2, d, []);
    assert [d] + [] == [d];
    StillExpects(s2, After(s2, [d]), a, b, tid, spare, inst, rid);
    hide Unused, Expects, OnlyAt;
    var last := ReplyEnds(After(s2, [d]), a, b, tid, spare, inst, rid, NO_TUNNEL);
    hide LivesElsewhere, EndedWith;
    InThree(s, first, [d], last);
    run := first + [d] + last;
  }

  lemma BusBounces(s: Cluster, a: string, b: string, leg: nat, inst: string, rid: string)
    requires Request(a, b, inst, rid) in s.bus && Unused(s, b, leg) && inst !in s.hubs[b].installs
    ensures var d := Deliver(Request(a, b, inst, rid), leg);
            Enabled(s, d) && Next(s, d).hubs == s.hubs && Reply(b, a, inst, rid, NO_TUNNEL) in Next(s, d).bus
  {
  }

  /** A tunnel that does not answer in time makes the leg give up, and the request ends timed out. */
  lemma SilenceTimesOut(s: Cluster, a: string, b: string, tid: nat, leg: nat, spare: nat, inst: string, rid: string)
    returns (run: seq<Step>)
    requires LivesElsewhere(s, a, b, inst) && inst in s.hubs[b].installs && s.timeout >= 0.0
    requires Unused(s, a, tid) && Unused(s, a, spare) && spare != tid && Unused(s, b, leg)
    ensures run == [Start(a, tid, inst, rid, false), Published(a, tid), Deliver(Request(a, b, inst, rid), leg),
                    FrameSent(b, leg), Tick(s.now + s.timeout), Expire(b, leg, false),
                    Deliver(Reply(b, a, inst, rid, TIMEOUT_FRAME), spare), Resume(a, tid, false, false)]
    ensures Legal(s, run) && EndedWith(After(s, run), a, tid, TimedOut)
  {
    hide Next, Enabled, Legal, After, OwnedBy;
    var s2 := GoesToOwner(s, a, b, tid, inst, rid);
    var first := [Start(a, tid, inst, rid, false), Published(a, tid)];
    assert Unused(s2, b, leg) && s2.hubs[b] == s.hubs[b];
    hide Unused, Expects, OnlyAt, LivesElsewhere;
    var middle := SilentRun(s2, a, b, leg, inst, rid);
    StillExpects(s2, After(s2, middle), a, b, tid, spare, inst, rid);
    var last := ReplyEnds(After(s2, middle), a, b, tid, spare, inst, rid, TIMEOUT_FRAME);
    hide EndedWith;
    InThree(s, first, middle, last);
    InOne(first[0], first[1], middle, last);
    run := first + middle + last;
  }

  lemma SilentRun(s: Cluster, a: string, b: string, leg: nat, inst: string, rid: string) returns (run: seq<Step>)
    requires Request(a, b, inst, rid) in s.bus && Unused(s, b, leg) && inst in s.hubs[b].installs && s.timeout >= 0.0
    ensures run == [Deliver(Request(a, b, inst, rid), leg), FrameSent(b, leg), Tick(s.now + s.timeout), Expire(b, leg, false)]
    ensures Legal(s, run) && OnlyAt(s, After(s, run), b)
    ensures Reply(b, a, inst, rid, TIMEOUT_FRAME) in After(s, run).bus
  {
    hide Next, Enabled, Unused;
    var d, to := Deliver(Request(a, b, inst, rid), leg), s.now + s.timeout;
    LegServes(s, a, b, leg, inst, rid);
    var s1 := Next(s, d);
    LegSends(s1, a, b, leg, inst, rid);
    LegExpires(Next(s1, FrameSent(b, leg)), a, b, leg, inst, rid, to);
    hide Serving;
    FourSteps(s, d, FrameSent(b, leg), Tick(to), Expire(b, leg, false));
    run := [d, FrameSent(b, leg), Tick(to), Expire(b, leg, false)];
  }

  lemma LegExpires(s: Cluster, a: string, b: string, leg: nat, inst: string, rid: string, to: Time)
    requires Serving(s, b, leg, a, inst, rid) && s.hubs[b].tasks[leg].phase == Awaiting(to) && s.now <= to
    ensures Enabled(s, Tick(to)) && Enabled(Next(s, Tick(to)), Expire(b, leg, false))
    ensures var s2 := Next(Next(s, Tick(to)), Expire(b, leg, false));
            Reply(b, a, inst, rid, TIMEOUT_FRAME) in s2.bus && s2.hubs == s.hubs[b := s2.hubs[b]]
  {
  }

  // ---- Requests that never leave the node --------------------------------------------------------------

  /** With a tunnel here the request is answered here, whatever the registry says. */
  lemma LocalAnswers(s: Cluster, a: string, tid: nat, inst: string, rid: string, oversize: bool, frame: Frame)
    returns (run: seq<Step>)
    requires Unused(s, a, tid) && inst in s.hubs[a].installs
    requires frame.requestId == rid && frame.origin == inst
    ensures run == [Start(a, tid, inst, rid, oversize), FrameSent(a, tid), TunnelAnswers(a, inst, frame), Resume(a, tid, false, false)]
    ensures Legal(s, run) && EndedWith(After(s, run), a, tid, Response(frame)) && After(s, run).bus == s.bus
  {
    var s2 := LocalStarts(s, a, tid, inst, rid, oversize);
    var t := TunnelAnswers(a, inst, frame);
    assert Enabled(s2, t) && Next(s2, t).bus == s.bus && Next(s2, t).hubs[a].tasks[tid].future == Settled(Response(frame));
    ResumeEnds(Next(s2, t), a, tid, Response(frame));
    hide Next, Enabled, Legal, After;
    TwoSteps(s2, t, Resume(a, tid, false, false));
    Join(s, [Start(a, tid, inst, rid, oversize), FrameSent(a, tid)], [t, Resume(a, tid, false, false)]);
    run := [Start(a, tid, inst, rid, oversize), FrameSent(a, tid)] + [t, Resume(a, tid, false, false)];
  }

  lemma LocalStarts(s: Cluster, a: string, tid: nat, inst: string, rid: string, oversize: bool) returns (s2: Cluster)
    requires Unused(s, a, tid) && inst in s.hubs[a].installs
    ensures Legal(s, [Start(a, tid, inst, rid, oversize), FrameSent(a, tid)])
    ensures s2 == After(s, [Start(a, tid, inst, rid, oversize), FrameSent(a, tid)])
    ensures s2.bus == s.bus && a in s2.hubs && s2.hubs[a].installs == s.hubs[a].installs && tid in s2.hubs[a].tasks
    ensures var h, conn := s2.hubs[a], s.hubs[a].installs[inst];
            && h.tasks[tid] == Task(Local(conn), inst, rid, Waiting, Awaiting(s.now + s.timeout), 0)
            && Slot(conn, rid) in h.pending && h.pending[Slot(conn, rid)] == tid
  {
    var s1 := Next(s, Start(a, tid, inst, rid, oversize));
    assert Enabled(s1, FrameSent(a, tid));
    s2 := Next(s1, FrameSent(a, tid));
    NothingDone(s2);
    StepFirst(s1, FrameSent(a, tid), []);
    StepFirst(s, Start(a, tid, inst, rid, oversize), [FrameSent(a, tid)]);
    assert [Start(a, tid, inst, rid, oversize)] + [FrameSent(a, tid)] == [Start(a, tid, inst, rid, oversize), FrameSent(a, tid)];
  }

  /** A request whose tunnel is replaced or lost under it ends unavailable at once, not at its deadline. */
  lemma LostTunnelEnds(s: Cluster, a: string, tid: nat, inst: string, rid: string, newer: Conn, replaced: bool)
    returns (run: seq<Step>)
    requires Unused(s, a, tid) && inst in s.hubs[a].installs && newer.inst == inst && newer != s.hubs[a].installs[inst]
    ensures run == [Start(a, tid, inst, rid, false), FrameSent(a, tid),
                    if replaced then Open(a, newer) else Close(a, inst, s.hubs[a].installs[inst]), Resume(a, tid, false, false)]
    ensures Legal(s, run) && EndedWith(After(s, run), a, tid, Unavailable)
  {
    var s2 := LocalStarts(s, a, tid, inst, rid, false);
    var conn := s.hubs[a].installs[inst];
    var step := if replaced then Open(a, newer) else Close(a, inst, conn);
    hide Next, Enabled, Legal, After, Unused;
    if replaced {
      ReplacedFails(s2, a, tid, inst, rid, newer);
    } else {
      ClosedFails(s2, a, tid, inst, rid);
    }
    ResumeEnds(Next(s2, step), a, tid, Unavailable);
    TwoSteps(s2, step, Resume(a, tid, false, false));
    Join(s, [Start(a, tid, inst, rid, false), FrameSent(a, tid)], [step, Resume(a, tid, false, false)]);
    run := [Start(a, tid, inst, rid, false), FrameSent(a, tid)] + [step, Resume(a, tid, false, false)];
  }

  lemma TwoSteps(s: Cluster, a: Step, b: Step)
    requires Enabled(s, a) && Enabled(Next(s, a), b)
    ensures Legal(s, [a, b]) && After(s, [a, b]) == Next(Next(s, a), b)
  {
    hide Next, Enabled;
    NothingDone(Next(Next(s, a), b));
    StepFirst(Next(s, a), b, []);
    StepFirst(s, a, [b]);
    assert [a] + [b] == [a, b];
  }

  /** A settled coroutine that waits can resume, and ends with what its future holds. */
  lemma ResumeEnds(s: Cluster, a: string, tid: nat, o: Outcome)
    requires a in s.hubs && tid in s.hubs[a].tasks && s.hubs[a].tasks[tid].phase.Awaiting?
    requires s.hubs[a].tasks[tid].future == Settled(o) && s.hubs[a].tasks[tid].role.Local?
    ensures var r := Resume(a, tid, false, false);
            Enabled(s, r) && EndedWith(Next(s, r), a, tid, o) && Next(s, r).bus == s.bus
  {
    assert s.bus + multiset{} == s.bus;
  }

  /** Coroutine `tid` waits on the node's own tunnel. */
  ghost predicate WaitsHere(s: Cluster, a: string, tid: nat, inst: string, rid: string) {
    && a in s.hubs && inst in s.hubs[a].installs && tid in s.hubs[a].tasks
    && var h, conn := s.hubs[a], s.hubs[a].installs[inst];
       && h.tasks[tid].role == Local(conn) && h.tasks[tid].phase.Awaiting? && h.tasks[tid].future.Waiting?
       && Slot(conn, rid) in h.pending && h.pending[Slot(conn, rid)] == tid
  }

  lemma ReplacedFails(s: Cluster, a: string, tid: nat, inst: string, rid: string, newer: Conn)
    requires WaitsHere(s, a, tid, inst, rid) && newer.inst == inst && newer != s.hubs[a].installs[inst]
    ensures Enabled(s, Open(a, newer)) && Failed(Next(s, Open(a, newer)), a, tid)
  {
    assert tid in PendingOf(s.hubs[a], s.hubs[a].installs[inst]);
  }

  lemma ClosedFails(s: Cluster, a: string, tid: nat, inst: string, rid: string)
    requires WaitsHere(s, a, tid, inst, rid)
    ensures var step := Close(a, inst, s.hubs[a].installs[inst]);
            Enabled(s, step) && Failed(Next(s, step), a, tid)
  {
    assert tid in PendingOf(s.hubs[a], s.hubs[a].installs[inst]);
  }

  ghost predicate Failed(s: Cluster, a: string, tid: nat) {
    && a in s.hubs && tid in s.hubs[a].tasks && s.hubs[a].tasks[tid].phase.Awaiting?
    && s.hubs[a].tasks[tid].future == Settled(Unavailable) && s.hubs[a].tasks[tid].role.Local?
  }

  /** A start is refused at once exactly when there is no tunnel here and no other live owner; or the request is
      too large for an envelope and would have had to be forwarded. */
  lemma RefusedExactly(s: Cluster, a: string, tid: nat, inst: string, rid: string, oversize: bool)
    requires Unused(s, a, tid)
    ensures var s1, here := Next(s, Start(a, tid, inst, rid, oversize)), inst in s.hubs[a].installs;
            var elsewhere := exists b :: b != a && OwnedBy(s, inst, b);
            && (EndedWith(s1, a, tid, Unavailable) <==> !here && !elsewhere)
            && (EndedWith(s1, a, tid, TooLarge) <==> !here && elsewhere && oversize)
            && (RunningAt(s1, a, tid) <==> here || (elsewhere && !oversize))
  {
    if OwnerOf(s.registry, inst, s.now).Some? {
      assert OwnedBy(s, inst, OwnerOf(s.registry, inst, s.now).value);
    }
    forall b ensures OwnedBy(s, inst, b) <==> OwnerOf(s.registry, inst, s.now) == Some(b) {}
  }
}
