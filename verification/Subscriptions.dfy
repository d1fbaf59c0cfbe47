/** The Control Plane subscription: its time-based transitions and the webhook events that drive it. */
module Subscriptions {
  import opened Wrappers

  type Time = real

  datatype State = ACTIVE | GRACE | SUSPENDED | CANCELLED

  /** Deployment settings; durations in seconds. */
  datatype Config = Config(minSeats: int, maxSeats: int, paymentGrace: Time, offlineGrace: Time,
                           snapshotTtl: Time, billingPeriod: Time)

  datatype Sub = Sub(state: State, seats: int, cancelAtPeriodEnd: bool, currentPeriodEnd: Option<Time>,
                     pendingSeats: Option<int>, pendingAt: Option<Time>, graceStartedAt: Option<Time>)

  function Clamp(c: Config, n: int): int {
    var low := if n < c.maxSeats then n else c.maxSeats;
    if low > c.minSeats then low else c.minSeats
  }

  function SeatsDue(c: Config, s: Sub, now: Time): Sub {
    if s.pendingSeats.Some? && s.pendingAt.Some? && now >= s.pendingAt.value then
      s.(seats := Clamp(c, s.pendingSeats.value), pendingSeats := None, pendingAt := None)
    else s
  }

  function CancelDue(s: Sub, now: Time): Sub {
    if s.cancelAtPeriodEnd && s.currentPeriodEnd.Some? && now >= s.currentPeriodEnd.value && s.state == ACTIVE then
      s.(state := CANCELLED)
    else s
  }

  function GraceDue(c: Config, s: Sub, now: Time): Sub {
    if s.state == GRACE && s.graceStartedAt.Some? && now >= s.graceStartedAt.value + c.paymentGrace then
      s.(state := SUSPENDED)
    else s
  }

  function Transition(c: Config, s: Sub, now: Time): Sub {
    GraceDue(c, CancelDue(SeatsDue(c, s, now), now), now)
  }

  /** A later application absorbs an earlier one. */
  lemma TransitionAbsorbs(c: Config, s: Sub, t1: Time, t2: Time)
    requires t1 <= t2
    ensures Transition(c, Transition(c, s, t1), t2) == Transition(c, s, t2)
  {
  }

  function Applied(c: Config, s: Sub, times: seq<Time>): Sub
    decreases |times|
  {
    if times == [] then s else Applied(c, Transition(c, s, times[0]), times[1..])
  }

  /** Any interleaving of sweeps, entitlement issues and relay checks at non-decreasing times leaves the
      subscription as the last of them alone would have. */
  lemma {:induction false} OnlyTheLastMatters(c: Config, s: Sub, times: seq<Time>)
    requires times != [] && forall i, j | 0 <= i < j < |times| :: times[i] <= times[j]
    ensures Applied(c, s, times) == Transition(c, s, times[|times| - 1])
    decreases |times|
  {
    if |times| > 1 {
      OnlyTheLastMatters(c, Transition(c, s, times[0]), times[1..]);
      TransitionAbsorbs(c, s, times[0], times[|times| - 1]);
    }
  }

  // ---- Webhook events --------------------------------------------------------------------------------

  /** Provider event types; `Other` is any type the map does not know. */
  datatype EventType =
    | InitialPurchase | Renewal | Uncancellation | ProductChange | NonRenewingPurchase
    | BillingIssue | SubscriptionPaused | Expiration | Cancellation | Other

  function Normalized(e: EventType): Option<State> {
    match e
    case InitialPurchase => Some(ACTIVE)
    case Renewal => Some(ACTIVE)
    case Uncancellation => Some(ACTIVE)
    case ProductChange => Some(ACTIVE)
    case NonRenewingPurchase => Some(ACTIVE)
    case BillingIssue => Some(GRACE)
    case SubscriptionPaused => Some(GRACE)
    case Expiration => Some(SUSPENDED)
    case Cancellation => None
    case Other => None
  }

  predicate Mutating(e: EventType) {
    Normalized(e).Some? || e.Cancellation? || e.Uncancellation?
  }

  /** Events whose arrival sets the subscription state; the two auto-renew switches do not. */
  predicate StateBearing(e: EventType) {
    Normalized(e).Some? && !e.Uncancellation?
  }

  function ApplyEvent(c: Config, s: Sub, e: EventType, now: Time): Sub {
    if e.Cancellation? then
      s.(cancelAtPeriodEnd := true,
         currentPeriodEnd := if s.currentPeriodEnd.None? then Some(now + c.billingPeriod) else s.currentPeriodEnd)
    else if e.Uncancellation? then s.(cancelAtPeriodEnd := false)
    else match Normalized(e)
      case Some(GRACE) => s.(state := GRACE, graceStartedAt := if s.state != GRACE then Some(now) else s.graceStartedAt)
      case Some(ACTIVE) => s.(state := ACTIVE, graceStartedAt := None, cancelAtPeriodEnd := false,
                              currentPeriodEnd := Some(now + c.billingPeriod))
      case Some(SUSPENDED) => s.(state := SUSPENDED)
      case Some(CANCELLED) => s.(state := CANCELLED)
      case None => s
  }

  /** Some events carry no timestamp, and some name no company. */
  datatype Event = Event(id: string, typ: EventType, timestampMs: Option<int>, named: bool)

  /** Unfinished: still "received", or an "error". */
  datatype Status = Processed | Ignored | Unfinished

  datatype Logged = Logged(timestampMs: Option<int>, named: bool, status: Status)

  /** One company: its subscription, and the event rows kept for it and for nobody, by event id. */
  datatype Account = Account(sub: Sub, events: map<string, Logged>)

  datatype Reply = Duplicate | Skipped | Done(state: Option<State>) | Failed

  /** Processing may fail before the subscription's change is committed, or after it. */
  datatype Trouble = Smooth | FailsBefore | FailsAfter

  /** The first time is before the second; an event without a time is before nothing and after nothing. */
  predicate Older(x: Option<int>, y: Option<int>) {
    x.Some? && y.Some? && x.value < y.value
  }

  predicate Counts(l: Logged) {
    l.named && l.status.Processed?
  }

  /** Not older than any processed event of the company. */
  predicate NotStale(a: Account, e: Event) {
    forall i | i in a.events && Counts(a.events[i]) :: !Older(e.timestampMs, a.events[i].timestampMs)
  }

  function Receive(c: Config, a: Account, e: Event, now: Time, t: Trouble): (Account, Reply) {
    if e.id in a.events then (a, Duplicate)
    else if Mutating(e.typ) && e.named && !NotStale(a, e) then
      (a.(events := a.events[e.id := Logged(e.timestampMs, e.named, Ignored)]), Skipped)
    else
      var sub := if e.named && !t.FailsBefore? then ApplyEvent(c, a.sub, e.typ, now) else a.sub;
      if t.Smooth? then
        (Account(sub, a.events[e.id := Logged(e.timestampMs, e.named, Processed)]),
         Done(if e.named then Some(sub.state) else None))
      else (Account(sub, a.events[e.id := Logged(e.timestampMs, e.named, Unfinished)]), Failed)
  }

  /** An owner's seat change: more seats at once, fewer at the next billing date. */
  function SetSeats(c: Config, s: Sub, wanted: int, now: Time): Sub {
    var seats := Clamp(c, wanted);
    if seats >= s.seats then s.(seats := seats, pendingSeats := None, pendingAt := None)
    else
      s.(pendingSeats := Some(seats),
         pendingAt := if s.currentPeriodEnd.Some? then s.currentPeriodEnd else Some(now + c.billingPeriod))
  }

  /** What happens to one company's account. `Passes` is any application of the time-based transitions. */
  datatype Happening = Arrives(event: Event, at: Time, trouble: Trouble) | Passes(at: Time) | Seats(wanted: int, at: Time)

  function Happen(c: Config, a: Account, h: Happening): Account {
    match h
    case Arrives(e, at, t) => Receive(c, a, e, at, t).0
    case Passes(at) => a.(sub := Transition(c, a.sub, at))
    case Seats(n, at) => a.(sub := SetSeats(c, a.sub, n, at))
  }

  function HappenAll(c: Config, a: Account, run: seq<Happening>): Account {
    if run == [] then a
    else
      var n := |run| - 1;
      Happen(c, HappenAll(c, a, run[..n]), run[n])
  }

  /** One id always names one event, however often it is delivered. */
  ghost predicate Consistent(run: seq<Happening>) {
    forall i, j | 0 <= i < |run| && 0 <= j < |run| && run[i].Arrives? && run[j].Arrives?
      && run[i].event.id == run[j].event.id :: run[i].event == run[j].event
  }

  /** Rows stay as they are, and a delivery leaves one. */
  lemma HappenRecords(c: Config, a: Account, h: Happening)
    ensures var a' := Happen(c, a, h);
            && (forall k | k in a.events :: k in a'.events && a'.events[k] == a.events[k])
            && (forall k | k in a'.events && k !in a.events :: h.Arrives? && k == h.event.id)
            && (h.Arrives? ==> h.event.id in a'.events)
            && (h.Arrives? && h.event.id !in a.events ==>
                  a'.events[h.event.id].timestampMs == h.event.timestampMs && a'.events[h.event.id].named == h.event.named)
  {
    hide NotStale, ApplyEvent, Transition, SetSeats;
  }

  /** What the event rows say after any run: exactly the events delivered, with their timestamps and whether they
      name the company. */
  lemma {:induction false} RowsMatchArrivals(c: Config, s: Sub, run: seq<Happening>)
    requires Consistent(run)
    ensures forall k :: k in HappenAll(c, Account(s, map[]), run).events <==>
                        exists i | 0 <= i < |run| :: run[i].Arrives? && run[i].event.id == k
    ensures forall i | 0 <= i < |run| && run[i].Arrives? ::
              run[i].event.id in HappenAll(c, Account(s, map[]), run).events
              && HappenAll(c, Account(s, map[]), run).events[run[i].event.id].timestampMs == run[i].event.timestampMs
              && HappenAll(c, Account(s, map[]), run).events[run[i].event.id].named == run[i].event.named
  {
    if run != [] {
      var n := |run| - 1;
      var first := run[..n];
      assert forall i | 0 <= i < n :: first[i] == run[i];
      RowsMatchArrivals(c, s, first);
      var a := HappenAll(c, Account(s, map[]), first);
      var a' := HappenAll(c, Account(s, map[]), run);
      HappenRecords(c, a, run[n]);
      assert a' == Happen(c, a, run[n]);
      hide HappenAll, Happen;
      forall i | 0 <= i < |run| && run[i].Arrives?
        ensures run[i].event.id in a'.events && a'.events[run[i].event.id].timestampMs == run[i].event.timestampMs
                && a'.events[run[i].event.id].named == run[i].event.named
      {
        if i < n {
          assert first[i].event.id in a.events;
        } else if run[n].event.id in a.events {
          var j :| 0 <= j < n && first[j].Arrives? && first[j].event.id == run[n].event.id;
          assert first[j].event == run[n].event;
        }
      }
    }
  }

  /** An event that was skipped was older than one that was processed. */
  ghost predicate SkippedForNewer(a: Account) {
    forall i | i in a.events && a.events[i].status.Ignored? ::
      exists j | j in a.events :: Counts(a.events[j]) && Older(a.events[i].timestampMs, a.events[j].timestampMs)
  }

  lemma {:induction false} SkippedAlways(c: Config, s: Sub, run: seq<Happening>)
    ensures SkippedForNewer(HappenAll(c, Account(s, map[]), run))
  {
    if run != [] {
      var n := |run| - 1;
      SkippedAlways(c, s, run[..n]);
      ReceiveSkips(c, HappenAll(c, Account(s, map[]), run[..n]), run[n]);
    }
  }

  lemma ReceiveSkips(c: Config, a: Account, h: Happening)
    requires SkippedForNewer(a)
    ensures SkippedForNewer(Happen(c, a, h))
  {
    hide Older, ApplyEvent, Transition, SetSeats;
    var a' := Happen(c, a, h);
    forall i | i in a'.events && a'.events[i].status.Ignored?
      ensures exists j | j in a'.events :: Counts(a'.events[j]) && Older(a'.events[i].timestampMs, a'.events[j].timestampMs) {
      if i in a.events {
        var j :| j in a.events && Counts(a.events[j]) && Older(a.events[i].timestampMs, a.events[j].timestampMs);
        assert a'.events[j] == a.events[j];
      } else {
        var j :| j in a.events && Counts(a.events[j]) && Older(h.event.timestampMs, a.events[j].timestampMs);
        assert a'.events[j] == a.events[j];
      }
    }
  }

  // ---- Which arrival decides -------------------------------------------------------------------------

  /** The first delivery of its event. */
  ghost predicate First(run: seq<Happening>, i: nat)
    requires i < |run|
  {
    run[i].Arrives? && forall j | 0 <= j < i && run[j].Arrives? :: run[j].event.id != run[i].event.id
  }

  /** A first delivery that named the company and was processed to the end. */
  ghost predicate Counted(run: seq<Happening>, i: nat)
    requires i < |run|
  {
    First(run, i) && run[i].event.named && run[i].trouble.Smooth?
  }

  /** Not older than anything counted before it. */
  ghost predicate UpToDate(run: seq<Happening>, i: nat)
    requires i < |run| && run[i].Arrives?
  {
    forall j | 0 <= j < i && Counted(run, j) :: !Older(run[i].event.timestampMs, run[j].event.timestampMs)
  }

  /** This arrival sets the subscription state. */
  ghost predicate Decides(run: seq<Happening>, i: nat)
    requires i < |run|
  {
    First(run, i) && run[i].event.named && UpToDate(run, i) && StateBearing(run[i].event.typ) && !run[i].trouble.FailsBefore?
  }

  /** An event row counts only if the delivery that made it did. */
  lemma {:induction false} RowsCount(c: Config, s: Sub, run: seq<Happening>, k: string) returns (j: nat)
    requires k in HappenAll(c, Account(s, map[]), run).events && Counts(HappenAll(c, Account(s, map[]), run).events[k])
    ensures j < |run| && Counted(run, j) && run[j].event.id == k
    ensures run[j].event.timestampMs == HappenAll(c, Account(s, map[]), run).events[k].timestampMs
  {
    var n := |run| - 1;
    var a := HappenAll(c, Account(s, map[]), run[..n]);
    if k in a.events {
      j := RowsCount(c, s, run[..n], k);
      assert forall i | 0 <= i < n :: run[..n][i] == run[i];
    } else {
      j := n;
      FirstSeen(c, s, run);
    }
  }

  /** An id without a row has not been delivered. */
  lemma {:induction false} NotSeen(c: Config, s: Sub, run: seq<Happening>, k: string)
    requires k !in HappenAll(c, Account(s, map[]), run).events
    ensures forall i | 0 <= i < |run| && run[i].Arrives? :: run[i].event.id != k
  {
    if run != [] {
      NotSeen(c, s, run[..|run| - 1], k);
      assert forall i | 0 <= i < |run| - 1 :: run[..|run| - 1][i] == run[i];
    }
  }

  lemma FirstSeen(c: Config, s: Sub, run: seq<Happening>)
    requires run != [] && run[|run| - 1].Arrives?
    requires run[|run| - 1].event.id !in HappenAll(c, Account(s, map[]), run[..|run| - 1]).events
    ensures First(run, |run| - 1)
  {
    var n := |run| - 1;
    NotSeen(c, s, run[..n], run[n].event.id);
    assert forall i | 0 <= i < n :: run[..n][i] == run[i];
  }

  /** A counted delivery leaves a row that counts, or one that was skipped for a newer one. */
  lemma {:induction false} CountedHasRow(c: Config, s: Sub, run: seq<Happening>, j: nat)
    requires Consistent(run) && j < |run| && Counted(run, j)
    ensures var a := HappenAll(c, Account(s, map[]), run);
            run[j].event.id in a.events && !a.events[run[j].event.id].status.Unfinished?
  {
    var n := |run| - 1;
    var before := HappenAll(c, Account(s, map[]), run[..n]);
    assert forall i | 0 <= i < n :: run[..n][i] == run[i];
    if j < n {
      CountedHasRow(c, s, run[..n], j);
    } else {
      RowsMatchArrivals(c, s, run[..n]);
      assert run[n].event.id !in before.events;
    }
    hide NotStale, ApplyEvent, Transition, SetSeats, HappenAll;
  }

  /** A first delivery is accepted exactly when nothing newer was counted before it. */
  lemma AcceptedIffUpToDate(c: Config, s: Sub, run: seq<Happening>, n: nat)
    requires Consistent(run) && n < |run| && First(run, n)
    ensures var a := HappenAll(c, Account(s, map[]), run[..n]);
            run[n].event.id !in a.events && (NotStale(a, run[n].event) <==> UpToDate(run, n))
  {
    var first, e := run[..n], run[n].event;
    assert forall i | 0 <= i < n :: first[i] == run[i];
    var a := HappenAll(c, Account(s, map[]), first);
    RowsMatchArrivals(c, s, first);
    if UpToDate(run, n) {
      forall k | k in a.events && Counts(a.events[k]) ensures !Older(e.timestampMs, a.events[k].timestampMs) {
        var j := RowsCount(c, s, first, k);
        assert Counted(run, j);
      }
    }
    if NotStale(a, e) {
      SkippedAlways(c, s, first);
      forall j | 0 <= j < n && Counted(run, j) ensures !Older(e.timestampMs, run[j].event.timestampMs) {
        StaleForAll(c, s, run, n, j);
      }
    }
  }

  lemma StaleForAll(c: Config, s: Sub, run: seq<Happening>, n: nat, j: nat)
    requires Consistent(run) && j < n < |run| && run[n].Arrives? && Counted(run, j)
    requires NotStale(HappenAll(c, Account(s, map[]), run[..n]), run[n].event)
    ensures !Older(run[n].event.timestampMs, run[j].event.timestampMs)
  {
    var first := run[..n];
    assert forall i | 0 <= i < n :: first[i] == run[i];
    var a := HappenAll(c, Account(s, map[]), first);
    var k := run[j].event.id;
    assert Counted(first, j) && Consistent(first);
    CountedHasRow(c, s, first, j);
    RowsMatchArrivals(c, s, first);
    SkippedAlways(c, s, first);
    hide HappenAll;
    assert first[j].event.id == k && a.events[k].timestampMs == run[j].event.timestampMs && a.events[k].named;
    if a.events[k].status.Ignored? {
      var m :| m in a.events && Counts(a.events[m]) && Older(a.events[k].timestampMs, a.events[m].timestampMs);
    }
  }

  lemma LastHappening(c: Config, s: Sub, run: seq<Happening>)
    requires Consistent(run) && run != []
    ensures var n := |run| - 1;
            var before, after := HappenAll(c, Account(s, map[]), run[..n]).sub.state, HappenAll(c, Account(s, map[]), run).sub.state;
            if Decides(run, n) then Some(after) == Normalized(run[n].event.typ)
            else !run[n].Passes? ==> after == before
  {
    var n := |run| - 1;
    var a := HappenAll(c, Account(s, map[]), run[..n]);
    assert HappenAll(c, Account(s, map[]), run) == Happen(c, a, run[n]);
    if run[n].Arrives? {
      if First(run, n) {
        AcceptedIffUpToDate(c, s, run, n);
      } else {
        RowsMatchArrivals(c, s, run[..n]);
        var j :| 0 <= j < n && run[j].Arrives? && run[j].event.id == run[n].event.id;
        assert run[..n][j] == run[j];
      }
    }
    hide HappenAll, First, UpToDate, NotStale;
  }

  lemma SamePrefix(run: seq<Happening>, n: nat, i: nat)
    requires i < n <= |run|
    ensures Decides(run[..n], i) <==> Decides(run, i)
  {
    assert forall j | 0 <= j < n :: run[..n][j] == run[j];
  }

  /** For any arrival order, any redeliveries, failures, ties and missing timestamps, with sweeps before and seat
      changes anywhere: the last first delivery of a state-bearing event of the company that was applied and not
      older than anything processed before it decides the final state. */
  lemma {:induction false} LatestDecides(c: Config, s: Sub, run: seq<Happening>, i: nat)
    requires Consistent(run) && i < |run| && Decides(run, i)
    requires forall j | i < j < |run| :: !Decides(run, j) && !run[j].Passes?
    ensures Some(HappenAll(c, Account(s, map[]), run).sub.state) == Normalized(run[i].event.typ)
    decreases |run|
  {
    var n := |run| - 1;
    LastHappening(c, s, run);
    if i < n {
      assert Consistent(run[..n]) by {
        assert forall j | 0 <= j < n :: run[..n][j] == run[j];
      }
      forall j | i <= j < n ensures Decides(run[..n], j) == Decides(run, j) {
        SamePrefix(run, n, j);
      }
      hide HappenAll, Decides, Consistent;
      LatestDecides(c, s, run[..n], i);
    }
  }

  /** If no arrival decides, the state is the one at the start. */
  lemma {:induction false} NoneDecides(c: Config, s: Sub, run: seq<Happening>)
    requires Consistent(run) && forall j | 0 <= j < |run| :: !Decides(run, j) && !run[j].Passes?
    ensures HappenAll(c, Account(s, map[]), run).sub.state == s.state
    decreases |run|
  {
    if run != [] {
      var n := |run| - 1;
      LastHappening(c, s, run);
      assert Consistent(run[..n]) by {
        assert forall j | 0 <= j < n :: run[..n][j] == run[j];
      }
      forall j | 0 <= j < n ensures !Decides(run[..n], j) {
        SamePrefix(run, n, j);
      }
      hide HappenAll, Decides, Consistent;
      NoneDecides(c, s, run[..n]);
    }
  }

  /** In particular the strictly newest of timestamped events, if it is state-bearing, its first delivery at `i`
      is processed to the end, and no time-based transition is applied after that. */
  lemma NewestDecides(c: Config, s: Sub, run: seq<Happening>, i: nat)
    requires Consistent(run) && i < |run| && Counted(run, i) && StateBearing(run[i].event.typ)
    requires forall j | 0 <= j < |run| && run[j].Arrives? && run[j].event != run[i].event ::
               Older(run[j].event.timestampMs, run[i].event.timestampMs)
    requires forall j | i < j < |run| :: !run[j].Passes?
    ensures Some(HappenAll(c, Account(s, map[]), run).sub.state) == Normalized(run[i].event.typ)
  {
    assert Decides(run, i);
    forall j | i < j < |run| ensures !Decides(run, j) {
      assert run[j].Arrives? && run[j].event == run[i].event ==> !First(run, j);
    }
    LatestDecides(c, s, run, i);
  }

  /** A redelivered event changes nothing, however much happened in between. */
  lemma {:induction false} EachEventOnce(c: Config, a: Account, between: seq<Happening>, e: Event, at: Time,
                                         t: Trouble, again: Time, t2: Trouble)
    ensures var before := HappenAll(c, Receive(c, a, e, at, t).0, between);
            Receive(c, before, e, again, t2) == (before, Duplicate)
  {
    if between != [] {
      EachEventOnce(c, a, between[..|between| - 1], e, at, t, again, t2);
    }
  }

  /** So an event whose processing failed before it was applied is lost: the provider is told of the failure, but
      its redelivery is taken for a duplicate, however much later and however smooth. */
  lemma FailedIsLost(c: Config, a: Account, between: seq<Happening>, e: Event, at: Time, again: Time)
    requires e.id !in a.events && e.named && NotStale(a, e)
    ensures Receive(c, a, e, at, FailsBefore).1 == Failed && Receive(c, a, e, at, FailsBefore).0.sub == a.sub
    ensures var before := HappenAll(c, Receive(c, a, e, at, FailsBefore).0, between);
            Receive(c, before, e, again, Smooth) == (before, Duplicate)
  {
    EachEventOnce(c, a, between, e, at, FailsBefore, again, Smooth);
  }

  /** With equal timestamps arrival order decides, so strictness is needed. */
  lemma TiesFollowArrivalOrder(c: Config, s: Sub, x: Time)
    ensures var e, f := Event("e", Renewal, Some(1), true), Event("f", Expiration, Some(1), true);
            && HappenAll(c, Account(s, map[]), [Arrives(e, x, Smooth), Arrives(f, x, Smooth)]).sub.state == SUSPENDED
            && HappenAll(c, Account(s, map[]), [Arrives(f, x, Smooth), Arrives(e, x, Smooth)]).sub.state == ACTIVE
  {
    var e, f := Arrives(Event("e", Renewal, Some(1), true), x, Smooth), Arrives(Event("f", Expiration, Some(1), true), x, Smooth);
    var a := Account(s, map[]);
    assert [e, f][..1] == [e] && [f, e][..1] == [f] && [e][..0] == [] && [f][..0] == [];
    assert HappenAll(c, a, [e]) == Receive(c, HappenAll(c, a, []), e.event, x, Smooth).0;
    assert HappenAll(c, a, [f]) == Receive(c, HappenAll(c, a, []), f.event, x, Smooth).0;
    assert HappenAll(c, a, [e, f]) == Receive(c, HappenAll(c, a, [e]), f.event, x, Smooth).0;
    assert HappenAll(c, a, [f, e]) == Receive(c, HappenAll(c, a, [f]), e.event, x, Smooth).0;
  }

  // ---- The rows in place -------------------------------------------------------------------------------

  // ---- What each event leaves behind ----------------------------------------------------------------------

  /** The event is new to the account, names the company, is not out of order, and is applied. */
  predicate Applies(a: Account, e: Event, t: Trouble) {
    && e.id !in a.events && e.named && !t.FailsBefore?
    && forall i | i in a.events && a.events[i].named && a.events[i].status.Processed? ::
         !Older(e.timestampMs, a.events[i].timestampMs)
  }

  /** Nothing but the passing of time, seat changes and redeliveries. */
  predicate Quiet(a: Account, rest: seq<Happening>) {
    forall i | 0 <= i < |rest| :: rest[i].Arrives? ==> rest[i].event.id in a.events
  }

  predicate Reaches(rest: seq<Happening>, t: Time) {
    exists i | 0 <= i < |rest| :: rest[i].Passes? && rest[i].at >= t
  }

  lemma ReachesMore(rest: seq<Happening>, t: Time)
    requires rest != []
    ensures var n := |rest| - 1;
            Reaches(rest, t) <==> Reaches(rest[..n], t) || (rest[n].Passes? && rest[n].at >= t)
  {
    var n := |rest| - 1;
    if i :| 0 <= i < |rest| && rest[i].Passes? && rest[i].at >= t {
      if i < n {
        assert rest[..n][i] == rest[i];
      }
    }
    if j :| 0 <= j < n && rest[..n][j].Passes? && rest[..n][j].at >= t {
      assert rest[j] == rest[..n][j];
    }
  }

  /** How the state of a subscription moves on by itself: it is cancelled once its period has ended if it was
      switched off, and suspended once its grace is over. */
  lemma {:induction false} MovesOn(c: Config, a: Account, rest: seq<Happening>)
    requires Quiet(a, rest)
    ensures var b := HappenAll(c, a, rest);
            && b.events == a.events && b.sub.cancelAtPeriodEnd == a.sub.cancelAtPeriodEnd
            && b.sub.currentPeriodEnd == a.sub.currentPeriodEnd && b.sub.graceStartedAt == a.sub.graceStartedAt
            && b.sub.state ==
                 if a.sub.state == ACTIVE && a.sub.cancelAtPeriodEnd && a.sub.currentPeriodEnd.Some?
                    && Reaches(rest, a.sub.currentPeriodEnd.value) then CANCELLED
                 else if a.sub.state == GRACE && a.sub.graceStartedAt.Some?
                    && Reaches(rest, a.sub.graceStartedAt.value + c.paymentGrace) then SUSPENDED
                 else a.sub.state
  {
    if rest != [] {
      var n := |rest| - 1;
      assert forall i | 0 <= i < n :: rest[..n][i] == rest[i];
      MovesOn(c, a, rest[..n]);
      if a.sub.currentPeriodEnd.Some? {
        ReachesMore(rest, a.sub.currentPeriodEnd.value);
      }
      if a.sub.graceStartedAt.Some? {
        ReachesMore(rest, a.sub.graceStartedAt.value + c.paymentGrace);
      }
      StepMoves(c, HappenAll(c, a, rest[..n]), rest[n]);
      hide Reaches, Quiet, Happen;
    }
  }

  lemma StepMoves(c: Config, a: Account, h: Happening)
    requires h.Arrives? ==> h.event.id in a.events
    ensures var b := Happen(c, a, h);
            && b.events == a.events && b.sub.cancelAtPeriodEnd == a.sub.cancelAtPeriodEnd
            && b.sub.currentPeriodEnd == a.sub.currentPeriodEnd && b.sub.graceStartedAt == a.sub.graceStartedAt
            && b.sub.state ==
                 if h.Passes? && a.sub.state == ACTIVE && a.sub.cancelAtPeriodEnd && a.sub.currentPeriodEnd.Some?
                    && h.at >= a.sub.currentPeriodEnd.value then CANCELLED
                 else if h.Passes? && a.sub.state == GRACE && a.sub.graceStartedAt.Some?
                    && h.at >= a.sub.graceStartedAt.value + c.paymentGrace then SUSPENDED
                 else a.sub.state
  {
    hide NotStale, ApplyEvent;
  }

  /** After a cancellation an ACTIVE subscription stays ACTIVE while every transition comes before the end of its
      period, and is CANCELLED once one comes at or after it; a period that had no end ends one billing period later. */
  lemma CancellationTakesEffect(c: Config, a: Account, e: Event, at: Time, t: Trouble, rest: seq<Happening>)
    requires a.sub.state == ACTIVE && e.typ.Cancellation? && Applies(a, e, t)
    requires Quiet(Happen(c, a, Arrives(e, at, t)), rest)
    ensures var end := if a.sub.currentPeriodEnd.Some? then a.sub.currentPeriodEnd.value else at + c.billingPeriod;
            var b := HappenAll(c, Happen(c, a, Arrives(e, at, t)), rest);
            b.sub.currentPeriodEnd == Some(end) && b.sub.state == if Reaches(rest, end) then CANCELLED else ACTIVE
  {
    MovesOn(c, Happen(c, a, Arrives(e, at, t)), rest);
  }

  /** Switched on again, or renewed, before the period has ended, it stays ACTIVE however much time passes. */
  lemma ResumedStaysActive(c: Config, a: Account, e: Event, at: Time, t: Trouble, rest: seq<Happening>)
    requires a.sub.state == ACTIVE && Applies(a, e, t) && (e.typ.Uncancellation? || e.typ.Renewal?)
    requires Quiet(Happen(c, a, Arrives(e, at, t)), rest)
    ensures HappenAll(c, Happen(c, a, Arrives(e, at, t)), rest).sub.state == ACTIVE
  {
    MovesOn(c, Happen(c, a, Arrives(e, at, t)), rest);
  }

  /** A whole story: cancelled, some time within the period, resumed, and then any time at all. */
  lemma CancelledAndResumed(c: Config, a: Account, e: Event, at: Time, t: Trouble, between: seq<Happening>,
                            f: Event, later: Time, u: Trouble, rest: seq<Happening>)
    requires a.sub.state == ACTIVE && a.sub.currentPeriodEnd.Some? && e.typ.Cancellation? && Applies(a, e, t)
    requires Quiet(Happen(c, a, Arrives(e, at, t)), between) && !Reaches(between, a.sub.currentPeriodEnd.value)
    requires var mid := HappenAll(c, Happen(c, a, Arrives(e, at, t)), between);
             && Applies(mid, f, u) && (f.typ.Uncancellation? || f.typ.Renewal?)
             && Quiet(Happen(c, mid, Arrives(f, later, u)), rest)
    ensures var mid := HappenAll(c, Happen(c, a, Arrives(e, at, t)), between);
            HappenAll(c, Happen(c, mid, Arrives(f, later, u)), rest).sub.state == ACTIVE
  {
    hide Happen, HappenAll, Applies, Quiet, Reaches;
    CancellationTakesEffect(c, a, e, at, t, between);
    ResumedStaysActive(c, HappenAll(c, Happen(c, a, Arrives(e, at, t)), between), f, later, u, rest);
  }

  /** A renewal makes any subscription ACTIVE for one billing period from its arrival, ends grace, and switches it
      on again. */
  lemma RenewalRestores(c: Config, a: Account, e: Event, at: Time, t: Trouble, rest: seq<Happening>)
    requires e.typ.InitialPurchase? || e.typ.Renewal? || e.typ.ProductChange? || e.typ.NonRenewingPurchase?
    requires Applies(a, e, t) && Quiet(Happen(c, a, Arrives(e, at, t)), rest)
    ensures var b := HappenAll(c, Happen(c, a, Arrives(e, at, t)), rest).sub;
            b.state == ACTIVE && !b.cancelAtPeriodEnd && b.currentPeriodEnd == Some(at + c.billingPeriod) && b.graceStartedAt == None
  {
    MovesOn(c, Happen(c, a, Arrives(e, at, t)), rest);
  }

  /** A failed payment, or a pause, starts grace at its arrival; another one during grace does not start it anew. Once
      a transition comes at or after the end of grace the subscription is SUSPENDED. */
  lemma FailedPaymentRuns(c: Config, a: Account, e: Event, at: Time, t: Trouble, rest: seq<Happening>)
    requires (e.typ.BillingIssue? || e.typ.SubscriptionPaused?) && Applies(a, e, t)
    requires Quiet(Happen(c, a, Arrives(e, at, t)), rest)
    ensures var b := HappenAll(c, Happen(c, a, Arrives(e, at, t)), rest).sub;
            && b.graceStartedAt == (if a.sub.state == GRACE then a.sub.graceStartedAt else Some(at))
            && b.state == if b.graceStartedAt.Some? && Reaches(rest, b.graceStartedAt.value + c.paymentGrace) then SUSPENDED else GRACE
  {
    MovesOn(c, Happen(c, a, Arrives(e, at, t)), rest);
  }

  /** An expiry suspends, for good until another event comes. */
  lemma ExpirySuspends(c: Config, a: Account, e: Event, at: Time, t: Trouble, rest: seq<Happening>)
    requires e.typ.Expiration? && Applies(a, e, t) && Quiet(Happen(c, a, Arrives(e, at, t)), rest)
    ensures HappenAll(c, Happen(c, a, Arrives(e, at, t)), rest).sub.state == SUSPENDED
  {
    MovesOn(c, Happen(c, a, Arrives(e, at, t)), rest);
  }

  /** An event of a type that is not known is recorded and changes nothing; so does one that names no company. */
  lemma OthersChangeNothing(c: Config, a: Account, e: Event, at: Time, t: Trouble)
    requires e.typ.Other? || !e.named
    ensures Happen(c, a, Arrives(e, at, t)).sub == a.sub && e.id in Happen(c, a, Arrives(e, at, t)).events
  {
  }

  /** An event of any known type that is older than one processed for the company is recorded and changes nothing. */
  lemma LateChangesNothing(c: Config, a: Account, e: Event, at: Time, t: Trouble, i: string)
    requires !e.typ.Other? && e.named && e.id !in a.events
    requires i in a.events && a.events[i].named && a.events[i].status.Processed? && Older(e.timestampMs, a.events[i].timestampMs)
    ensures Receive(c, a, e, at, t) == (a.(events := a.events[e.id := Logged(e.timestampMs, true, Ignored)]), Skipped)
  {
  }

  /** The four replies: a duplicate for an id seen before; skipped for a known event that is late; failed when
      processing did; else done, with the state that the company is in afterwards. */
  lemma RepliesExactly(c: Config, a: Account, e: Event, at: Time, t: Trouble)
    ensures var (b, r) := Receive(c, a, e, at, t);
            var late := !e.typ.Other? && e.named && exists i | i in a.events ::
                          a.events[i].named && a.events[i].status == Processed && Older(e.timestampMs, a.events[i].timestampMs);
            && (r == Duplicate <==> e.id in a.events)
            && (r == Skipped <==> e.id !in a.events && late)
            && (r == Failed <==> e.id !in a.events && !late && t != Smooth)
            && (r.Done? <==> e.id !in a.events && !late && t == Smooth)
            && (r.Done? ==> r.state == if e.named then Some(b.sub.state) else None)
  {
    hide ApplyEvent;
  }

  // ---- Seats ---------------------------------------------------------------------------------------------------

  predicate NoSeats(rest: seq<Happening>) {
    forall i | 0 <= i < |rest| :: !rest[i].Seats?
  }

  /** A scheduled number of seats takes effect with the first transition at or after its date, and not before. */
  lemma {:induction false} SeatsMoveOn(c: Config, a: Account, rest: seq<Happening>)
    requires Quiet(a, rest) && NoSeats(rest) && (a.sub.pendingSeats.Some? <==> a.sub.pendingAt.Some?)
    ensures var b := HappenAll(c, a, rest).sub;
            var due := a.sub.pendingAt.Some? && Reaches(rest, a.sub.pendingAt.value);
            && b.seats == (if due then Clamp(c, a.sub.pendingSeats.value) else a.sub.seats)
            && b.pendingSeats == (if due then None else a.sub.pendingSeats)
            && b.pendingAt == (if due then None else a.sub.pendingAt)
  {
    if rest != [] {
      var n := |rest| - 1;
      assert forall i | 0 <= i < n :: rest[..n][i] == rest[i];
      MovesOn(c, a, rest[..n]);
      SeatsMoveOn(c, a, rest[..n]);
      if a.sub.pendingAt.Some? {
        ReachesMore(rest, a.sub.pendingAt.value);
      }
      StepSeats(c, HappenAll(c, a, rest[..n]), rest[n]);
      hide Reaches, Quiet, NoSeats, Happen, Clamp;
    }
  }

  lemma StepSeats(c: Config, a: Account, h: Happening)
    requires (h.Arrives? ==> h.event.id in a.events) && !h.Seats?
    ensures var b := Happen(c, a, h).sub;
            var due := a.sub.pendingSeats.Some? && a.sub.pendingAt.Some? && h.Passes? && h.at >= a.sub.pendingAt.value;
            && b.seats == (if due then Clamp(c, a.sub.pendingSeats.value) else a.sub.seats)
            && b.pendingSeats == (if due then None else a.sub.pendingSeats)
            && b.pendingAt == (if due then None else a.sub.pendingAt)
  {
    hide NotStale, ApplyEvent, Clamp;
  }

  /** An owner who asks for more seats has them at once; one who asks for fewer keeps the old number until a transition
      at or after the end of the billing period. The number is always kept between the two limits. */
  lemma SeatsTakeEffect(c: Config, a: Account, wanted: int, at: Time, rest: seq<Happening>)
    requires Quiet(a, rest) && NoSeats(rest) && c.minSeats <= c.maxSeats
    ensures var asked := if wanted < c.minSeats then c.minSeats else if wanted > c.maxSeats then c.maxSeats else wanted;
            var date := if a.sub.currentPeriodEnd.Some? then a.sub.currentPeriodEnd.value else at + c.billingPeriod;
            HappenAll(c, Happen(c, a, Seats(wanted, at)), rest).sub.seats ==
              if asked >= a.sub.seats || Reaches(rest, date) then asked else a.sub.seats
  {
    SeatsMoveOn(c, Happen(c, a, Seats(wanted, at)), rest);
  }

  class SubscriptionRow {
    var sub: Sub
    var events: map<string, Logged>

    constructor (s: Sub)
      ensures sub == s && events == map[]
    {
      sub, events := s, map[];
    }

    method ApplyBillingTransitions(c: Config, now: Time)
      modifies this`sub
      ensures sub == Transition(c, old(sub), now)
    {
      if sub.pendingSeats.Some? && sub.pendingAt.Some? && now >= sub.pendingAt.value {
        sub := sub.(seats := Clamp(c, sub.pendingSeats.value));
        sub := sub.(pendingSeats := None);
        sub := sub.(pendingAt := None);
      }
      if sub.cancelAtPeriodEnd && sub.currentPeriodEnd.Some? && now >= sub.currentPeriodEnd.value && sub.state == ACTIVE {
        sub := sub.(state := CANCELLED);
      }
      if sub.state == GRACE && sub.graceStartedAt.Some? && now >= sub.graceStartedAt.value + c.paymentGrace {
        sub := sub.(state := SUSPENDED);
      }
    }

    method SetSubscriptionSeats(c: Config, wanted: int, now: Time)
      modifies this`sub
      ensures sub == SetSeats(c, old(sub), wanted, now)
      ensures sub.state == old(sub.state) && sub.graceStartedAt == old(sub.graceStartedAt)
    {
      var seats := Clamp(c, wanted);
      if seats >= sub.seats {
        sub := sub.(seats := seats);
        sub := sub.(pendingSeats := None);
        sub := sub.(pendingAt := None);
      } else {
        sub := sub.(pendingSeats := Some(seats));
        var due := if sub.currentPeriodEnd.Some? then sub.currentPeriodEnd.value else now + c.billingPeriod;
        sub := sub.(pendingAt := Some(due));
      }
    }

    /** Records, orders and applies one verified webhook event. */
    method ProcessWebhook(c: Config, e: Event, now: Time, t: Trouble) returns (r: Reply)
      modifies this
      ensures (Account(sub, events), r) == Receive(c, Account(old(sub), old(events)), e, now, t)
    {
      if e.id in events {
        return Duplicate;
      }
      ghost var was := events;
      events := events[e.id := Logged(e.timestampMs, e.named, Unfinished)];
      if Mutating(e.typ) && e.named {
        var stale := exists i | i in events :: Counts(events[i]) && Older(e.timestampMs, events[i].timestampMs);
        assert stale <==> !NotStale(Account(sub, was), e) by { SameCount(was, e); }
        if stale {
          events := events[e.id := Logged(e.timestampMs, e.named, Ignored)];
          assert events == was[e.id := Logged(e.timestampMs, e.named, Ignored)];
          return Skipped;
        }
      }
      if t.FailsBefore? {
        return Failed;
      }
      if e.named {
        ApplyBillingEvent(c, e.typ, now);
      }
      if t.FailsAfter? {
        return Failed;
      }
      events := events[e.id := Logged(e.timestampMs, e.named, Processed)];
      assert events == was[e.id := Logged(e.timestampMs, e.named, Processed)];
      return Done(if e.named then Some(sub.state) else None);
    }

    /** The row just received counts for nothing yet. */
    lemma SameCount(was: map<string, Logged>, e: Event)
      requires e.id !in was
      ensures var now := was[e.id := Logged(e.timestampMs, e.named, Unfinished)];
              (exists i | i in now :: Counts(now[i]) && Older(e.timestampMs, now[i].timestampMs)) <==>
              !(forall i | i in was && Counts(was[i]) :: !Older(e.timestampMs, was[i].timestampMs))
    {
      var now := was[e.id := Logged(e.timestampMs, e.named, Unfinished)];
      assert forall i | i in was :: now[i] == was[i];
    }

    method ApplyBillingEvent(c: Config, typ: EventType, now: Time)
      modifies this`sub
      ensures sub == ApplyEvent(c, old(sub), typ, now)
    {
      var periodEnd := now + c.billingPeriod;
      var normalized := Normalized(typ);
      if typ.Cancellation? {
        sub := sub.(cancelAtPeriodEnd := true);
        if sub.currentPeriodEnd.None? {
          sub := sub.(currentPeriodEnd := Some(periodEnd));
        }
      } else if typ.Uncancellation? {
        sub := sub.(cancelAtPeriodEnd := false);
      } else if normalized == Some(GRACE) {
        if sub.state != GRACE {
          sub := sub.(graceStartedAt := Some(now));
        }
        sub := sub.(state := GRACE);
      } else if normalized == Some(ACTIVE) {
        sub := sub.(state := ACTIVE);
        sub := sub.(graceStartedAt := None, cancelAtPeriodEnd := false, currentPeriodEnd := Some(periodEnd));
      } else if normalized.Some? {
        sub := sub.(state := normalized.value);
      }
    }
  }

  function Values(rows: seq<SubscriptionRow>): (v: seq<Sub>)
    reads rows
    ensures |v| == |rows| && forall i | 0 <= i < |v| :: v[i] == rows[i].sub
  {
    seq(|rows|, i requires 0 <= i < |rows| reads rows => rows[i].sub)
  }

  /** How many of the subscriptions change state or seats, each at its own reading of the clock. */
  function Changes(c: Config, subs: seq<Sub>, clock: seq<Time>): nat
    requires |clock| == |subs|
  {
    if subs == [] then 0
    else
      var n := |subs| - 1;
      var after := Transition(c, subs[n], clock[n]);
      Changes(c, subs[..n], clock[..n]) + (if after.state != subs[n].state || after.seats != subs[n].seats then 1 else 0)
  }

  /** Sweeps every subscription and counts those whose state or seats changed. */
  method SweepBilling(c: Config, rows: seq<SubscriptionRow>, clock: seq<Time>) returns (changed: nat)
    requires |clock| == |rows| && forall i, j | 0 <= i < j < |rows| :: rows[i] != rows[j]
    modifies rows
    ensures forall i | 0 <= i < |rows| :: rows[i].sub == Transition(c, old(rows[i].sub), clock[i])
    ensures changed == Changes(c, old(Values(rows)), clock)
  {
    ghost var was := Values(rows);
    changed := 0;
    for k := 0 to |rows|
      invariant forall i | 0 <= i < k :: rows[i].sub == Transition(c, was[i], clock[i])
      invariant forall i | k <= i < |rows| :: rows[i].sub == was[i]
      invariant changed == Changes(c, was[..k], clock[..k])
    {
      hide Transition;
      assert was[..k + 1][..k] == was[..k] && clock[..k + 1][..k] == clock[..k];
      var state, seats := rows[k].sub.state, rows[k].sub.seats;
      rows[k].ApplyBillingTransitions(c, clock[k]);
      if rows[k].sub.state != state || rows[k].sub.seats != seats {
        changed := changed + 1;
      }
    }
    assert was[..|rows|] == was && clock[..|rows|] == clock;
  }
}
