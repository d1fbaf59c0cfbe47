/** Signed entitlements on an Office installation: issued with an offline window, cached, re-verified on use
    and snapshotted; and how long they can outlive a failed payment. */
module Entitlements {
  import opened Wrappers
  import opened Subscriptions

  /** The claims that decide access. `graceUntil` is also the token's `exp`: whole seconds, truncated. */
  datatype Token = Token(state: State, issuedAt: Time, graceUntil: int)

  function Issue(c: Config, s: Sub, now: Time): Token {
    Token(s.state, now, (now + c.offlineGrace).Floor)
  }

  datatype Effective = Effective(state: State, businessAccess: bool, withinOfflineGrace: bool)

  /** Signature checks aside, a token verifies strictly before its expiry (RFC 7519, section 4.1.4). */
  function Verified(t: Option<Token>, now: Time): Option<Token> {
    if t.Some? && now < t.value.graceUntil as real then t else None
  }

  function Evaluate(t: Option<Token>, now: Time): Effective {
    match t
    case None => Effective(SUSPENDED, false, false)
    case Some(e) =>
      if e.state == SUSPENDED || e.state == CANCELLED then Effective(e.state, false, false)
      else if now <= e.graceUntil as real then Effective(e.state, true, true)
      else Effective(SUSPENDED, false, false)
  }

  /** Access needs a token that still verifies and asserts ACTIVE or GRACE; the second expiry test inside
      `evaluate` never decides anything for a token that verified at the same moment. */
  lemma AccessExactly(t: Option<Token>, now: Time)
    ensures Evaluate(Verified(t, now), now).businessAccess <==>
              t.Some? && (t.value.state == ACTIVE || t.value.state == GRACE) && now < t.value.graceUntil as real
    ensures Verified(t, now).Some? && (t.value.state == ACTIVE || t.value.state == GRACE) ==>
              Evaluate(Verified(t, now), now).state == t.value.state
    ensures Evaluate(Verified(t, now), now).withinOfflineGrace <==> Evaluate(Verified(t, now), now).businessAccess
  {
  }

  predicate Allows(s: State) {
    s == ACTIVE || s == GRACE
  }

  // ---- One company's subscription and an installation that uses it --------------------------------------

  datatype Snapshot = Snapshot(state: State, at: Time)

  /** `issued` holds every token the Control Plane ever signed for the company. */
  datatype World = World(sub: Sub, issued: set<Token>, cache: Option<Token>, snapshot: Option<Snapshot>)

  datatype Act =
    | IssueToken             // activation or refresh reaches the Control Plane
    | StoreToken(t: Token)   // a signed token reaches this installation, however late
    | RefreshFails           // outage or rejected token: the cached one is kept
    | Sweep                  // billing sweep or relay entitlement check
    | Bill(typ: EventType)   // a billing event is applied
    | ChangeSeats(wanted: int)
    | UseApp                 // effective_state_cached

  datatype TimedAct = TimedAct(act: Act, at: Time)

  predicate Possible(w: World, a: TimedAct) {
    a.act.StoreToken? ==> a.act.t in w.issued
  }

  function Do(c: Config, w: World, a: TimedAct): World
    requires Possible(w, a)
  {
    match a.act
    case IssueToken =>
      var sub := Transition(c, w.sub, a.at);
      w.(sub := sub, issued := w.issued + {Issue(c, sub, a.at)})
    case StoreToken(t) =>
      if Verified(Some(t), a.at).Some? then w.(cache := Some(t), snapshot := None) else w.(snapshot := None)
    case RefreshFails => w.(snapshot := None)
    case Sweep => w.(sub := Transition(c, w.sub, a.at))
    case Bill(typ) => w.(sub := ApplyEvent(c, w.sub, typ, a.at))
    case ChangeSeats(n) => w.(sub := SetSeats(c, w.sub, n, a.at))
    case UseApp => w.(snapshot := Resnapshot(c, w.cache, w.snapshot, a.at))
  }

  predicate SnapshotFresh(c: Config, snapshot: Option<Snapshot>, now: Time) {
    snapshot.Some? && now - snapshot.value.at < c.snapshotTtl
  }

  /** The state the business guard acts on. */
  function Answer(c: Config, cache: Option<Token>, snapshot: Option<Snapshot>, now: Time): State {
    if SnapshotFresh(c, snapshot, now) then snapshot.value.state else Evaluate(Verified(cache, now), now).state
  }

  function Resnapshot(c: Config, cache: Option<Token>, snapshot: Option<Snapshot>, now: Time): Option<Snapshot> {
    if SnapshotFresh(c, snapshot, now) then snapshot else Some(Snapshot(Answer(c, cache, snapshot, now), now))
  }

  ghost predicate Legal(c: Config, w: World, run: seq<TimedAct>)
    decreases |run|
  {
    run == [] || (Possible(w, run[0]) && Legal(c, Do(c, w, run[0]), run[1..]))
  }

  ghost function After(c: Config, w: World, run: seq<TimedAct>): World
    requires Legal(c, w, run)
    decreases |run|
  {
    if run == [] then w else After(c, Do(c, w, run[0]), run[1..])
  }

  predicate Access(c: Config, w: World, now: Time) {
    Allows(Answer(c, w.cache, w.snapshot, now))
  }

  /** A serial history: times never go back. */
  ghost predicate InOrder(run: seq<TimedAct>) {
    forall i, j | 0 <= i < j < |run| :: run[i].at <= run[j].at
  }

  ghost predicate NoBill(run: seq<TimedAct>) {
    forall i | 0 <= i < |run| :: !run[i].act.Bill?
  }

  // ---- What every history leaves behind ------------------------------------------------------------------

  /** A company just activated. */
  ghost predicate Activated(w: World) {
    && w.sub.state == ACTIVE && w.sub.graceStartedAt == None
    && w.issued == {} && w.cache == None && w.snapshot == None
  }

  predicate SubPast(s: Sub, t: Time) {
    s.state == GRACE ==> s.graceStartedAt.Some? && s.graceStartedAt.value <= t
  }

  /** Everything in the world dates from `t` or before. */
  ghost predicate Past(c: Config, w: World, t: Time) {
    && SubPast(w.sub, t)
    && (forall k | k in w.issued :: k.issuedAt <= t && k.graceUntil == (k.issuedAt + c.offlineGrace).Floor)
    && (w.cache.Some? ==> w.cache.value in w.issued)
    && (w.snapshot.Some? && Allows(w.snapshot.value.state) ==>
          exists k | k in w.issued :: w.snapshot.value.at < k.graceUntil as real)
  }

  lemma PastKeeps(c: Config, w: World, a: TimedAct, t: Time)
    requires Past(c, w, t) && t <= a.at && Possible(w, a)
    ensures Past(c, Do(c, w, a), a.at)
  {
    if a.act.UseApp? {
      UsePast(c, w, a.at);
    }
    hide SubPast, Allows, Resnapshot, Verified;
    assert SubPast(Do(c, w, a).sub, a.at) by { SubPastKeeps(c, w, a, t); }
    hide Transition, ApplyEvent, SetSeats;
  }

  lemma SubPastKeeps(c: Config, w: World, a: TimedAct, t: Time)
    requires SubPast(w.sub, t) && t <= a.at && Possible(w, a)
    ensures SubPast(Do(c, w, a).sub, a.at)
  {
  }

  /** A snapshot taken now shows what a token that still verifies asserts. */
  lemma UsePast(c: Config, w: World, now: Time)
    requires w.cache.Some? ==> w.cache.value in w.issued
    requires w.snapshot.Some? && Allows(w.snapshot.value.state) ==>
               exists k | k in w.issued :: w.snapshot.value.at < k.graceUntil as real
    ensures Allows(Resnapshot(c, w.cache, w.snapshot, now).value.state) ==>
              exists k | k in w.issued :: Resnapshot(c, w.cache, w.snapshot, now).value.at < k.graceUntil as real
  {
    if !SnapshotFresh(c, w.snapshot, now) && w.cache.Some? {
      assert w.cache.value in w.issued;
    }
  }

  lemma {:induction false} HistoryKeeps(c: Config, w: World, run: seq<TimedAct>, t: Time)
    requires Past(c, w, t) && Legal(c, w, run) && InOrder(run) && forall i | 0 <= i < |run| :: t <= run[i].at
    ensures Past(c, After(c, w, run), if run == [] then t else run[|run| - 1].at)
    decreases |run|
  {
    if run != [] {
      hide Past, Do;
      PastKeeps(c, w, run[0], t);
      HistoryKeeps(c, Do(c, w, run[0]), run[1..], run[0].at);
    }
  }

  lemma {:induction false} RunSplits(c: Config, w: World, run: seq<TimedAct>, k: nat)
    requires Legal(c, w, run) && k <= |run|
    ensures Legal(c, w, run[..k]) && Legal(c, After(c, w, run[..k]), run[k..])
    ensures After(c, w, run) == After(c, After(c, w, run[..k]), run[k..])
    decreases k
  {
    if k == 0 {
      assert run[..0] == [] && run[0..] == run;
    } else {
      RunSplits(c, Do(c, w, run[0]), run[1..], k - 1);
      assert run[..k][1..] == run[1..][..k - 1] && run[1..][k - 1..] == run[k..] && run[..k][0] == run[0];
    }
  }

  // ---- How long access can last ----------------------------------------------------------------------------

  /** The largest whole number below `x`. */
  function Below(x: real): (n: int)
    ensures n as real < x <= n as real + 1.0
  {
    if x.Floor as real == x then x.Floor - 1 else x.Floor
  }

  predicate SubBounded(c: Config, s: Sub, last: int) {
    s.state == SUSPENDED
    || (s.state == GRACE && s.graceStartedAt.Some? && Below(s.graceStartedAt.value + c.paymentGrace + c.offlineGrace) <= last)
  }

  /** Nothing that grants access, now or without a further billing event later, outlasts second `last`. */
  ghost predicate Bounded(c: Config, w: World, last: int) {
    && SubBounded(c, w.sub, last)
    && (forall t | t in w.issued && Allows(t.state) :: t.graceUntil <= last)
    && (w.cache.Some? ==> w.cache.value in w.issued)
    && (w.snapshot.Some? && Allows(w.snapshot.value.state) ==> w.snapshot.value.at < last as real)
  }

  lemma StepBounded(c: Config, w: World, a: TimedAct, last: int)
    requires Bounded(c, w, last) && Possible(w, a) && !a.act.Bill?
    ensures Bounded(c, Do(c, w, a), last)
  {
    hide SubBounded, Transition, Normalized, SetSeats, Allows;
    match a.act
    case ChangeSeats(n) => SeatsBounded(c, w.sub, n, a.at, last);
    case UseApp => UseBounded(c, w, a.at, last);
    case StoreToken(t) =>
    case RefreshFails =>
    case Bill(_) =>
    case IssueToken => TransitionBounded(c, w.sub, a.at, last);
    case Sweep => TransitionBounded(c, w.sub, a.at, last);
  }

  lemma UseBounded(c: Config, w: World, now: Time, last: int)
    requires Bounded(c, w, last)
    ensures Bounded(c, w.(snapshot := Resnapshot(c, w.cache, w.snapshot, now)), last)
  {
    hide SubBounded;
  }

  lemma SeatsBounded(c: Config, s: Sub, wanted: int, now: Time, last: int)
    requires SubBounded(c, s, last)
    ensures SubBounded(c, SetSeats(c, s, wanted, now), last)
  {
    hide Below;
  }

  /** What a due transition leaves is bounded, and so is a token signed then. */
  lemma TransitionBounded(c: Config, s: Sub, now: Time, last: int)
    requires SubBounded(c, s, last)
    ensures var after := Transition(c, s, now);
            SubBounded(c, after, last) && (Allows(after.state) ==> (now + c.offlineGrace).Floor <= last)
  {
    if Transition(c, s, now).state == GRACE {
      assert now < s.graceStartedAt.value + c.paymentGrace;
      FloorBelow(now + c.offlineGrace, s.graceStartedAt.value + c.paymentGrace + c.offlineGrace);
    }
    hide Below;
  }

  lemma FloorBelow(x: real, y: real)
    requires x < y
    ensures x.Floor <= Below(y)
  {
  }

  lemma {:induction false} RunBounded(c: Config, w: World, run: seq<TimedAct>, last: int)
    requires Bounded(c, w, last) && Legal(c, w, run) && NoBill(run)
    ensures Bounded(c, After(c, w, run), last)
    decreases |run|
  {
    if run != [] {
      hide Bounded, Do;
      StepBounded(c, w, run[0], last);
      RunBounded(c, Do(c, w, run[0]), run[1..], last);
    }
  }

  lemma BoundedEnds(c: Config, w: World, last: int, now: Time)
    requires Bounded(c, w, last) && c.snapshotTtl >= 0.0 && now >= last as real + c.snapshotTtl
    ensures !Access(c, w, now)
  {
  }

  /** A billing event that starts or continues grace, or one that suspends, bounds all access, whatever the
      installation holds at that moment. */
  lemma BillBounds(c: Config, w: World, typ: EventType, g: Time, last: int)
    requires Past(c, w, g) && c.paymentGrace >= 0.0
    requires (g + c.offlineGrace).Floor <= last
    requires Normalized(typ) == Some(SUSPENDED)
             || (Normalized(typ) == Some(GRACE) && Below(g + c.paymentGrace + c.offlineGrace) <= last)
    ensures Bounded(c, Do(c, w, TimedAct(Bill(typ), g)), last)
  {
    var w' := Do(c, w, TimedAct(Bill(typ), g));
    forall k | k in w.issued ensures k.graceUntil <= last {
      assert (k.issuedAt + c.offlineGrace).Floor as real <= k.issuedAt + c.offlineGrace;
    }
    if w'.sub.state == GRACE {
      var g' := w'.sub.graceStartedAt.value;
      assert g' <= g;
      assert Below(g' + c.paymentGrace + c.offlineGrace) <= Below(g + c.paymentGrace + c.offlineGrace);
    }
    if w.snapshot.Some? && Allows(w.snapshot.value.state) {
      var k :| k in w.issued && w.snapshot.value.at < k.graceUntil as real;
      assert k.graceUntil <= last;
    }
  }

  /** After a whole history whose last billing event was at `k`, nothing outlasts the bound that event set. */
  lemma LastBillBounds(c: Config, w: World, run: seq<TimedAct>, k: nat, last: int)
    requires Activated(w) && Legal(c, w, run) && InOrder(run) && c.paymentGrace >= 0.0
    requires k < |run| && run[k].act.Bill? && NoBill(run[k + 1..])
    requires (run[k].at + c.offlineGrace).Floor <= last
    requires Normalized(run[k].act.typ) == Some(SUSPENDED)
             || (Normalized(run[k].act.typ) == Some(GRACE) && Below(run[k].at + c.paymentGrace + c.offlineGrace) <= last)
    ensures Bounded(c, After(c, w, run), last)
  {
    var g := run[k].at;
    RunSplits(c, w, run, k);
    var mid := After(c, w, run[..k]);
    assert Past(c, mid, g) by {
      BeforeIsPast(c, w, run, k);
    }
    assert run[k..][0] == run[k] && run[k..][1..] == run[k + 1..];
    hide Past, Bounded, InOrder, Activated;
    BillBounds(c, mid, run[k].act.typ, g, last);
    RunBounded(c, Do(c, mid, run[k]), run[k + 1..], last);
  }

  lemma BeforeIsPast(c: Config, w: World, run: seq<TimedAct>, k: nat)
    requires Activated(w) && Legal(c, w, run) && InOrder(run) && k < |run| && Legal(c, w, run[..k])
    ensures Past(c, After(c, w, run[..k]), run[k].at)
  {
    var early := run[..k];
    var t := if k == 0 then run[k].at else run[0].at;
    HistoryKeeps(c, w, early, t);
    assert k > 0 ==> early[k - 1] == run[k - 1] && run[k - 1].at <= run[k].at;
    hide After, Legal, InOrder;
  }

  /** In every history from activation, if the last billing event was a failed payment or a pause at g, with no
      admin write after it, no installation has business access at or after g + payment grace + offline grace +
      snapshot lifetime, whatever the schedule of refreshes, late tokens, outages and sweeps. */
  lemma AccessEnds(c: Config, w: World, run: seq<TimedAct>, k: nat, now: Time)
    requires Activated(w) && Legal(c, w, run) && InOrder(run) && c.paymentGrace >= 0.0 && c.snapshotTtl >= 0.0
    requires k < |run| && run[k].act.Bill? && NoBill(run[k + 1..]) && Normalized(run[k].act.typ) == Some(GRACE)
    requires now >= run[k].at + c.paymentGrace + c.offlineGrace + c.snapshotTtl
    ensures !Access(c, After(c, w, run), now)
  {
    var last := (run[k].at + c.paymentGrace + c.offlineGrace).Floor;
    assert last as real <= run[k].at + c.paymentGrace + c.offlineGrace;
    LastBillBounds(c, w, run, k, last);
    hide Bounded, Access, After, Legal;
    BoundedEnds(c, After(c, w, run), last, now);
  }

  /** If it was an expiry, no later than offline grace + snapshot lifetime after it. */
  lemma AccessEndsOnExpiry(c: Config, w: World, run: seq<TimedAct>, k: nat, now: Time)
    requires Activated(w) && Legal(c, w, run) && InOrder(run) && c.paymentGrace >= 0.0 && c.snapshotTtl >= 0.0
    requires k < |run| && run[k].act.Bill? && NoBill(run[k + 1..]) && Normalized(run[k].act.typ) == Some(SUSPENDED)
    requires now >= run[k].at + c.offlineGrace + c.snapshotTtl
    ensures !Access(c, After(c, w, run), now)
  {
    var last := (run[k].at + c.offlineGrace).Floor;
    assert last as real <= run[k].at + c.offlineGrace;
    LastBillBounds(c, w, run, k, last);
    hide Bounded, Access, After, Legal;
    BoundedEnds(c, After(c, w, run), last, now);
  }

  // ---- The exact moment --------------------------------------------------------------------------------------

  /** A payment has just failed at `g`, as by a BillingIssue that finds the subscription not yet in grace. */
  ghost predicate GraceBegins(c: Config, w: World, g: Time) {
    Past(c, w, g) && w.sub.state == GRACE && w.sub.graceStartedAt == Some(g)
  }

  lemma BillStartsGrace(c: Config, w: World, typ: EventType, g: Time)
    requires Past(c, w, g) && Normalized(typ) == Some(GRACE) && w.sub.state != GRACE
    ensures GraceBegins(c, Do(c, w, TimedAct(Bill(typ), g)), g)
  {
    hide Allows;
  }

  lemma BillBeginsGrace(c: Config, w: World, run: seq<TimedAct>, typ: EventType, g: Time)
    requires Activated(w) && Legal(c, w, run) && InOrder(run + [TimedAct(Bill(typ), g)])
    requires Normalized(typ) == Some(GRACE) && After(c, w, run).sub.state != GRACE
    ensures Legal(c, w, run + [TimedAct(Bill(typ), g)])
    ensures GraceBegins(c, After(c, w, run + [TimedAct(Bill(typ), g)]), g)
  {
    var more := run + [TimedAct(Bill(typ), g)];
    LegalMore(c, w, run, TimedAct(Bill(typ), g));
    assert more[..|run|] == run && more[|run|] == TimedAct(Bill(typ), g);
    hide Past, Do, GraceBegins;
    BeforeIsPast(c, w, more, |run|);
    BillStartsGrace(c, After(c, w, run), typ, g);
  }

  lemma {:induction false} LegalMore(c: Config, w: World, run: seq<TimedAct>, a: TimedAct)
    requires Legal(c, w, run) && Possible(After(c, w, run), a)
    ensures Legal(c, w, run + [a]) && After(c, w, run + [a]) == Do(c, After(c, w, run), a)
    decreases |run|
  {
    if run == [] {
      assert run + [a] == [a] && [a][1..] == [];
    } else {
      LegalMore(c, Do(c, w, run[0]), run[1..], a);
      assert (run + [a])[1..] == run[1..] + [a];
    }
  }

  /** A continuation without billing events after which there is access at `now`. */
  ghost predicate Grants(c: Config, w: World, g: Time, run: seq<TimedAct>, now: Time) {
    && Legal(c, w, run) && InOrder(run) && NoBill(run) && (forall i | 0 <= i < |run| :: g <= run[i].at <= now)
    && Access(c, After(c, w, run), now)
  }

  /** The last second in which a token of that grace can still verify. */
  function LastSecond(c: Config, g: Time): int {
    Below(g + c.paymentGrace + c.offlineGrace)
  }

  lemma GrantsAtMost(c: Config, w: World, g: Time, run: seq<TimedAct>, now: Time)
    requires GraceBegins(c, w, g) && Grants(c, w, g, run, now) && c.paymentGrace > 0.0 && c.snapshotTtl >= 0.0
    ensures now < LastSecond(c, g) as real + c.snapshotTtl
  {
    var last := LastSecond(c, g);
    assert Bounded(c, w, last) by {
      forall k | k in w.issued ensures k.graceUntil <= last {
        assert (k.issuedAt + c.offlineGrace).Floor as real <= k.issuedAt + c.offlineGrace;
      }
    }
    RunBounded(c, w, run, last);
    if now >= last as real + c.snapshotTtl {
      BoundedEnds(c, After(c, w, run), last, now);
    }
  }

  /** When the last good token is signed: late enough to expire in the last second, and not before the grace. */
  function SignedAt(c: Config, g: Time): Time {
    var t := LastSecond(c, g) as real - c.offlineGrace;
    if t < g then g else t
  }

  lemma LateToken(c: Config, w: World, g: Time)
    requires GraceBegins(c, w, g) && c.paymentGrace > 0.0 && c.offlineGrace >= 1.0
    ensures var t := SignedAt(c, g);
            && g <= t < g + c.paymentGrace && t < LastSecond(c, g) as real
            && Transition(c, w.sub, t).state == GRACE
            && Issue(c, Transition(c, w.sub, t), t).graceUntil == LastSecond(c, g)
  {
    var t := SignedAt(c, g);
    var n := (t + c.offlineGrace).Floor;
    assert n as real <= t + c.offlineGrace < n as real + 1.0;
  }

  /** The world once that token has been signed and stored. */
  lemma TokenStored(c: Config, w: World, g: Time) returns (run: seq<TimedAct>, w2: World)
    requires GraceBegins(c, w, g) && c.paymentGrace > 0.0 && c.offlineGrace >= 1.0
    ensures |run| == 2 && run[0].at == run[1].at == SignedAt(c, g) && NoBill(run)
    ensures Legal(c, w, run) && After(c, w, run) == w2 && w2.snapshot == None
    ensures w2.cache.Some? && w2.cache.value.state == GRACE && w2.cache.value.graceUntil == LastSecond(c, g)
  {
    var t := SignedAt(c, g);
    LateToken(c, w, g);
    var token := Issue(c, Transition(c, w.sub, t), t);
    run := [TimedAct(IssueToken, t), TimedAct(StoreToken(token), t)];
    hide Transition, Issue, SignedAt, LastSecond, Past;
    var w1 := Do(c, w, run[0]);
    w2 := Do(c, w1, run[1]);
    assert run[1..] == [run[1]] && [run[1]][1..] == [];
    assert Legal(c, w2, []) && Legal(c, w1, [run[1]]);
    assert After(c, w1, [run[1]]) == w2;
  }

  lemma GrantsUntil(c: Config, w: World, g: Time, now: Time) returns (run: seq<TimedAct>)
    requires GraceBegins(c, w, g) && c.paymentGrace > 0.0 && c.offlineGrace >= 1.0 && c.snapshotTtl >= 0.0
    requires g + c.paymentGrace <= now < LastSecond(c, g) as real + c.snapshotTtl
    ensures Grants(c, w, g, run, now)
  {
    LateToken(c, w, g);
    var last, t := LastSecond(c, g) as real, SignedAt(c, g);
    var short, w2 := TokenStored(c, w, g);
    hide GraceBegins, SignedAt, LastSecond, Transition, Issue;
    if now < last {
      run := short;
    } else {
      var low := if now - c.snapshotTtl < t then t else now - c.snapshotTtl;
      var used := (low + last) / 2.0;
      run := short + [TimedAct(UseApp, used)];
      LegalMore(c, w, short, TimedAct(UseApp, used));
      hide Legal, After;
      assert After(c, w, run).snapshot == Some(Snapshot(GRACE, used));
    }
  }

  /** Once the payment grace is over, some schedule still has access at `now` exactly while `now` is before the
      last whole second below g + payment grace + offline grace, plus the snapshot lifetime. */
  lemma AccessLastsExactly(c: Config, w: World, g: Time, now: Time)
    requires GraceBegins(c, w, g) && c.paymentGrace > 0.0 && c.offlineGrace >= 1.0 && c.snapshotTtl >= 0.0
    requires now >= g + c.paymentGrace
    ensures (exists run :: Grants(c, w, g, run, now)) <==> now < LastSecond(c, g) as real + c.snapshotTtl
  {
    hide GraceBegins, Grants, LastSecond;
    if now < LastSecond(c, g) as real + c.snapshotTtl {
      var run := GrantsUntil(c, w, g, now);
    }
    forall run | Grants(c, w, g, run, now) ensures now < LastSecond(c, g) as real + c.snapshotTtl {
      GrantsAtMost(c, w, g, run, now);
    }
  }

  // ---- What a company that pays can rely on ----------------------------------------------------------------

  /** Nothing is stored over the installation's token. */
  ghost predicate NoStore(run: seq<TimedAct>) {
    forall i | 0 <= i < |run| :: !run[i].act.StoreToken?
  }

  /** The installation holds `k`, and what it remembers of it, if anything, is what it asserts. */
  ghost predicate HoldsToken(w: World, k: Token) {
    w.cache == Some(k) && (w.snapshot.Some? ==> w.snapshot.value.state == k.state)
  }

  /** Outages, sweeps, uses, issues to others and billing events leave the stored token and what it asserts alone,
      as long as it has not expired. */
  lemma {:induction false} HoldsOn(c: Config, w: World, run: seq<TimedAct>, k: Token)
    requires HoldsToken(w, k) && Legal(c, w, run) && NoStore(run)
    requires forall i | 0 <= i < |run| :: run[i].at < k.graceUntil as real
    ensures HoldsToken(After(c, w, run), k)
    decreases |run|
  {
    if run != [] {
      HoldsStep(c, w, run[0], k);
      hide Do, HoldsToken;
      HoldsOn(c, Do(c, w, run[0]), run[1..], k);
    }
  }

  lemma HoldsStep(c: Config, w: World, a: TimedAct, k: Token)
    requires HoldsToken(w, k) && Possible(w, a) && !a.act.StoreToken? && a.at < k.graceUntil as real
    ensures HoldsToken(Do(c, w, a), k)
  {
    hide Transition, ApplyEvent, SetSeats;
    if k.state == GRACE || k.state == ACTIVE {
      AccessExactly(Some(k), a.at);
    }
  }

  /** The steps by which an installation gets a token: the Control Plane signs one at `t`, the installation stores it. */
  function Fetched(k: Token, t: Time): seq<TimedAct> {
    [TimedAct(IssueToken, t), TimedAct(StoreToken(k), t)]
  }

  /** The token that is signed at `t` asserts the state that the subscription then has, and so does the installation
      that stores it, until it expires. */
  lemma FetchHolds(c: Config, w: World, t: Time) returns (k: Token)
    requires c.offlineGrace >= 1.0
    ensures Legal(c, w, Fetched(k, t)) && HoldsToken(After(c, w, Fetched(k, t)), k)
    ensures k.state == Transition(c, w.sub, t).state && k.graceUntil == (t + c.offlineGrace).Floor && t < k.graceUntil as real
    ensures After(c, w, Fetched(k, t)).issued == w.issued + {k}
  {
    var sub := Transition(c, w.sub, t);
    k := Token(sub.state, t, (t + c.offlineGrace).Floor);
    var w1 := Do(c, w, TimedAct(IssueToken, t));
    hide Transition;
    assert w1.issued == w.issued + {k};
    var w2 := Do(c, w1, TimedAct(StoreToken(k), t));
    var store := TimedAct(StoreToken(k), t);
    assert [store][1..] == [] && After(c, w2, []) == w2;
    assert Legal(c, w1, [store]) && After(c, w1, [store]) == w2;
    assert Fetched(k, t)[1..] == [store];
    assert Legal(c, w, Fetched(k, t)) && After(c, w, Fetched(k, t)) == After(c, w1, [store]);
  }

  /** An installation that fetches a token while its company is ACTIVE, or in grace, has business access from then until
      the last whole second not after the fetch plus the offline grace, whatever outages, sweeps, uses, seat changes and
      billing events follow, as long as it stores no other token. */
  lemma PaidMeansAccess(c: Config, w: World, t: Time, rest: seq<TimedAct>, now: Time) returns (k: Token)
    requires c.offlineGrace >= 1.0 && Transition(c, w.sub, t).state in {ACTIVE, GRACE}
    requires t <= now < (t + c.offlineGrace).Floor as real
    requires NoStore(rest) && forall i | 0 <= i < |rest| :: t <= rest[i].at <= now
    ensures Legal(c, w, Fetched(k, t)) && After(c, w, Fetched(k, t)).issued == w.issued + {k}
    ensures Legal(c, After(c, w, Fetched(k, t)), rest) && Access(c, After(c, After(c, w, Fetched(k, t)), rest), now)
  {
    k := FetchHolds(c, w, t);
    var w2 := After(c, w, Fetched(k, t));
    NoStoreIsLegal(c, w2, rest);
    HoldsOn(c, w2, rest, k);
    AccessExactly(Some(k), now);
    hide After, Legal, Transition;
  }

  lemma {:induction false} NoStoreIsLegal(c: Config, w: World, run: seq<TimedAct>)
    requires NoStore(run)
    ensures Legal(c, w, run)
    decreases |run|
  {
    if run != [] {
      hide Do;
      NoStoreIsLegal(c, Do(c, w, run[0]), run[1..]);
    }
  }

  /** One that fetches a token while its company is suspended or cancelled has none from then on, whatever it held
      before, until it stores another token. */
  lemma UnpaidMeansNone(c: Config, w: World, t: Time, rest: seq<TimedAct>, now: Time) returns (k: Token)
    requires c.offlineGrace >= 1.0 && Transition(c, w.sub, t).state in {SUSPENDED, CANCELLED}
    requires NoStore(rest)
    ensures Legal(c, w, Fetched(k, t)) && After(c, w, Fetched(k, t)).issued == w.issued + {k}
    ensures Legal(c, After(c, w, Fetched(k, t)), rest) && !Access(c, After(c, After(c, w, Fetched(k, t)), rest), now)
  {
    k := FetchHolds(c, w, t);
    var w2 := After(c, w, Fetched(k, t));
    NoStoreIsLegal(c, w2, rest);
    StaysWithout(c, w2, rest, k);
    hide After, Legal, Transition;
  }

  /** What a use of the app finds is what it and later uses go by until the snapshot's lifetime is over, and no longer:
      then the token is looked at again. */
  lemma SnapshotServes(c: Config, w: World, u: Time, now: Time)
    requires u <= now && (w.snapshot.Some? ==> u - w.snapshot.value.at >= c.snapshotTtl)
    ensures var w1 := Do(c, w, TimedAct(UseApp, u));
            Answer(c, w1.cache, w1.snapshot, now) ==
              if now - u < c.snapshotTtl then Evaluate(Verified(w.cache, u), u).state else Evaluate(Verified(w.cache, now), now).state
    ensures Do(c, w, TimedAct(UseApp, u)).snapshot == Some(Snapshot(Evaluate(Verified(w.cache, u), u).state, u))
  {
  }

  /** A token that asserts no access gives none, expired or not. */
  ghost predicate Denied(w: World, k: Token) {
    w.cache == Some(k) && !Allows(k.state) && (w.snapshot.Some? ==> !Allows(w.snapshot.value.state))
  }

  lemma {:induction false} StaysWithout(c: Config, w: World, run: seq<TimedAct>, k: Token)
    requires Denied(w, k) && Legal(c, w, run) && NoStore(run)
    ensures Denied(After(c, w, run), k)
    decreases |run|
  {
    if run != [] {
      assert Denied(Do(c, w, run[0]), k) by { hide Transition, ApplyEvent, SetSeats; }
      hide Do, Denied;
      StaysWithout(c, Do(c, w, run[0]), run[1..], k);
    }
  }

  // ---- The installation's licence service -----------------------------------------------------------------

  class LicenseService {
    var cache: Option<Token>
    var snapshot: Option<Snapshot>
    var lastCheckOk: bool

    constructor ()
      ensures cache == None && snapshot == None && !lastCheckOk
    {
      cache, snapshot, lastCheckOk := None, None, false;
    }

    /** A refresh: `fetched` is what the Control Plane returned, if it was reached at all. */
    method Refresh(fetched: Option<Token>, now: Time)
      modifies this
      ensures lastCheckOk <==> Verified(fetched, now).Some?
      ensures cache == (if Verified(fetched, now).Some? then fetched else old(cache)) && snapshot == None
    {
      if fetched.Some? && now < fetched.value.graceUntil as real {
        cache := fetched;
        lastCheckOk := true;
      } else {
        lastCheckOk := false;
      }
      snapshot := None;
    }

    method EffectiveStateCached(c: Config, now: Time) returns (s: State)
      modifies this`snapshot
      ensures s == Answer(c, cache, old(snapshot), now)
      ensures snapshot == Resnapshot(c, cache, old(snapshot), now)
    {
      if snapshot.Some? && now - snapshot.value.at < c.snapshotTtl {
        return snapshot.value.state;
      }
      s := Evaluate(Verified(cache, now), now).state;
      snapshot := Some(Snapshot(s, now));
    }
  }
}
