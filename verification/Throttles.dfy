/** The in-memory throttles on failed logins and on failed recovery codes: a list of recent failures per client,
    pruned as it is read. */
module Throttles {

  type Time = real

  /** `prunes` says whether a look at the list also stores it without its old entries. */
  datatype Policy = Policy(limit: nat, window: Time, prunes: bool)

  const LOGIN := Policy(5, 900.0, false)
  const RECOVERY := Policy(10, 900.0, true)

  datatype Result = Wrong | Neutral | Clearing

  /** One attempt: when the list is checked, when a failure is recorded, and what the check of the secret would
      say. A login records at the time it checked; a good login clears the list, a disabled account or a good
      recovery code leaves it. */
  datatype Attempt = Attempt(check: Time, record: Time, result: Result)

  /** The remembered failures that are younger than the window. */
  function Recent(p: Policy, failures: seq<Time>, now: Time): seq<Time> {
    if failures == [] then []
    else
      var n := |failures| - 1;
      Recent(p, failures[..n], now) + if now - failures[n] < p.window then [failures[n]] else []
  }

  predicate Locked(p: Policy, failures: seq<Time>, now: Time) {
    |Recent(p, failures, now)| >= p.limit
  }

  function Next(p: Policy, failures: seq<Time>, a: Attempt): seq<Time> {
    var recent := Recent(p, failures, a.check);
    var kept := if p.prunes then recent else failures;
    if |recent| >= p.limit then kept
    else match a.result
      case Wrong => Recent(p, recent, a.record) + [a.record]
      case Neutral => kept
      case Clearing => []
  }

  predicate Sorted(s: seq<Time>) { forall i, j | 0 <= i < j < |s| :: s[i] <= s[j] }

  /** Of ever later failures the recent ones are the last few. */
  lemma {:induction false} RecentIsSuffix(p: Policy, failures: seq<Time>, now: Time) returns (k: nat)
    requires Sorted(failures)
    ensures k <= |failures| && Recent(p, failures, now) == failures[k..]
    ensures forall i | 0 <= i < k :: now - failures[i] >= p.window
  {
    if failures == [] {
      k := 0;
    } else {
      var n := |failures| - 1;
      k := RecentIsSuffix(p, failures[..n], now);
      if now - failures[n] < p.window {
        assert failures[k..] == failures[..n][k..] + [failures[n]];
      } else {
        k := |failures|;
        RecentEmpty(p, failures, now);
      }
    }
  }

  lemma {:induction false} RecentEmpty(p: Policy, failures: seq<Time>, now: Time)
    requires forall i | 0 <= i < |failures| :: now - failures[i] >= p.window
    ensures Recent(p, failures, now) == []
  {
    if failures != [] {
      RecentEmpty(p, failures[..|failures| - 1], now);
    }
  }

  /** `history` are all failures whose secret was checked; `stored` is what the server remembers of them. */
  ghost predicate Remembers(p: Policy, history: seq<Time>, stored: seq<Time>, now: Time) {
    && Sorted(history) && (history != [] ==> history[|history| - 1] <= now)
    && |stored| <= |history| && stored == history[|history| - |stored|..]
    && (forall i | 0 <= i < |history| - |stored| :: now - history[i] >= p.window)
  }

  /** No more than `limit` failures fall within one window. */
  ghost predicate Spaced(p: Policy, history: seq<Time>) {
    forall i, j | 0 <= i < j < |history| && j == i + p.limit :: history[j] - history[i] >= p.window
  }

  predicate Counts(p: Policy, stored: seq<Time>, a: Attempt) {
    !Locked(p, stored, a.check) && a.result.Wrong?
  }

  /** The times of the failures checked over a run. */
  ghost function Checked(p: Policy, stored: seq<Time>, run: seq<Attempt>): seq<Time>
    decreases |run|
  {
    if run == [] then []
    else (if Counts(p, stored, run[0]) then [run[0].record] else []) + Checked(p, Next(p, stored, run[0]), run[1..])
  }

  ghost predicate NeverCleared(p: Policy, stored: seq<Time>, run: seq<Attempt>)
    decreases |run|
  {
    run == [] || ((Locked(p, stored, run[0].check) || !run[0].result.Clearing?)
                  && NeverCleared(p, Next(p, stored, run[0]), run[1..]))
  }

  lemma StoredSorted(p: Policy, history: seq<Time>, stored: seq<Time>, now: Time)
    requires Remembers(p, history, stored, now)
    ensures Sorted(stored)
  {
  }

  lemma LaterRemembers(p: Policy, history: seq<Time>, stored: seq<Time>, now: Time, later: Time)
    requires Remembers(p, history, stored, now) && now <= later
    ensures Remembers(p, history, stored, later)
  {
    hide Sorted;
  }

  lemma SuffixRemembers(p: Policy, history: seq<Time>, stored: seq<Time>, now: Time, k: nat)
    requires Remembers(p, history, stored, now) && k <= |stored|
    requires forall i | 0 <= i < k :: now - stored[i] >= p.window
    ensures Remembers(p, history, stored[k..], now)
  {
    hide Sorted;
    var gone := |history| - |stored|;
    assert history[gone..][k..] == history[gone + k..];
    forall i | gone <= i < gone + k ensures now - history[i] >= p.window {
      assert history[i] == stored[i - gone];
    }
  }

  lemma PruneRemembers(p: Policy, history: seq<Time>, stored: seq<Time>, now: Time, later: Time)
    requires Remembers(p, history, stored, now) && now <= later
    ensures Remembers(p, history, stored, later) && Remembers(p, history, Recent(p, stored, later), later)
  {
    hide Remembers, Recent, Sorted;
    LaterRemembers(p, history, stored, now, later);
    StoredSorted(p, history, stored, now);
    var k := RecentIsSuffix(p, stored, later);
    SuffixRemembers(p, history, stored, later, k);
  }

  /** A failure checked at `check` is recorded when fewer than `limit` of the history were recent. */
  lemma OneMoreSpaced(p: Policy, history: seq<Time>, recent: seq<Time>, check: Time, record: Time)
    requires Remembers(p, history, recent, check) && |recent| < p.limit && Spaced(p, history) && check <= record
    ensures Spaced(p, history + [record])
  {
  }

  lemma FailureSpaced(p: Policy, history: seq<Time>, stored: seq<Time>, now: Time, a: Attempt)
    requires Remembers(p, history, stored, now) && Spaced(p, history) && now <= a.check <= a.record
    requires Counts(p, stored, a)
    ensures Remembers(p, history + [a.record], Next(p, stored, a), a.record) && Spaced(p, history + [a.record])
  {
    var recent := Recent(p, stored, a.check);
    hide Recent, Spaced, Remembers;
    PruneRemembers(p, history, stored, now, a.check);
    PruneRemembers(p, history, recent, a.check, a.record);
    OneMoreSpaced(p, history, recent, a.check, a.record);
    RecordRemembers(p, history, Recent(p, recent, a.record), a.record);
  }

  lemma RecordRemembers(p: Policy, history: seq<Time>, stored: seq<Time>, now: Time)
    requires Remembers(p, history, stored, now)
    ensures Remembers(p, history + [now], stored + [now], now)
  {
  }

  lemma NextSpaced(p: Policy, history: seq<Time>, stored: seq<Time>, now: Time, a: Attempt)
    requires Remembers(p, history, stored, now) && Spaced(p, history) && now <= a.check <= a.record
    requires Locked(p, stored, a.check) || !a.result.Clearing?
    ensures var h := if Counts(p, stored, a) then history + [a.record] else history;
            Remembers(p, h, Next(p, stored, a), a.record) && Spaced(p, h)
  {
    hide Recent, Remembers, Spaced;
    if Counts(p, stored, a) {
      FailureSpaced(p, history, stored, now, a);
    } else {
      PruneRemembers(p, history, stored, now, a.check);
      PruneRemembers(p, history, stored, a.check, a.record);
      PruneRemembers(p, history, Recent(p, stored, a.check), a.check, a.record);
    }
  }

  lemma {:induction false} RunSpaced(p: Policy, history: seq<Time>, stored: seq<Time>, now: Time, run: seq<Attempt>)
    requires Remembers(p, history, stored, now) && Spaced(p, history) && NeverCleared(p, stored, run)
    requires InOrder(run) && forall i | 0 <= i < |run| :: now <= run[i].check
    ensures Spaced(p, history + Checked(p, stored, run))
    decreases |run|
  {
    hide Next, Counts, Remembers, Spaced, Locked, Recent;
    if run == [] {
      assert history + Checked(p, stored, run) == history;
    } else {
      var a := run[0];
      var h := if Counts(p, stored, a) then history + [a.record] else history;
      NextSpaced(p, history, stored, now, a);
      assert history + Checked(p, stored, run) == h + Checked(p, Next(p, stored, a), run[1..]);
      RunSpaced(p, h, Next(p, stored, a), a.record, run[1..]);
    }
  }

  lemma RecentCounts(p: Policy, history: seq<Time>, stored: seq<Time>, now: Time)
    requires Remembers(p, history, stored, now) && p.limit > 0
    ensures Locked(p, stored, now) <==> |history| >= p.limit && now - history[|history| - p.limit] < p.window
  {
    StoredSorted(p, history, stored, now);
    var k := RecentIsSuffix(p, stored, now);
    SuffixRemembers(p, history, stored, now, k);
    RecentAreRecent(p, stored, now);
    hide Recent, Sorted;
    var recent, at := stored[k..], |history| - p.limit;
    if |recent| >= p.limit {
      assert recent[|recent| - p.limit] == history[at];
      assert recent[|recent| - p.limit] in Recent(p, stored, now);
    } else if at >= 0 {
      assert now - history[at] >= p.window;
    }
  }

  lemma {:induction false} RecentAreRecent(p: Policy, failures: seq<Time>, now: Time)
    ensures forall t | t in Recent(p, failures, now) :: now - t < p.window
  {
    if failures != [] {
      RecentAreRecent(p, failures[..|failures| - 1], now);
    }
  }

  /** The state of the client's list after a run. */
  ghost function StoredAfter(p: Policy, stored: seq<Time>, run: seq<Attempt>): seq<Time>
    decreases |run|
  {
    if run == [] then stored else StoredAfter(p, Next(p, stored, run[0]), run[1..])
  }

  lemma {:induction false} RunRemembers(p: Policy, history: seq<Time>, stored: seq<Time>, now: Time, run: seq<Attempt>, later: Time)
    requires Remembers(p, history, stored, now) && Spaced(p, history) && NeverCleared(p, stored, run)
    requires InOrder(run) && (forall i | 0 <= i < |run| :: now <= run[i].check && run[i].record <= later) && now <= later
    ensures Remembers(p, history + Checked(p, stored, run), StoredAfter(p, stored, run), later)
    decreases |run|
  {
    hide Next, Counts, Remembers, Spaced, Locked, Recent;
    if run == [] {
      assert history + Checked(p, stored, run) == history;
      LaterRemembers(p, history, stored, now, later);
    } else {
      var a := run[0];
      var h := if Counts(p, stored, a) then history + [a.record] else history;
      NextSpaced(p, history, stored, now, a);
      assert history + Checked(p, stored, run) == h + Checked(p, Next(p, stored, a), run[1..]);
      RunRemembers(p, h, Next(p, stored, a), a.record, run[1..], later);
    }
  }

  lemma {:induction false} RunIsRemembered(p: Policy, run: seq<Attempt>, now: Time)
    requires InOrder(run) && NeverCleared(p, [], run) && forall i | 0 <= i < |run| :: run[i].record <= now
    ensures Remembers(p, Checked(p, [], run), StoredAfter(p, [], run), now)
  {
    var none: seq<Time> := [];
    if run == [] {
      NothingYet(p, now);
    } else {
      FirstComesFirst(run);
      hide Checked, NeverCleared, Spaced, Remembers, StoredAfter, InOrder;
      NothingYet(p, run[0].check);
      RunRemembers(p, none, none, run[0].check, run, now);
      assert none + Checked(p, none, run) == Checked(p, none, run);
    }
  }

  /** An attempt is locked out exactly if at least `limit` failures were checked before and the last `limit` of them all
      lie within the window: nobody is locked out sooner, and everybody is let in again when the window has passed. */
  lemma {:induction false} LockedExactly(p: Policy, run: seq<Attempt>, now: Time)
    requires p.limit > 0 && InOrder(run) && NeverCleared(p, [], run) && forall i | 0 <= i < |run| :: run[i].record <= now
    ensures var h := Checked(p, [], run);
            Locked(p, StoredAfter(p, [], run), now) <==> |h| >= p.limit && now - h[|h| - p.limit] < p.window
  {
    RunIsRemembered(p, run, now);
    hide Checked, NeverCleared, Remembers, Locked, StoredAfter, InOrder;
    RecentCounts(p, Checked(p, [], run), StoredAfter(p, [], run), now);
  }

  /** A login is locked out exactly after five failures within fifteen minutes, a recovery code after ten. */
  lemma {:induction false} LimitsInUse(run: seq<Attempt>, now: Time)
    requires InOrder(run) && forall i | 0 <= i < |run| :: run[i].record <= now
    ensures NeverCleared(LOGIN, [], run) ==>
              var h := Checked(LOGIN, [], run);
              (Locked(LOGIN, StoredAfter(LOGIN, [], run), now) <==> |h| >= 5 && now - h[|h| - 5] < 900.0)
    ensures NeverCleared(RECOVERY, [], run) ==>
              var h := Checked(RECOVERY, [], run);
              (Locked(RECOVERY, StoredAfter(RECOVERY, [], run), now) <==> |h| >= 10 && now - h[|h| - 10] < 900.0)
  {
    hide Checked, NeverCleared, Locked, StoredAfter, InOrder;
    if NeverCleared(LOGIN, [], run) {
      LockedExactly(LOGIN, run, now);
    }
    if NeverCleared(RECOVERY, [], run) {
      LockedExactly(RECOVERY, run, now);
    }
  }

  lemma FirstComesFirst(run: seq<Attempt>)
    requires InOrder(run) && run != []
    ensures forall i | 0 <= i < |run| :: run[0].check <= run[i].check
    ensures run[0].check <= run[0].record
  {
  }

  /** A secret that is right is let in and clears the list, or leaves it, as its kind says; a wrong one is added. */
  lemma AttemptLeaves(p: Policy, stored: seq<Time>, a: Attempt)
    requires !Locked(p, stored, a.check)
    ensures a.result.Clearing? ==> Next(p, stored, a) == []
    ensures a.result.Neutral? ==> Recent(p, Next(p, stored, a), a.check) == Recent(p, stored, a.check)
    ensures a.result.Wrong? ==> Next(p, stored, a) != [] && Next(p, stored, a)[|Next(p, stored, a)| - 1] == a.record
  {
    RecentTwice(p, stored, a.check);
  }

  lemma {:induction false} RecentTwice(p: Policy, failures: seq<Time>, now: Time)
    ensures Recent(p, Recent(p, failures, now), now) == Recent(p, failures, now)
  {
    if failures != [] {
      var n := |failures| - 1;
      var r := Recent(p, failures[..n], now);
      RecentTwice(p, failures[..n], now);
      if now - failures[n] < p.window {
        assert Recent(p, failures, now) == r + [failures[n]];
        assert (r + [failures[n]])[..|r|] == r;
      } else {
        assert Recent(p, failures, now) == r + [] == r;
      }
    }
  }

  /** A serial run at non-decreasing times. */
  ghost predicate InOrder(run: seq<Attempt>) {
    && (forall i | 0 <= i < |run| :: run[i].check <= run[i].record)
    && (forall i, j | 0 <= i < j < |run| :: run[i].record <= run[j].check)
  }

  lemma NothingYet(p: Policy, now: Time)
    ensures Remembers(p, [], [], now) && Spaced(p, [])
  {
  }

  /** However often a client tries, and although pruned failures are forgotten: as long as nothing clears the
      list, no more failures than the limit are ever checked within one window. */
  lemma AtMostLimitPerWindow(p: Policy, run: seq<Attempt>)
    requires InOrder(run) && NeverCleared(p, [], run)
    ensures Spaced(p, Checked(p, [], run))
  {
    var none: seq<Time> := [];
    NothingYet(p, 0.0);
    if run != [] {
      hide Checked, NeverCleared, Spaced, Remembers;
      NothingYet(p, run[0].check);
      RunSpaced(p, none, none, run[0].check, run);
      assert none + Checked(p, none, run) == Checked(p, none, run);
    }
  }

  class Throttle {
    const policy: Policy
    var failures: map<string, seq<Time>>

    constructor (policy: Policy)
      ensures this.policy == policy && failures == map[]
    {
      this.policy := policy;
      failures := map[];
    }

    function Of(key: string): seq<Time>
      reads this
    {
      if key in failures then failures[key] else []
    }

    /** The list is filtered by a loop over it. */
    method Prune(key: string, now: Time) returns (recent: seq<Time>)
      ensures recent == Recent(policy, Of(key), now)
    {
      var all := Of(key);
      recent := [];
      for i := 0 to |all|
        invariant recent == Recent(policy, all[..i], now)
      {
        assert all[..i + 1][..i] == all[..i];
        if now - all[i] < policy.window {
          recent := recent + [all[i]];
        }
      }
      assert all[..|all|] == all;
    }

    /** One attempt from start to end; `locked` means that the secret was not even looked at. */
    method Try(key: string, a: Attempt) returns (locked: bool)
      modifies this`failures
      ensures locked <==> Locked(policy, old(Of(key)), a.check)
      ensures Of(key) == Next(policy, old(Of(key)), a)
      ensures forall k | k != key :: Of(k) == old(Of(k))
    {
      var recent := Prune(key, a.check);
      if policy.prunes {
        failures := failures[key := recent];
      }
      if |recent| >= policy.limit {
        return true;
      }
      match a.result {
        case Wrong =>
          failures := failures[key := recent];
          var still := Prune(key, a.record);
          failures := failures[key := still + [a.record]];
        case Neutral =>
        case Clearing =>
          failures := failures - {key};
      }
      return false;
    }
  }
}
