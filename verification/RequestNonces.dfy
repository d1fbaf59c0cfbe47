/** Replay protection of installation-signed requests: a table of nonces that forgets, measured against one
    that never does. */
module RequestNonces {

  type Time = real

  /** `tolerance` in whole seconds; `retention` is how long a nonce row is kept. */
  datatype Config = Config(tolerance: nat, retention: Time)

  datatype Request = Request(timestamp: int, nonce: string, authentic: bool)

  /** The handler reads the clock three times: tolerance check, purge, and row insertion. */
  datatype Arrival = Arrival(req: Request, check: Time, purge: Time, store: Time)

  datatype Decision = Accepted | OutsideTolerance | Refused | Replay

  type Table = map<string, Time>

  function Abs(n: int): nat {
    if n < 0 then -n else n
  }

  /** Both sides truncate to whole seconds before comparing. */
  predicate InTolerance(c: Config, a: Arrival) {
    Abs(a.check.Floor - a.req.timestamp) <= c.tolerance
  }

  function Purged(t: Table, now: Time): Table {
    map n | n in t && t[n] >= now :: t[n]
  }

  function Verify(c: Config, t: Table, a: Arrival): (Table, Decision) {
    if !InTolerance(c, a) then (t, OutsideTolerance)
    else if !a.req.authentic then (t, Refused)
    else if a.req.nonce in Purged(t, a.purge) then (Purged(t, a.purge), Replay)
    else (Purged(t, a.purge)[a.req.nonce := a.store + c.retention], Accepted)
  }

  function TableAfter(c: Config, run: seq<Arrival>): Table {
    if run == [] then map[] else
      var n := |run| - 1;
      Verify(c, TableAfter(c, run[..n]), run[n]).0
  }

  function DecisionAt(c: Config, run: seq<Arrival>, i: nat): Decision
    requires i < |run|
  {
    Verify(c, TableAfter(c, run[..i]), run[i]).1
  }

  /** The reference: a set of accepted nonces that is never purged. */
  function VerifyForever(c: Config, seen: set<string>, a: Arrival): (set<string>, Decision) {
    if !InTolerance(c, a) then (seen, OutsideTolerance)
    else if !a.req.authentic then (seen, Refused)
    else if a.req.nonce in seen then (seen, Replay)
    else (seen + {a.req.nonce}, Accepted)
  }

  function SeenAfter(c: Config, run: seq<Arrival>): set<string> {
    if run == [] then {} else
      var n := |run| - 1;
      VerifyForever(c, SeenAfter(c, run[..n]), run[n]).0
  }

  /** A serial run under a non-decreasing clock whose handlers purge within `lag` of their check. */
  ghost predicate Timely(run: seq<Arrival>, lag: Time) {
    && (forall i | 0 <= i < |run| :: run[i].check <= run[i].purge <= run[i].store && run[i].purge <= run[i].check + lag)
    && (forall i, j | 0 <= i < j < |run| :: run[i].store <= run[j].check)
  }

  predicate Enough(c: Config, lag: Time) {
    c.retention >= 2.0 * c.tolerance as real + 1.0 + lag
  }

  lemma {:induction false} RowSurvives(c: Config, run: seq<Arrival>, i: nat, k: nat, lag: Time)
    requires Timely(run, lag) && i < k <= |run| && DecisionAt(c, run, i) == Accepted
    requires forall j | i < j < k :: run[j].purge <= run[i].store + c.retention
    ensures run[i].req.nonce in TableAfter(c, run[..k])
    ensures TableAfter(c, run[..k])[run[i].req.nonce] >= run[i].store + c.retention
    decreases k
  {
    var p := run[..k];
    assert p[..k - 1] == run[..k - 1] && p[k - 1] == run[k - 1];
    if i + 1 < k {
      RowSurvives(c, run, i, k - 1, lag);
    }
  }

  /** While a request is within tolerance, the row of an earlier acceptance with its timestamp is still kept. */
  lemma StillKept(c: Config, run: seq<Arrival>, i: nat, j: nat, lag: Time)
    requires Enough(c, lag) && Timely(run, lag) && i < j < |run|
    requires InTolerance(c, run[i]) && InTolerance(c, run[j]) && run[i].req.timestamp == run[j].req.timestamp
    ensures forall k | i < k <= j :: run[k].purge <= run[i].store + c.retention
  {
  }

  ghost predicate AtMostOnce(c: Config, run: seq<Arrival>) {
    forall i, j | 0 <= i < j < |run| && run[i].req.nonce == run[j].req.nonce
                  && run[i].req.timestamp == run[j].req.timestamp ::
      !(DecisionAt(c, run, i) == Accepted && DecisionAt(c, run, j) == Accepted)
  }

  lemma AcceptedAtMostOnce(c: Config, run: seq<Arrival>, lag: Time)
    requires Enough(c, lag) && Timely(run, lag)
    ensures AtMostOnce(c, run)
  {
    forall i, j | 0 <= i < j < |run| && run[i].req.nonce == run[j].req.nonce
                  && run[i].req.timestamp == run[j].req.timestamp
      ensures !(DecisionAt(c, run, i) == Accepted && DecisionAt(c, run, j) == Accepted)
    {
      if DecisionAt(c, run, i) == Accepted && InTolerance(c, run[j]) {
        StillKept(c, run, i, j, lag);
        RowSurvives(c, run, i, j, lag);
      }
    }
  }

  /** A request accepted, and accepted again once its row has been purged: possible whenever the retention
      is shorter than twice the tolerance plus the truncated second plus the handler's lag. */
  lemma TooShortRetention(c: Config, lag: Time) returns (run: seq<Arrival>)
    requires !Enough(c, lag) && lag >= 0.0
    ensures Timely(run, lag) && !AtMostOnce(c, run)
  {
    var tol := c.tolerance as real;
    var gap := 2.0 * tol + 1.0 + lag - c.retention;
    var e := if gap / 2.0 < 0.5 then gap / 2.0 else 0.5;
    var r := Request(0, "n", true);
    var last := tol + 1.0 - e;
    run := [Arrival(r, -tol, -tol, -tol), Arrival(r, last, last + lag, last + lag)];
    assert (-tol).Floor == -(c.tolerance as int) && last.Floor == c.tolerance;
    assert run[..0] == [] && run[..1] == [run[0]] && [run[0]][..0] == [];
    assert TableAfter(c, []) == map[];
    assert DecisionAt(c, run, 0) == Accepted;
    assert TableAfter(c, run[..1]) == map["n" := -tol + c.retention];
    assert DecisionAt(c, run, 1) == Accepted;
  }

  /** A request with given timestamp and nonce is accepted at most once in every run exactly when the
      retention is at least twice the tolerance plus one second plus the lag between check and purge. */
  lemma RetentionExactlyEnough(c: Config, lag: Time)
    requires lag >= 0.0
    ensures Enough(c, lag) <==> forall run | Timely(run, lag) :: AtMostOnce(c, run)
  {
    if Enough(c, lag) {
      forall run | Timely(run, lag) ensures AtMostOnce(c, run) {
        AcceptedAtMostOnce(c, run, lag);
      }
    } else {
      var run := TooShortRetention(c, lag);
    }
  }

  /** Every signed nonce belongs to one timestamp, as for clients that draw a fresh nonce per request. */
  ghost predicate OneStamp(run: seq<Arrival>) {
    forall i, j | 0 <= i < |run| && 0 <= j < |run| && run[i].req.nonce == run[j].req.nonce ::
      run[i].req.timestamp == run[j].req.timestamp
  }

  predicate AgreesAt(c: Config, run: seq<Arrival>, i: nat)
    requires i < |run|
  {
    DecisionAt(c, run, i) == VerifyForever(c, SeenAfter(c, run[..i]), run[i]).1
  }

  lemma {:induction false} SeenMeansAccepted(c: Config, run: seq<Arrival>, k: nat, n: string)
    requires k <= |run| && n in SeenAfter(c, run[..k])
    requires forall i | 0 <= i < k :: AgreesAt(c, run, i)
    ensures exists i | 0 <= i < k :: run[i].req.nonce == n && DecisionAt(c, run, i) == Accepted
    decreases k
  {
    var p := run[..k];
    assert p[..k - 1] == run[..k - 1] && p[k - 1] == run[k - 1];
    if n in SeenAfter(c, run[..k - 1]) {
      SeenMeansAccepted(c, run, k - 1, n);
    } else {
      assert AgreesAt(c, run, k - 1);
      assert run[k - 1].req.nonce == n && DecisionAt(c, run, k - 1) == Accepted;
    }
  }

  lemma {:induction false} RowMeansSeen(c: Config, run: seq<Arrival>, k: nat)
    requires k <= |run|
    requires forall i | 0 <= i < k :: AgreesAt(c, run, i)
    ensures TableAfter(c, run[..k]).Keys <= SeenAfter(c, run[..k])
    decreases k
  {
    if k > 0 {
      var p := run[..k];
      assert p[..k - 1] == run[..k - 1] && p[k - 1] == run[k - 1];
      RowMeansSeen(c, run, k - 1);
      assert AgreesAt(c, run, k - 1);
    }
  }

  lemma NextAgrees(c: Config, run: seq<Arrival>, lag: Time, j: nat)
    requires Enough(c, lag) && Timely(run, lag) && OneStamp(run) && j < |run|
    requires forall i | 0 <= i < j :: AgreesAt(c, run, i)
    ensures AgreesAt(c, run, j)
  {
    RowMeansSeen(c, run, j);
    if run[j].req.nonce in SeenAfter(c, run[..j]) && InTolerance(c, run[j]) {
      SeenMeansAccepted(c, run, j, run[j].req.nonce);
      var i :| 0 <= i < j && run[i].req.nonce == run[j].req.nonce && DecisionAt(c, run, i) == Accepted;
      StillKept(c, run, i, j, lag);
      RowSurvives(c, run, i, j, lag);
    }
  }

  /** The purged table rejects exactly the replays that a table which never forgets would. */
  lemma {:induction false} SameAsForever(c: Config, run: seq<Arrival>, lag: Time, k: nat)
    requires Enough(c, lag) && Timely(run, lag) && OneStamp(run) && k <= |run|
    ensures forall i | 0 <= i < k :: AgreesAt(c, run, i)
    decreases k
  {
    if k > 0 {
      SameAsForever(c, run, lag, k - 1);
      NextAgrees(c, run, lag, k - 1);
    }
  }

  lemma {:induction false} AcceptedIsSeen(c: Config, run: seq<Arrival>, k: nat, i: nat)
    requires i < k <= |run| && (forall j | 0 <= j < k :: AgreesAt(c, run, j)) && DecisionAt(c, run, i) == Accepted
    ensures run[i].req.nonce in SeenAfter(c, run[..k])
    decreases k
  {
    var p := run[..k];
    assert p[..k - 1] == run[..k - 1] && p[k - 1] == run[k - 1];
    assert AgreesAt(c, run, k - 1);
    if i < k - 1 {
      AcceptedIsSeen(c, run, k - 1, i);
    }
  }

  /** A request is let through exactly if its time stamp lies within the tolerance of the whole second, its signature is
      good, and its nonce has not been let through before. */
  lemma AcceptedExactly(c: Config, run: seq<Arrival>, lag: Time, j: nat)
    requires Enough(c, lag) && Timely(run, lag) && OneStamp(run) && j < |run|
    ensures DecisionAt(c, run, j) == Accepted <==>
            && run[j].req.timestamp - c.tolerance <= run[j].check.Floor <= run[j].req.timestamp + c.tolerance
            && run[j].req.authentic
            && !exists i | 0 <= i < j :: run[i].req.nonce == run[j].req.nonce && DecisionAt(c, run, i) == Accepted
  {
    SameAsForever(c, run, lag, |run|);
    assert AgreesAt(c, run, j);
    if run[j].req.nonce in SeenAfter(c, run[..j]) {
      SeenMeansAccepted(c, run, j, run[j].req.nonce);
    }
    if i :| 0 <= i < j && run[i].req.nonce == run[j].req.nonce && DecisionAt(c, run, i) == Accepted {
      AcceptedIsSeen(c, run, j, i);
    }
    hide DecisionAt, SeenAfter;
  }

  /** After a request that came as far as the table no row is kept beyond its time, whether the request was let through
      or not. */
  lemma NoneOverstays(c: Config, run: seq<Arrival>, n: string)
    requires run != [] && c.retention >= 0.0 && run[|run| - 1].purge <= run[|run| - 1].store
    requires DecisionAt(c, run, |run| - 1) in {Accepted, Replay} && n in TableAfter(c, run)
    ensures TableAfter(c, run)[n] >= run[|run| - 1].purge
  {
  }

  /** The purge does forget: a nonce signed again under a much later timestamp is accepted again, which the
      unbounded set would refuse. */
  lemma PurgeForgets(c: Config) returns (run: seq<Arrival>)
    requires c.retention >= 0.0
    ensures Timely(run, 0.0) && |run| == 2 && run[0].req.nonce == run[1].req.nonce
    ensures DecisionAt(c, run, 1) == Accepted && VerifyForever(c, SeenAfter(c, run[..1]), run[1]).1 == Replay
  {
    var late := c.retention.Floor + 1;
    var t := late as real;
    run := [Arrival(Request(0, "n", true), 0.0, 0.0, 0.0), Arrival(Request(late, "n", true), t, t, t)];
    assert t.Floor == late && (0.0 as real).Floor == 0;
    assert run[..0] == [] && run[..1] == [run[0]] && [run[0]][..0] == [];
    assert TableAfter(c, []) == map[] && SeenAfter(c, []) == {};
    assert TableAfter(c, run[..1]) == map["n" := c.retention];
  }

  class NonceTable {
    var rows: Table

    constructor ()
      ensures rows == map[]
    {
      rows := map[];
    }

    method VerifyInstallationRequest(c: Config, a: Arrival) returns (d: Decision)
      modifies this
      ensures (rows, d) == Verify(c, old(rows), a)
    {
      if Abs(a.check.Floor - a.req.timestamp) > c.tolerance {
        return OutsideTolerance;
      }
      if !a.req.authentic {
        return Refused;
      }
      rows := map n | n in rows && rows[n] >= a.purge :: rows[n];
      if a.req.nonce in rows {
        return Replay;
      }
      rows := rows[a.req.nonce := a.store + c.retention];
      return Accepted;
    }
  }
}
