/** The permanent geocoding pass over stored RentCast properties. A coordinate is any number; of the cached
    location only what decides later coordinates and retries is kept. */
module LocationCache {
  import opened Wrappers

  datatype Status = LOCATED | ERROR | OTHER

  datatype Result = Result(status: Status, latitude: Option<real>, longitude: Option<real>)

  datatype Source = RENTCAST | MAPBOX

  /** What a property remembers of its earlier results; `current` means the resolver's version is recorded. */
  datatype Location = Location(rentcastLat: Option<real>, rentcastLng: Option<real>, source: Source, resolved: bool,
                               current: bool)

  datatype Property = Property(latitude: Option<real>, longitude: Option<real>, location: Option<Location>)

  const MISSING := Result(ERROR, None, None)

  predicate NeedsUpgrade(p: Property) {
    !(p.location.Some? && p.location.value.current)
  }

  /** The original RentCast point as far as the property still knows it. */
  function SourceCoords(p: Property): (Option<real>, Option<real>) {
    if p.location.None? || p.location.value.rentcastLat.None? || p.location.value.rentcastLng.None? then
      (p.latitude, p.longitude)
    else
      (p.location.value.rentcastLat, p.location.value.rentcastLng)
  }

  predicate Resolved(r: Result) {
    r.status.LOCATED? && r.latitude.Some? && r.longitude.Some?
  }

  function Stored(p: Property, r: Result): Property {
    var (lat, lng) := SourceCoords(p);
    var loc := Location(lat, lng, if Resolved(r) then MAPBOX else RENTCAST, Resolved(r), !r.status.ERROR?);
    if Resolved(r) then Property(r.latitude, r.longitude, Some(loc))
    else if lat.Some? && lng.Some? then Property(lat, lng, Some(loc))
    else Property(p.latitude, p.longitude, Some(loc))
  }

  function StoredAll(p: Property, rs: seq<Result>): Property
    decreases |rs|
  {
    if rs == [] then p else Stored(StoredAll(p, rs[..|rs| - 1]), rs[|rs| - 1])
  }

  // ---- The final coordinates do not depend on the history ------------------------------------------------

  /** The last result's point if it located the property, else the original point. */
  function Expected(origin: (Option<real>, Option<real>), last: Result): (Option<real>, Option<real>) {
    if Resolved(last) then (last.latitude, last.longitude) else origin
  }

  predicate OriginKnown(p: Property) {
    SourceCoords(p).0.Some? && SourceCoords(p).1.Some?
  }

  lemma {:induction false} OriginSurvives(p: Property, rs: seq<Result>)
    requires OriginKnown(p)
    ensures SourceCoords(StoredAll(p, rs)) == SourceCoords(p)
    decreases |rs|
  {
    if rs != [] {
      OriginSurvives(p, rs[..|rs| - 1]);
    }
  }

  ghost predicate HistoryIndependent(p: Property) {
    forall rs: seq<Result> | rs != [] ::
      var q := StoredAll(p, rs);
      && (q.latitude, q.longitude) == Expected(SourceCoords(p), rs[|rs| - 1])
      && (q.location.value.source.RENTCAST? ==> (q.latitude, q.longitude) == SourceCoords(p))
  }

  /** A located result followed by a failed one. The second finds half of the original point missing, takes the
      first result's point for the RentCast one and labels it so. */
  lemma LocatedThenLost(p: Property, lat: real, lng: real)
    requires !OriginKnown(p)
    ensures var rs := [Result(LOCATED, Some(lat), Some(lng)), Result(OTHER, None, None)];
            StoredAll(p, rs) == Property(Some(lat), Some(lng), Some(Location(Some(lat), Some(lng), RENTCAST, false, true)))
  {
    var rs := [Result(LOCATED, Some(lat), Some(lng)), Result(OTHER, None, None)];
    assert rs[..1] == [rs[0]] && rs[..1][..0] == [];
    assert StoredAll(p, rs[..1]) == Stored(StoredAll(p, []), rs[0]);
  }

  /** The final coordinates are the last result's point if it located the property and otherwise the original
      RentCast point, for every sequence of results, exactly when both original coordinates are known. */
  lemma HistoryIndependentExactly(p: Property)
    ensures HistoryIndependent(p) <==> OriginKnown(p)
  {
    if OriginKnown(p) {
      forall rs: seq<Result> | rs != []
        ensures var q := StoredAll(p, rs);
                && (q.latitude, q.longitude) == Expected(SourceCoords(p), rs[|rs| - 1])
                && (q.location.value.source.RENTCAST? ==> (q.latitude, q.longitude) == SourceCoords(p)) {
        OriginSurvives(p, rs[..|rs| - 1]);
      }
    } else {
      LocatedThenLost(p, 0.0, 0.0);
      var rs := [Result(LOCATED, Some(0.0), Some(0.0)), Result(OTHER, None, None)];
      assert (StoredAll(p, rs).latitude, StoredAll(p, rs).longitude) != Expected(SourceCoords(p), rs[|rs| - 1]);
    }
  }

  /** What the last result leaves written down: the geocoder as the source, and the point as resolved, exactly if it
      located the property with both coordinates; and the row due for another try exactly if it was an error. */
  lemma LastResultShows(p: Property, rs: seq<Result>)
    requires rs != []
    ensures var q, last := StoredAll(p, rs), rs[|rs| - 1];
            var located := last.status == LOCATED && last.latitude.Some? && last.longitude.Some?;
            && q.location.Some? && (q.location.value.source == MAPBOX <==> located)
            && (q.location.value.resolved <==> located) && (NeedsUpgrade(q) <==> last.status == ERROR)
            && (located ==> q.latitude == last.latitude && q.longitude == last.longitude)
  {
  }

  // ---- One pass over the stored properties -----------------------------------------------------------------

  class Row {
    var latitude: Option<real>
    var longitude: Option<real>
    var location: Option<Location>
    const fromRentcast: bool
    const territory: Option<string>

    constructor (p: Property, fromRentcast: bool, territory: Option<string>)
      ensures View() == p && this.fromRentcast == fromRentcast && this.territory == territory
    {
      latitude, longitude, location := p.latitude, p.longitude, p.location;
      this.fromRentcast, this.territory := fromRentcast, territory;
    }

    function View(): Property
      reads this
    {
      Property(latitude, longitude, location)
    }

    predicate IsPending(territories: set<string>)
      reads this
    {
      fromRentcast && territory.Some? && territory.value in territories && NeedsUpgrade(View())
    }

    method StoreResult(r: Result)
      modifies this
      ensures View() == Stored(old(View()), r)
    {
      var (lat, lng) := SourceCoords(View());
      if Resolved(r) {
        latitude, longitude := r.latitude, r.longitude;
      } else if lat.Some? && lng.Some? {
        latitude, longitude := lat, lng;
      }
      location := Some(Location(lat, lng, if Resolved(r) then MAPBOX else RENTCAST, Resolved(r), !r.status.ERROR?));
    }
  }

  /** The geocoder's answer for a row; a row missing from the batch counts as an error. */
  function AnswerFor(answers: map<Row, Result>, row: Row): Result {
    if row in answers then answers[row] else MISSING
  }

  ghost function Answered(answers: map<Row, Result>, rows: set<Row>, status: Status): set<Row> {
    set r | r in rows && AnswerFor(answers, r).status == status
  }

  /** Rows processed, rows located, rows left in error. */
  datatype Counters = Counters(processed: nat, located: nat, errors: nat) {
    function Plus(other: Counters): Counters {
      Counters(processed + other.processed, located + other.located, errors + other.errors)
    }
  }

  function One(r: Result): Counters {
    Counters(1, if r.status.LOCATED? then 1 else 0, if r.status.ERROR? then 1 else 0)
  }

  ghost function Tally(answers: map<Row, Result>, rows: set<Row>): Counters {
    Counters(|rows|, |Answered(answers, rows, LOCATED)|, |Answered(answers, rows, ERROR)|)
  }

  lemma AnsweredJoins(answers: map<Row, Result>, a: set<Row>, b: set<Row>, status: Status)
    requires a !! b
    ensures |Answered(answers, a + b, status)| == |Answered(answers, a, status)| + |Answered(answers, b, status)|
  {
    hide AnswerFor;
    var x, y := Answered(answers, a, status), Answered(answers, b, status);
    assert Answered(answers, a + b, status) == x + y && x !! y;
    hide Answered;
  }

  lemma TallyJoins(answers: map<Row, Result>, a: set<Row>, b: set<Row>)
    requires a !! b
    ensures Tally(answers, a + b) == Tally(answers, a).Plus(Tally(answers, b))
  {
    hide Answered, AnswerFor;
    AnsweredJoins(answers, a, b, LOCATED);
    AnsweredJoins(answers, a, b, ERROR);
  }

  lemma TallyOfOne(answers: map<Row, Result>, r: Row)
    ensures Tally(answers, {r}) == One(AnswerFor(answers, r))
  {
    var status := AnswerFor(answers, r).status;
    assert Answered(answers, {r}, LOCATED) == if status.LOCATED? then {r} else {};
    assert Answered(answers, {r}, ERROR) == if status.ERROR? then {r} else {};
  }

  predicate Distinct(rows: seq<Row>) {
    forall i, j | 0 <= i < j < |rows| :: rows[i] != rows[j]
  }

  function SetOf(rows: seq<Row>): set<Row> {
    set r | r in rows
  }

  const CHUNK_SIZE := 1000

  /** Stores the answers of one batch: the rows from `start` to `end`. */
  method StoreBatch(group: seq<Row>, answers: map<Row, Result>, start: nat, end: nat) returns (c: Counters)
    requires Distinct(group) && start <= end <= |group|
    modifies SetOf(group[start..end])
    ensures forall i | start <= i < end :: group[i].View() == Stored(old(group[i].View()), AnswerFor(answers, group[i]))
    ensures c.Plus(Tally(answers, SetOf(group[..start]))) == Tally(answers, SetOf(group[..end]))
  {
    hide Stored, Tally, AnswerFor;
    c := Counters(0, 0, 0);
    for k := start to end
      invariant forall i | start <= i < k :: group[i].View() == Stored(old(group[i].View()), AnswerFor(answers, group[i]))
      invariant forall i | k <= i < end :: group[i].View() == old(group[i].View())
      invariant c.Plus(Tally(answers, SetOf(group[..start]))) == Tally(answers, SetOf(group[..k]))
    {
      var answer := AnswerFor(answers, group[k]);
      assert group[k] in group[start..end];
      group[k].StoreResult(answer);
      c := c.Plus(One(answer));
      AnotherRow(answers, group, k);
    }
  }

  /** Stores the answers of one territory's rows, a batch at a time. */
  method StoreGroup(group: seq<Row>, answers: map<Row, Result>) returns (c: Counters)
    requires Distinct(group)
    modifies SetOf(group)
    ensures forall r | r in group :: r.View() == Stored(old(r.View()), AnswerFor(answers, r))
    ensures c == Tally(answers, SetOf(group))
  {
    hide Stored, AnswerFor, Row.View;
    c := Counters(0, 0, 0);
    var start := 0;
    while start < |group|
      invariant 0 <= start <= |group|
      invariant forall i | 0 <= i < start :: group[i].View() == Stored(old(group[i].View()), AnswerFor(answers, group[i]))
      invariant forall i | start <= i < |group| :: group[i].View() == old(group[i].View())
      invariant c == Tally(answers, SetOf(group[..start]))
    {
      var end := if start + CHUNK_SIZE <= |group| then start + CHUNK_SIZE else |group|;
      var more := StoreBatch(group, answers, start, end);
      c := c.Plus(more);
      start := end;
    }
    assert group[..|group|] == group;
  }

  lemma AnotherRow(answers: map<Row, Result>, group: seq<Row>, k: nat)
    requires k < |group| && Distinct(group)
    ensures Tally(answers, SetOf(group[..k + 1])) == Tally(answers, SetOf(group[..k])).Plus(One(AnswerFor(answers, group[k])))
  {
    hide Tally;
    assert SetOf(group[..k + 1]) == SetOf(group[..k]) + {group[k]};
    TallyJoins(answers, SetOf(group[..k]), {group[k]});
    TallyOfOne(answers, group[k]);
  }

  /** The rows of the list that a pass takes up, in order. */
  function PendingOf(rows: seq<Row>, territories: set<string>): (r: seq<Row>)
    reads SetOf(rows)
    ensures forall x | x in r :: x in rows && x.IsPending(territories)
    ensures forall x | x in rows && x.IsPending(territories) :: x in r
    ensures Distinct(rows) ==> Distinct(r)
  {
    if rows == [] then []
    else
      var last := rows[|rows| - 1];
      PendingOf(rows[..|rows| - 1], territories) + if last.IsPending(territories) then [last] else []
  }

  function InTerritory(rows: seq<Row>, tid: string): (r: seq<Row>)
    ensures forall x | x in r :: x in rows && x.territory == Some(tid)
    ensures forall x | x in rows && x.territory == Some(tid) :: x in r
    ensures Distinct(rows) ==> Distinct(r)
  {
    if rows == [] then []
    else
      var last := rows[|rows| - 1];
      InTerritory(rows[..|rows| - 1], tid) + if last.territory == Some(tid) then [last] else []
  }

  /** One pass, territory by territory in any order: every pending row is given its answer exactly once, no
      other row changes, the counters count rows, and only rows answered with an error are still pending. */
  method RefreshLocations(rows: seq<Row>, territories: set<string>, answers: map<Row, Result>) returns (c: Counters)
    requires Distinct(rows)
    modifies SetOf(rows)
    ensures forall r | r in rows ::
              r.View() == if r in old(PendingOf(rows, territories)) then Stored(old(r.View()), AnswerFor(answers, r))
                          else old(r.View())
    ensures forall r | r in rows :: r.IsPending(territories) <==>
              r in old(PendingOf(rows, territories)) && AnswerFor(answers, r).status.ERROR?
    ensures forall r | r in rows && r !in answers :: r.IsPending(territories) <==> old(r.IsPending(territories))
    ensures c == Tally(answers, SetOf(old(PendingOf(rows, territories))))
  {
    var pending := PendingOf(rows, territories);
    c := StorePending(pending, answers);
  }

  method StorePending(pending: seq<Row>, answers: map<Row, Result>) returns (c: Counters)
    requires Distinct(pending) && forall r | r in pending :: r.territory.Some?
    modifies SetOf(pending)
    ensures forall r | r in pending :: r.View() == Stored(old(r.View()), AnswerFor(answers, r))
    ensures c == Tally(answers, SetOf(pending))
  {
    hide Stored, AnswerFor, Row.View, Distinct, InTerritory, Settled;
    c := Counters(0, 0, 0);
    var left := set r | r in pending :: r.territory.value;
    ghost var done: set<Row> := {};
    ghost var was := map r | r in pending :: r.View();
    SettledEnds(pending, left);
    assert c == Tally(answers, done);
    hide Tally;
    while left != {}
      invariant done == Settled(pending, left)
      invariant forall r | r in pending :: r.View() == if r in done then Stored(was[r], AnswerFor(answers, r)) else was[r]
      invariant c == Tally(answers, done)
      decreases |left|
    {
      var tid :| tid in left;
      var group := InTerritory(pending, tid);
      OneTerritoryMore(pending, left, tid);
      var more := StoreGroup(group, answers);
      c := c.Plus(more);
      TallyJoins(answers, done, SetOf(group));
      done := done + SetOf(group);
      left := left - {tid};
    }
    SettledEnds(pending, left);
  }

  lemma SettledEnds(pending: seq<Row>, left: set<string>)
    requires forall r | r in pending :: r.territory.Some?
    ensures left == {} ==> Settled(pending, left) == SetOf(pending)
    ensures (forall r | r in pending :: r.territory.value in left) ==> Settled(pending, left) == {}
  {
  }

  /** The rows whose territory is not to come. */
  function Settled(pending: seq<Row>, left: set<string>): set<Row>
    requires forall r | r in pending :: r.territory.Some?
  {
    set r | r in pending && r.territory.value !in left
  }

  lemma OneTerritoryMore(pending: seq<Row>, left: set<string>, tid: string)
    requires (forall r | r in pending :: r.territory.Some?) && tid in left
    ensures Settled(pending, left - {tid}) == Settled(pending, left) + SetOf(InTerritory(pending, tid))
    ensures Settled(pending, left) !! SetOf(InTerritory(pending, tid))
  {
  }
}
