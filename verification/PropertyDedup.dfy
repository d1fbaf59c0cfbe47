/** The cleanup itself, on the tables in place: score each cluster, keep its best row, fold the others in. */
module PropertyDedup {
  import opened Wrappers
  import opened DuplicateClusters
  import opened PropertyMerge
  import opened NoteText

  // ---- Choosing the canonical row -----------------------------------------------------------------

  datatype Score = Score(mapbox: nat, contacts: nat, related: nat, richness: nat, created: real)

  /** Python's tuple order on (mapbox, contacts, related, richness, -created). */
  predicate AtLeast(a: Score, b: Score) {
    if a.mapbox != b.mapbox then a.mapbox > b.mapbox
    else if a.contacts != b.contacts then a.contacts > b.contacts
    else if a.related != b.related then a.related > b.related
    else if a.richness != b.richness then a.richness > b.richness
    else a.created <= b.created
  }

  function ScoreOf(t: Tables, p: string): Score
    requires p in t.rows
  {
    var row := t.rows[p];
    Score(if row.mapboxResolved then 1 else 0,
          |set i | i in t.contacts && t.contacts[i].property == p|,
          |set i | i in t.dependents && t.dependents[i].property == Some(p)|
          + |set i | i in t.links && t.links[i].property == p|,
          |set a | a in row.attrs && row.attrs[a] != ""| + (if row.notes != "" then 1 else 0),
          row.created)
  }

  function ContactsOf(t: Tables, p: string): nat {
    |set i | i in t.contacts && t.contacts[i].property == p|
  }

  function RelatedOf(t: Tables, p: string): nat {
    |set i | i in t.dependents && t.dependents[i].property == Some(p)| + |set i | i in t.links && t.links[i].property == p|
  }

  function FilledOf(row: Row): nat {
    |set a | a in row.attrs && row.attrs[a] != ""| + (if row.notes == "" then 0 else 1)
  }

  /** Who may survive: a located row rather than one that is not; then whoever has more contacts, then more related
      rows, then more filled fields; of equals the older one. */
  lemma Preference(t: Tables, p: string, q: string)
    requires p in t.rows && q in t.rows && AtLeast(ScoreOf(t, p), ScoreOf(t, q))
    ensures t.rows[q].mapboxResolved ==> t.rows[p].mapboxResolved
    ensures t.rows[p].mapboxResolved == t.rows[q].mapboxResolved ==>
              && ContactsOf(t, p) >= ContactsOf(t, q)
              && (ContactsOf(t, p) == ContactsOf(t, q) ==>
                    && RelatedOf(t, p) >= RelatedOf(t, q)
                    && (RelatedOf(t, p) == RelatedOf(t, q) && FilledOf(t.rows[p]) <= FilledOf(t.rows[q]) ==>
                          FilledOf(t.rows[p]) == FilledOf(t.rows[q]) && t.rows[p].created <= t.rows[q].created))
  {
  }

  datatype Scored = Scored(score: Score, id: string)

  predicate Descending(s: seq<Scored>) {
    forall i, j | 0 <= i < j < |s| :: AtLeast(s[i].score, s[j].score)
  }

  /** One insertion of a stable descending sort. */
  method InsertScored(s: seq<Scored>, x: Scored) returns (r: seq<Scored>)
    requires Descending(s)
    ensures Descending(r) && multiset(r) == multiset(s) + multiset{x}
    ensures exists k | 0 <= k <= |s| :: r == s[..k] + [x] + s[k..]
              && (forall i | 0 <= i < k :: AtLeast(s[i].score, x.score))
              && (k < |s| ==> !AtLeast(s[k].score, x.score))
  {
    var k := 0;
    while k < |s| && AtLeast(s[k].score, x.score)
      invariant k <= |s| && forall i | 0 <= i < k :: AtLeast(s[i].score, x.score)
    {
      k := k + 1;
    }
    r := s[..k] + [x] + s[k..];
    assert s == s[..k] + s[k..];
    forall j | k <= j < |s| ensures AtLeast(x.score, s[j].score) {
      Ranked(x.score, s[k].score, s[j].score);
    }
    hide AtLeast;
  }

  /** What is not at least as good as `a` comes after `a`, and so does all that comes after it. */
  lemma Ranked(a: Score, b: Score, c: Score)
    requires !AtLeast(b, a) && (b == c || AtLeast(b, c))
    ensures AtLeast(a, c)
  {
  }

  function Scoreds(t: Tables, ids: seq<string>): (s: seq<Scored>)
    requires forall x | x in ids :: x in t.rows
    ensures |s| == |ids| && forall i | 0 <= i < |s| :: s[i] == Scored(ScoreOf(t, ids[i]), ids[i])
  {
    seq(|ids|, i requires 0 <= i < |ids| => Scored(ScoreOf(t, ids[i]), ids[i]))
  }

  lemma ScoredsMore(t: Tables, ids: seq<string>, i: nat)
    requires i < |ids| && forall x | x in ids :: x in t.rows
    ensures Scoreds(t, ids[..i + 1]) == Scoreds(t, ids[..i]) + [Scored(ScoreOf(t, ids[i]), ids[i])]
  {
    hide ScoreOf;
  }

  lemma CountTwice(s: seq<Scored>, a: nat, b: nat)
    requires a < b < |s| && s[a] == s[b]
    ensures multiset(s)[s[a]] >= 2
  {
    assert s == s[..b] + [s[b]] + s[b + 1..];
    assert s[..b][a] == s[a];
  }

  lemma {:induction false} CountOnce(s: seq<Scored>, x: Scored)
    requires forall i, j | 0 <= i < j < |s| :: s[i] != s[j]
    ensures multiset(s)[x] <= 1
  {
    if s != [] {
      var n := |s| - 1;
      CountOnce(s[..n], x);
      assert s == s[..n] + [s[n]];
      assert s[n] !in s[..n];
    }
  }

  /** Sorting permutes: the sorted list names each member of the cluster exactly once. */
  lemma SortedNames(t: Tables, part: seq<string>, s: seq<Scored>)
    requires Distinct(part) && forall y | y in part :: y in t.rows
    requires multiset(s) == multiset(Scoreds(t, part))
    ensures forall i | 0 <= i < |s| :: s[i].id in part && s[i].score == ScoreOf(t, s[i].id)
    ensures forall x | x in part :: exists i | 0 <= i < |s| :: s[i].id == x
    ensures forall i, j | 0 <= i < j < |s| :: s[i].id != s[j].id
    ensures |s| == |part|
  {
    var u := Scoreds(t, part);
    hide ScoreOf, Scoreds;
    SameMembers(s, u);
    forall i | 0 <= i < |s| ensures s[i].id in part && s[i].score == ScoreOf(t, s[i].id) {
      assert s[i] in u;
    }
    forall x | x in part ensures exists i | 0 <= i < |s| :: s[i].id == x {
      var j :| 0 <= j < |part| && part[j] == x;
      assert u[j] in s;
    }
    forall i, j | 0 <= i < j < |s| ensures s[i].id != s[j].id {
      NamedOnce(u, s, i, j);
    }
  }

  lemma SameMembers(s: seq<Scored>, u: seq<Scored>)
    requires multiset(s) == multiset(u)
    ensures |s| == |u| && (forall x | x in s :: x in u) && forall x | x in u :: x in s
  {
    assert |s| == |multiset(s)| == |multiset(u)| == |u|;
    assert forall x :: x in s <==> x in multiset(s);
    assert forall x :: x in u <==> x in multiset(u);
  }

  function NamesBetween(s: seq<Scored>, from: nat, to: nat): set<string>
    requires from <= to <= |s|
  {
    set k | from <= k < to :: s[k].id
  }

  lemma NextName(s: seq<Scored>, j: nat)
    requires 1 <= j < |s| && forall a, b | 0 <= a < b < |s| :: s[a].id != s[b].id
    ensures s[j].id !in NamesBetween(s, 1, j) && s[0].id !in NamesBetween(s, 1, j) && s[j].id != s[0].id
    ensures NamesBetween(s, 1, j + 1) == NamesBetween(s, 1, j) + {s[j].id}
  {
  }

  lemma NamesAreOthers(part: seq<string>, s: seq<Scored>)
    requires s != [] && forall a, b | 0 <= a < b < |s| :: s[a].id != s[b].id
    requires forall i | 0 <= i < |s| :: s[i].id in part
    requires forall x | x in part :: exists i | 0 <= i < |s| :: s[i].id == x
    ensures NamesBetween(s, 1, |s|) == Others(part, s[0].id)
  {
  }

  lemma FirstIsBest(t: Tables, part: seq<string>, s: seq<Scored>)
    requires (forall y | y in part :: y in t.rows) && s != [] && Descending(s)
    requires forall i | 0 <= i < |s| :: s[i].id in part && s[i].score == ScoreOf(t, s[i].id)
    requires forall x | x in part :: exists i | 0 <= i < |s| :: s[i].id == x
    ensures forall x | x in part :: AtLeast(ScoreOf(t, s[0].id), ScoreOf(t, x))
  {
    hide ScoreOf;
    forall x | x in part ensures AtLeast(ScoreOf(t, s[0].id), ScoreOf(t, x)) {
      var i :| 0 <= i < |s| && s[i].id == x;
      assert i == 0 || AtLeast(s[0].score, s[i].score);
    }
  }

  lemma NamedOnce(u: seq<Scored>, s: seq<Scored>, i: nat, j: nat)
    requires multiset(s) == multiset(u) && forall a, b | 0 <= a < b < |u| :: u[a].id != u[b].id
    requires i < j < |s|
    ensures s[i].id != s[j].id
  {
    assert s[i] in multiset(u) && s[j] in multiset(u);
    if s[i].id == s[j].id {
      CountTwice(s, i, j);
      CountOnce(u, s[i]);
    }
  }

  /** All of `gone` folded into `keep`. */
  function Folding(keep: string, gone: set<string>): Redirect {
    map x | x in gone :: keep
  }

  function Others(part: seq<string>, keep: string): set<string> {
    (set x | x in part) - {keep}
  }

  lemma DistinctCount(ids: seq<string>)
    requires Distinct(ids)
    ensures |set x | x in ids| == |ids|
  {
    if ids != [] {
      var n := |ids| - 1;
      DistinctCount(ids[..n]);
      assert (set x | x in ids) == (set x | x in ids[..n]) + {ids[n]};
      assert ids[n] !in ids[..n];
    }
  }

  lemma FoldStep(t: Tables, mid: Tables, after: Tables, keep: string, gone: set<string>, d: string)
    requires Merged(t, mid, Folding(keep, gone)) && Merged(mid, after, map[d := keep])
    requires d !in gone && d != keep && keep !in gone
    ensures Merged(t, after, Folding(keep, gone + {d}))
  {
    hide Merged;
    MergedCompose(t, mid, after, Folding(keep, gone), map[d := keep]);
    assert Compose(Folding(keep, gone), map[d := keep]) == Folding(keep, gone + {d});
  }

  lemma RowsLeft(t: Tables, m: Tables, f: Redirect)
    requires Merged(t, m, f)
    ensures m.rows.Keys == t.rows.Keys - f.Keys && f.Keys <= t.rows.Keys
    ensures forall p | p in f :: f[p] in m.rows
    ensures forall p | p in m.rows :: m.rows[p].site == t.rows[p].site
  {
  }

  // ---- Bookkeeping of a cleanup run ------------------------------------------------------------------

  /** Every part is collapsed onto one of its members, which itself stays. */
  ghost predicate CollapsedTo(f: Redirect, part: seq<string>, keep: string) {
    keep in part && keep !in f && forall x | x in part && x != keep :: x in f && f[x] == keep
  }

  ghost predicate Collapsed(f: Redirect, part: seq<string>) {
    exists keep :: CollapsedTo(f, part, keep)
  }

  ghost predicate MovesWithin(f: Redirect, parts: seq<seq<string>>, i: nat, x: string)
    requires i <= |parts| && x in f
  {
    exists j | 0 <= j < i :: |parts[j]| >= 2 && x in parts[j] && f[x] in parts[j]
  }

  /** The first `i` parts are collapsed and nothing else is touched. */
  ghost predicate Progress(parts: seq<seq<string>>, i: nat, f: Redirect) {
    && i <= |parts|
    && (forall j | 0 <= j < i :: Collapsed(f, parts[j]))
    && (forall x | x in f :: MovesWithin(f, parts, i, x))
    && (f == map[] <==> forall j | 0 <= j < i :: |parts[j]| < 2)
  }

  lemma PartsHas(dist: Distance, sites: map<string, Site>, parts: seq<seq<string>>, i: nat)
    requires Parts(dist, sites, parts) && i < |parts|
    ensures parts[i] != [] && Distinct(parts[i])
  {
  }

  lemma NextPartIntact(dist: Distance, sites: map<string, Site>, parts: seq<seq<string>>, i: nat, f: Redirect)
    requires Parts(dist, sites, parts) && Progress(parts, i, f) && i < |parts|
    ensures forall x | x in f :: x !in parts[i] && f[x] !in parts[i]
  {
    hide Grown, Distinct, LikelyDuplicate, Collapsed;
    forall x | x in f ensures x !in parts[i] && f[x] !in parts[i] {
      assert MovesWithin(f, parts, i, x);
      var j :| 0 <= j < i && x in parts[j] && f[x] in parts[j];
      assert Apart(dist, sites, parts[j], parts[i]);
    }
  }

  lemma ProgressSkip(parts: seq<seq<string>>, i: nat, f: Redirect)
    requires Progress(parts, i, f) && i < |parts| && |parts[i]| == 1
    requires parts[i][0] !in f
    ensures Progress(parts, i + 1, f)
  {
    assert CollapsedTo(f, parts[i], parts[i][0]);
    forall x | x in f ensures MovesWithin(f, parts, i + 1, x) {
      assert MovesWithin(f, parts, i, x);
    }
  }

  lemma ProgressStart(parts: seq<seq<string>>)
    ensures Progress(parts, 0, map[])
  {
  }

  lemma OthersCount(f: Redirect, part: seq<string>, keep: string)
    requires Distinct(part) && keep in part && forall x | x in part :: x !in f
    ensures |f + Folding(keep, Others(part, keep))| == |f| + |part| - 1
  {
    var h := Folding(keep, Others(part, keep));
    DistinctCount(part);
    assert (set x | x in part) == Others(part, keep) + {keep};
    assert h.Keys == Others(part, keep);
    assert (f + h).Keys == f.Keys + h.Keys && f.Keys !! h.Keys;
  }

  lemma ComposeApart(f: Redirect, part: seq<string>, keep: string)
    requires forall x | x in f :: x !in part && f[x] !in part
    ensures Compose(f, Folding(keep, Others(part, keep))) == f + Folding(keep, Others(part, keep))
  {
  }

  lemma CollapsedStays(f: Redirect, part: seq<string>, next: seq<string>, keep: string)
    requires Collapsed(f, part) && forall x | x in part :: x !in next
    ensures Collapsed(f + Folding(keep, Others(next, keep)), part)
  {
    var k :| CollapsedTo(f, part, k);
    assert CollapsedTo(f + Folding(keep, Others(next, keep)), part, k);
  }

  lemma ProgressStep(dist: Distance, sites: map<string, Site>, parts: seq<seq<string>>, i: nat, f: Redirect, keep: string)
    requires Parts(dist, sites, parts) && Progress(parts, i, f) && i < |parts| && |parts[i]| >= 2 && keep in parts[i]
    ensures Progress(parts, i + 1, f + Folding(keep, Others(parts[i], keep)))
  {
    hide Grown, LikelyDuplicate, Collapsed;
    var h := Folding(keep, Others(parts[i], keep));
    var g := f + h;
    assert Collapsed(g, parts[i]) by {
      NextPartIntact(dist, sites, parts, i, f);
      NewlyCollapsed(f, parts[i], keep);
    }
    forall j | 0 <= j < i ensures Collapsed(g, parts[j]) {
      assert Apart(dist, sites, parts[j], parts[i]);
      CollapsedStays(f, parts[j], parts[i], keep);
    }
    forall x | x in g ensures MovesWithin(g, parts, i + 1, x) {
      if x !in h {
        assert MovesWithin(f, parts, i, x);
      }
    }
    assert (if parts[i][0] == keep then parts[i][1] else parts[i][0]) in h by {
      assert Distinct(parts[i]);
    }
  }

  lemma NewlyCollapsed(f: Redirect, part: seq<string>, keep: string)
    requires keep in part && keep !in f
    ensures Collapsed(f + Folding(keep, Others(part, keep)), part)
  {
    assert CollapsedTo(f + Folding(keep, Others(part, keep)), part, keep);
  }

  /** The state of the books after one more cluster has been collapsed onto `keep`. */
  lemma OneMoreFolded(dist: Distance, sites: map<string, Site>, parts: seq<seq<string>>, i: nat, f: Redirect, keep: string,
                      t: Tables, mid: Tables, after: Tables)
    requires Parts(dist, sites, parts) && Progress(parts, i, f) && i < |parts| && |parts[i]| >= 2 && keep in parts[i]
    requires Merged(t, mid, f) && Merged(mid, after, Folding(keep, Others(parts[i], keep)))
    ensures var g := f + Folding(keep, Others(parts[i], keep));
            Merged(t, after, g) && Progress(parts, i + 1, g) && |g| == |f| + |parts[i]| - 1 && g != map[]
  {
    hide Merged, Parts, Progress, Folding, Others, Compose;
    NextPartIntact(dist, sites, parts, i, f);
    PartsHas(dist, sites, parts, i);
    MergedCompose(t, mid, after, f, Folding(keep, Others(parts[i], keep)));
    ComposeApart(f, parts[i], keep);
    ProgressStep(dist, sites, parts, i, f, keep);
    OthersCount(f, parts[i], keep);
  }

  lemma SameSurvivor(dist: Distance, sites: map<string, Site>, parts: seq<seq<string>>, scope: seq<string>, f: Redirect,
                     x: string, y: string)
    requires Symmetric(dist) && Known(sites, scope) && Parts(dist, sites, parts) && Progress(parts, |parts|, f)
    requires forall z :: InParts(parts, z) <==> z in scope && Addressed(sites[z])
    requires x in scope && y in scope && LikelyDuplicate(dist, sites, x, y)
    ensures Dest(f, x) == Dest(f, y)
  {
    DuplicatesShareCluster(dist, sites, parts, scope, x, y);
    var i :| 0 <= i < |parts| && x in parts[i] && y in parts[i];
    assert Collapsed(f, parts[i]);
  }

  lemma {:induction false} ChainSurvivor(dist: Distance, sites: map<string, Site>, parts: seq<seq<string>>, scope: seq<string>,
                                         f: Redirect, path: seq<string>)
    requires Symmetric(dist) && Known(sites, scope) && Parts(dist, sites, parts) && Progress(parts, |parts|, f)
    requires forall z :: InParts(parts, z) <==> z in scope && Addressed(sites[z])
    requires Chain(dist, sites, path) && forall z | z in path :: z in scope
    ensures Dest(f, path[0]) == Dest(f, path[|path| - 1])
    decreases |path|
  {
    if |path| > 1 {
      SameSurvivor(dist, sites, parts, scope, f, path[0], path[1]);
      TailChain(dist, sites, path);
      hide Grown, Distinct, LikelyDuplicate, Parts, Progress;
      ChainSurvivor(dist, sites, parts, scope, f, path[1..]);
    }
  }

  lemma TailChain(dist: Distance, sites: map<string, Site>, path: seq<string>)
    requires Chain(dist, sites, path) && |path| > 1
    ensures Chain(dist, sites, path[1..])
  {
  }

  /** No two rows of the scope that still exist are likely duplicates. */
  ghost predicate NoDuplicates(dist: Distance, sites: map<string, Site>, scope: seq<string>) {
    forall x, y | x in scope && y in scope && x in sites && y in sites :: !LikelyDuplicate(dist, sites, x, y)
  }

  /** Each removed row is linked to its survivor by a chain of likely-duplicate pairs within the scope, and
      any two rows so linked share one survivor. */
  ghost predicate ByChains(dist: Distance, sites: map<string, Site>, scope: seq<string>, f: Redirect) {
    && (forall x | x in f :: x in scope && f[x] in scope && f[x] !in f && Linked(dist, sites, scope, x, f[x]))
    && (forall x, y | x in scope && y in scope && Linked(dist, sites, scope, x, y) :: Dest(f, x) == Dest(f, y))
  }

  // ---- What that means for two rows ----------------------------------------------------------------------

  /** No two rows of the scope can be one property: at the same address they name different units or
      contradictory directions, or lie more than 500 feet apart. */
  ghost predicate AllSetApart(dist: Distance, sites: map<string, Site>, scope: seq<string>) {
    forall x, y | x in scope && y in scope && x in sites && y in sites && x != y && SameAddress(sites[x], sites[y]) ::
      OtherUnits(sites[x], sites[y]) || OtherDirections(sites[x], sites[y]) || !Near(dist, sites[x], sites[y], 500.0)
  }

  /** Plainly one property: same address, unit and directions, or one row without a unit or directions, and near. */
  predicate PlainlyOne(dist: Distance, a: Site, b: Site) {
    && SameAddress(a, b) && (a.unit == b.unit || a.unit == "" || b.unit == "")
    && ((a.fp.directionals == b.fp.directionals && Near(dist, a, b, 500.0))
        || (OneNamesDirections(a, b) && Near(dist, a, b, 250.0)))
  }

  /** Rows that are plainly one share a survivor. */
  ghost predicate AllPlainOnesMeet(dist: Distance, sites: map<string, Site>, scope: seq<string>, f: Redirect) {
    forall x, y | x in scope && y in scope && x in sites && y in sites && PlainlyOne(dist, sites[x], sites[y]) ::
      Dest(f, x) == Dest(f, y)
  }

  /** A scope of two rows is left alone exactly if they are not plainly one. */
  ghost predicate PairIsDecided(dist: Distance, sites: map<string, Site>, scope: seq<string>, leftAlone: bool) {
    |scope| == 2 && scope[0] in sites && scope[1] in sites ==>
      (leftAlone <==> !PlainlyOne(dist, sites[scope[0]], sites[scope[1]]))
  }

  lemma SetApartHasNone(dist: Distance, sites: map<string, Site>, scope: seq<string>)
    requires AllSetApart(dist, sites, scope)
    ensures NoDuplicates(dist, sites, scope)
  {
    forall x, y | x in scope && y in scope && x in sites && y in sites ensures !LikelyDuplicate(dist, sites, x, y) {
      DuplicateExactly(dist, sites, x, y);
    }
  }

  /** Rows that are plainly one end up in one survivor. */
  lemma PlainlyOneMeet(dist: Distance, sites: map<string, Site>, scope: seq<string>, f: Redirect, x: string, y: string)
    requires Known(sites, scope) && ByChains(dist, sites, scope, f) && x in scope && y in scope
    requires PlainlyOne(dist, sites[x], sites[y])
    ensures Dest(f, x) == Dest(f, y)
  {
    if x != y {
      DuplicateExactly(dist, sites, x, y);
      assert Chain(dist, sites, [x, y]);
      assert Linked(dist, sites, scope, x, y);
    }
  }

  /** Units are compared pair by pair only: rows of two different units are folded into one when a row without a
      unit lies near both. */
  lemma BlankUnitJoins(dist: Distance, sites: map<string, Site>, scope: seq<string>, f: Redirect, x: string, y: string, z: string)
    requires Known(sites, scope) && ByChains(dist, sites, scope, f) && x in scope && y in scope && z in scope
    requires OtherUnits(sites[x], sites[z]) && sites[y].unit == ""
    requires PlainlyOne(dist, sites[x], sites[y]) && PlainlyOne(dist, sites[y], sites[z])
    ensures !LikelyDuplicate(dist, sites, x, z) && Dest(f, x) == Dest(f, z)
  {
    PlainlyOneMeet(dist, sites, scope, f, x, y);
    PlainlyOneMeet(dist, sites, scope, f, y, z);
  }

  /** A scope of two rows. */
  lemma PairDecided(dist: Distance, sites: map<string, Site>, x: string, y: string)
    requires Symmetric(dist) && x in sites && y in sites && x != y
    ensures NoDuplicates(dist, sites, [x, y]) <==> !PlainlyOne(dist, sites[x], sites[y])
  {
    DuplicateExactly(dist, sites, x, y);
    DuplicateSymmetric(dist, sites, x, y);
    DuplicateExactly(dist, sites, x, x);
    DuplicateExactly(dist, sites, y, y);
  }

  lemma MovedAreLinked(dist: Distance, sites: map<string, Site>, parts: seq<seq<string>>, scope: seq<string>, f: Redirect, x: string)
    requires Symmetric(dist) && Known(sites, scope) && Parts(dist, sites, parts) && Progress(parts, |parts|, f) && x in f
    requires forall z :: InParts(parts, z) <==> z in scope && Addressed(sites[z])
    ensures x in scope && f[x] in scope && f[x] !in f && Linked(dist, sites, scope, x, f[x])
  {
    assert MovesWithin(f, parts, |parts|, x);
    var j :| 0 <= j < |parts| && x in parts[j] && f[x] in parts[j];
    var c := parts[j];
    assert Grown(dist, sites, c) && Collapsed(f, c);
    ComponentLinked(dist, sites, c, x, f[x]);
    assert forall z | z in c :: InParts(parts, z);
    var path :| Chain(dist, sites, path) && path[0] == x && path[|path| - 1] == f[x] && forall z | z in path :: z in c;
    assert forall z | z in path :: z in scope;
  }

  lemma SecondMember(dist: Distance, sites: map<string, Site>, c: seq<string>)
    requires Grown(dist, sites, c) && |c| >= 2
    ensures LikelyDuplicate(dist, sites, c[1], c[0])
  {
  }

  lemma AnyMoveMeansDuplicates(dist: Distance, sites: map<string, Site>, parts: seq<seq<string>>, scope: seq<string>, f: Redirect)
    returns (x: string, y: string)
    requires Known(sites, scope) && Parts(dist, sites, parts) && Progress(parts, |parts|, f) && f != map[]
    requires forall z :: InParts(parts, z) <==> z in scope && Addressed(sites[z])
    ensures x in scope && y in scope && LikelyDuplicate(dist, sites, x, y)
  {
    hide Grown, LikelyDuplicate, Apart, Distinct, Collapsed, Addressed;
    var j :| 0 <= j < |parts| && |parts[j]| >= 2;
    x, y := parts[j][1], parts[j][0];
    SecondMember(dist, sites, parts[j]);
    assert InParts(parts, x) && InParts(parts, y);
  }

  lemma Finished(dist: Distance, sites: map<string, Site>, left: map<string, Site>, parts: seq<seq<string>>,
                 scope: seq<string>, f: Redirect)
    requires Symmetric(dist) && Known(sites, scope) && Parts(dist, sites, parts) && Progress(parts, |parts|, f)
    requires forall z :: InParts(parts, z) <==> z in scope && Addressed(sites[z])
    requires left.Keys == sites.Keys - f.Keys && forall x | x in left :: left[x] == sites[x]
    ensures ByChains(dist, sites, scope, f) && NoDuplicates(dist, left, scope)
    ensures f == map[] <==> NoDuplicates(dist, sites, scope)
  {
    hide Grown, Distinct, Parts, Progress;
    forall x | x in f ensures x in scope && f[x] in scope && f[x] !in f && Linked(dist, sites, scope, x, f[x]) {
      MovedAreLinked(dist, sites, parts, scope, f, x);
    }
    forall x, y | x in scope && y in scope && Linked(dist, sites, scope, x, y) ensures Dest(f, x) == Dest(f, y) {
      var path :| Chain(dist, sites, path) && path[0] == x && path[|path| - 1] == y && forall z | z in path :: z in scope;
      ChainSurvivor(dist, sites, parts, scope, f, path);
    }
    forall x, y | x in scope && y in scope && x in left && y in left ensures !LikelyDuplicate(dist, left, x, y) {
      if LikelyDuplicate(dist, left, x, y) {
        assert LikelyDuplicate(dist, sites, x, y);
        SameSurvivor(dist, sites, parts, scope, f, x, y);
      }
    }
    if f != map[] {
      var x, y := AnyMoveMeansDuplicates(dist, sites, parts, scope, f);
    }
  }

  lemma LonelyScope(dist: Distance, sites: map<string, Site>, scope: seq<string>)
    requires |scope| < 2
    ensures ByChains(dist, sites, scope, map[]) && NoDuplicates(dist, sites, scope)
  {
  }

  /** Half way through moving the rows of `d` to `c`: `todo` are the ones still at `d`. */
  ghost predicate Moving<K>(was: map<string, Held<K>>, now: map<string, Held<K>>, c: string, d: string, todo: set<string>) {
    c != d && TodoIs(now, d, todo) && Placed(was, now, c, d, todo) && Untouched(was, now, d, todo)
    && Covered(was, now, c, d, todo)
  }

  ghost predicate TodoIs<K>(now: map<string, Held<K>>, d: string, todo: set<string>) {
    forall i :: i in todo <==> i in now && now[i].property == d
  }

  ghost predicate Placed<K>(was: map<string, Held<K>>, now: map<string, Held<K>>, c: string, d: string, todo: set<string>) {
    forall i | i in now ::
      i in was && now[i] == Held(if was[i].property == d && i !in todo then c else was[i].property, was[i].key)
  }

  ghost predicate Untouched<K>(was: map<string, Held<K>>, now: map<string, Held<K>>, d: string, todo: set<string>) {
    forall i | i in was && (was[i].property != d || i in todo) :: i in now
  }

  ghost predicate Covered<K>(was: map<string, Held<K>>, now: map<string, Held<K>>, c: string, d: string, todo: set<string>) {
    forall i | i in was && i !in todo :: Represented(now, if was[i].property == d then c else was[i].property, was[i].key)
  }

  lemma MovingStarts<K>(was: map<string, Held<K>>, c: string, d: string)
    requires c != d
    ensures Moving(was, was, c, d, set i | i in was && was[i].property == d)
  {
  }

  lemma MovingEnds<K>(was: map<string, Held<K>>, now: map<string, Held<K>>, c: string, d: string)
    requires Moving(was, now, c, d, {})
    ensures HeldFollow(was, now, map[d := c])
  {
    hide Represented;
  }

  lemma TodoHere<K>(was: map<string, Held<K>>, now: map<string, Held<K>>, c: string, d: string, todo: set<string>, i: string)
    requires Moving(was, now, c, d, todo) && i in todo
    ensures i in now && now[i].property == d && c != d
  {
  }

  lemma DropStep<K(!new)>(was: map<string, Held<K>>, now: map<string, Held<K>>, c: string, d: string, todo: set<string>, i: string)
    requires Moving(was, now, c, d, todo) && i in todo && now[i].key in KeysAt(now, c)
    ensures Moving(was, now - {i}, c, d, todo - {i})
  {
  }

  lemma DropKeys<K>(now: map<string, Held<K>>, c: string, i: string)
    requires i in now && now[i].property != c
    ensures KeysAt(now - {i}, c) == KeysAt(now, c)
  {
    forall key | key in KeysAt(now, c) ensures key in KeysAt(now - {i}, c) {
      var m :| m in now && now[m].property == c && now[m].key == key;
      assert m in now - {i} && (now - {i})[m] == now[m];
    }
  }

  lemma MoveStep<K(!new)>(was: map<string, Held<K>>, now: map<string, Held<K>>, c: string, d: string, todo: set<string>, i: string)
    requires Moving(was, now, c, d, todo) && i in todo
    ensures Moving(was, now[i := Held(c, now[i].key)], c, d, todo - {i})
  {
    var next := now[i := Held(c, now[i].key)];
    assert TodoIs(next, d, todo - {i}) by { hide Placed, Untouched, Covered; }
    assert Placed(was, next, c, d, todo - {i}) by { hide Untouched, Covered; }
    assert Untouched(was, next, d, todo - {i}) by { hide Placed, Covered; }
    hide TodoIs, Placed, Untouched;
  }

  lemma MoveKeys<K>(now: map<string, Held<K>>, c: string, i: string)
    requires i in now && now[i].property != c
    ensures KeysAt(now[i := Held(c, now[i].key)], c) == KeysAt(now, c) + {now[i].key}
  {
    var next := now[i := Held(c, now[i].key)];
    forall key | key in KeysAt(now, c) ensures key in KeysAt(next, c) {
      var m :| m in now && now[m].property == c && now[m].key == key;
      assert m in next && next[m] == now[m];
    }
    assert next[i].key == now[i].key && next[i].property == c;
  }

  class PropertyStore {
    var rows: map<string, Row>
    var contacts: map<string, Held<ContactKey>>
    var links: map<string, Held<string>>
    var dependents: map<string, Dependent>

    constructor (t: Tables)
      ensures Model() == t
    {
      rows, contacts, links, dependents := t.rows, t.contacts, t.links, t.dependents;
    }

    function Model(): Tables
      reads this
    {
      Tables(rows, contacts, links, dependents)
    }

    /** Moves the duplicate's contacts over, dropping those whose key the canonical row already has. */
    method MergeContacts(c: string, d: string)
      requires c != d
      modifies this`contacts
      ensures HeldFollow(old(contacts), contacts, map[d := c])
    {
      var todo := set i | i in contacts && contacts[i].property == d;
      var keys := KeysAt(contacts, c);
      MovingStarts(contacts, c, d);
      while todo != {}
        invariant Moving(old(contacts), contacts, c, d, todo) && keys == KeysAt(contacts, c)
        decreases todo
      {
        hide Moving, KeysAt;
        var i :| i in todo;
        TodoHere(old(contacts), contacts, c, d, todo, i);
        var key := contacts[i].key;
        if key in keys {
          DropStep(old(contacts), contacts, c, d, todo, i);
          DropKeys(contacts, c, i);
          contacts := contacts - {i};
        } else {
          MoveStep(old(contacts), contacts, c, d, todo, i);
          MoveKeys(contacts, c, i);
          contacts := contacts[i := Held(c, key)];
          keys := keys + {key};
        }
        todo := todo - {i};
      }
      MovingEnds(old(contacts), contacts, c, d);
    }

    /** The same for customer links, by customer. */
    method MergeCustomerProperties(c: string, d: string)
      requires c != d
      modifies this`links
      ensures HeldFollow(old(links), links, map[d := c])
    {
      var todo := set i | i in links && links[i].property == d;
      var customers := KeysAt(links, c);
      MovingStarts(links, c, d);
      while todo != {}
        invariant Moving(old(links), links, c, d, todo) && customers == KeysAt(links, c)
        decreases todo
      {
        hide Moving, KeysAt;
        var i :| i in todo;
        TodoHere(old(links), links, c, d, todo, i);
        var key := links[i].key;
        if key in customers {
          DropStep(old(links), links, c, d, todo, i);
          DropKeys(links, c, i);
          links := links - {i};
        } else {
          MoveStep(old(links), links, c, d, todo, i);
          MoveKeys(links, c, i);
          links := links[i := Held(c, key)];
          customers := customers + {key};
        }
        todo := todo - {i};
      }
      MovingEnds(old(links), links, c, d);
    }

    /** Folds one duplicate into the canonical row and deletes it. */
    method MergeProperty(c: string, d: string)
      requires c in rows && d in rows && c != d
      modifies this
      ensures Merged(old(Model()), Model(), map[d := c])
    {
      hide HeldFollow, RowsFollow, MergedNotes;
      MergeContacts(c, d);
      MergeCustomerProperties(c, d);
      dependents := map i | i in dependents ::
        if dependents[i].property == Some(d) then dependents[i].(property := Some(c)) else dependents[i];
      assert dependents == Redirected(old(dependents), map[d := c]);
      var keep, gone := rows[c], rows[d];
      keep := keep.(doNotKnock := keep.doNotKnock || gone.doNotKnock);
      if keep.reason == "" && gone.reason != "" {
        keep := keep.(reason := gone.reason);
      }
      keep := keep.(attrs := gone.attrs + keep.attrs, notes := MergedNotes(keep.notes, gone.notes));
      rows := rows[c := keep] - {d};
      RowsMerged(old(rows), rows, c, d);
      hide Redirected;
    }

    lemma RowMerged(before: map<string, Row>, after: map<string, Row>, c: string, d: string, p: string)
      requires c in before && d in before && c != d && c in after
      requires p in before && p in after && p != d && (p != c ==> after[p] == before[p])
      requires TwoInOne(before[c], before[d], after[c])
      ensures RowFollows(before, after, map[d := c], p)
    {
      var f: Redirect := map[d := c];
      assert forall q :: Stays(f, before, q, p) <==> q == p || (p == c && q == d);
      hide Stays, FlagsFollow, AttrsFollow, ReasonFollows, NotesFollow, TwoInOne;
      if p == c {
        TwoFolded(before, after[c], f, c, d);
      } else {
        AloneFollows(before, after[p], f, p);
      }
    }

    lemma RowsMerged(before: map<string, Row>, after: map<string, Row>, c: string, d: string)
      requires c in before && d in before && c != d && after.Keys == before.Keys - {d}
      requires forall p | p in after && p != c :: after[p] == before[p]
      requires TwoInOne(before[c], before[d], after[c])
      ensures RowsFollow(before, after, map[d := c])
    {
      hide RowFollows, TwoInOne;
      forall p | p in after ensures RowFollows(before, after, map[d := c], p) {
        RowMerged(before, after, c, d, p);
      }
    }

    predicate TwoInOne(keep: Row, gone: Row, row: Row) {
      && row.site == keep.site && row.created == keep.created && row.mapboxResolved == keep.mapboxResolved
      && row.doNotKnock == (keep.doNotKnock || gone.doNotKnock)
      && row.notes == MergedNotes(keep.notes, gone.notes)
      && row.attrs == gone.attrs + keep.attrs
      && row.reason == if keep.reason == "" then gone.reason else keep.reason
    }

    lemma TwoFolded(before: map<string, Row>, row: Row, f: Redirect, c: string, d: string)
      requires c in before && d in before && forall q :: Stays(f, before, q, c) <==> q == c || q == d
      requires TwoInOne(before[c], before[d], row)
      ensures row.site == before[c].site && row.created == before[c].created
      ensures row.mapboxResolved == before[c].mapboxResolved
      ensures FlagsFollow(before, row, f, c) && AttrsFollow(before, row, f, c)
      ensures ReasonFollows(before, row, f, c) && NotesFollow(before, row, f, c)
    {
      hide Stays, FlagsFollow, AttrsFollow, ReasonFollows, NotesFollow, MergedNotes;
      TwoFlags(before, row, f, c, d);
      TwoAttrs(before, row, f, c, d);
      TwoReasons(before, row, f, c, d);
      TwoNotes(before, row, f, c, d);
    }

    lemma TwoFlags(before: map<string, Row>, row: Row, f: Redirect, c: string, d: string)
      requires c in before && d in before && forall q :: Stays(f, before, q, c) <==> q == c || q == d
      requires row.doNotKnock == (before[c].doNotKnock || before[d].doNotKnock)
      ensures FlagsFollow(before, row, f, c)
    {
      hide Stays;
      assert Stays(f, before, c, c) && Stays(f, before, d, c);
    }

    lemma TwoReasons(before: map<string, Row>, row: Row, f: Redirect, c: string, d: string)
      requires c in before && d in before && forall q :: Stays(f, before, q, c) <==> q == c || q == d
      requires row.reason == if before[c].reason == "" then before[d].reason else before[c].reason
      ensures ReasonFollows(before, row, f, c)
    {
      hide Stays;
      assert Stays(f, before, c, c) && Stays(f, before, d, c);
    }

    lemma TwoNotes(before: map<string, Row>, row: Row, f: Redirect, c: string, d: string)
      requires c in before && d in before && forall q :: Stays(f, before, q, c) <==> q == c || q == d
      requires row.notes == MergedNotes(before[c].notes, before[d].notes)
      ensures NotesFollow(before, row, f, c)
    {
      hide Stays, Keeps, MergedNotes, NotesFollow;
      MergeKeepsBoth(before[c].notes, before[d].notes);
      assert Noted(row) <==> Noted(before[c]) || Noted(before[d]);
      hide Noted;
      EitherNote(before, row, f, c, d);
    }

    lemma EitherNote(before: map<string, Row>, row: Row, f: Redirect, c: string, d: string)
      requires c in before && d in before && forall q :: Stays(f, before, q, c) <==> q == c || q == d
      requires Noted(row) <==> Noted(before[c]) || Noted(before[d])
      requires Keeps(row.notes, before[c].notes) && Keeps(row.notes, before[d].notes)
      ensures NotesFollow(before, row, f, c)
    {
      hide Stays, Noted, Keeps;
      assert Stays(f, before, c, c) && Stays(f, before, d, c);
    }

    lemma TwoAttrs(before: map<string, Row>, row: Row, f: Redirect, c: string, d: string)
      requires c in before && d in before && forall q :: Stays(f, before, q, c) <==> q == c || q == d
      requires row.attrs == before[d].attrs + before[c].attrs
      ensures AttrsFollow(before, row, f, c)
    {
      hide Stays;
      assert Stays(f, before, c, c) && Stays(f, before, d, c);
    }

    /** Scores the members of a cluster and sorts them, best first. */
    method SortCluster(part: seq<string>) returns (scored: seq<Scored>)
      requires Distinct(part) && forall x | x in part :: x in rows
      ensures Descending(scored) && |scored| == |part|
      ensures forall i | 0 <= i < |scored| :: scored[i].id in part && scored[i].score == ScoreOf(Model(), scored[i].id)
      ensures forall x | x in part :: exists i | 0 <= i < |scored| :: scored[i].id == x
      ensures forall i, j | 0 <= i < j < |scored| :: scored[i].id != scored[j].id
    {
      scored := [];
      for i := 0 to |part|
        invariant Descending(scored)
        invariant multiset(scored) == multiset(Scoreds(Model(), part[..i]))
      {
        hide ScoreOf, Descending, Scoreds;
        ScoredsMore(Model(), part, i);
        scored := InsertScored(scored, Scored(ScoreOf(Model(), part[i]), part[i]));
      }
      hide ScoreOf, Descending, Scoreds;
      assert part[..|part|] == part;
      SortedNames(Model(), part, scored);
    }

    /** Keeps the best-scored row of a cluster and folds the others into it, best first. */
    method Collapse(part: seq<string>) returns (keep: string)
      requires Distinct(part) && part != [] && forall x | x in part :: x in rows
      modifies this
      ensures keep in part
      ensures forall x | x in part :: AtLeast(ScoreOf(old(Model()), keep), ScoreOf(old(Model()), x))
      ensures Merged(old(Model()), Model(), Folding(keep, Others(part, keep)))
    {
      hide Merged;
      ghost var t := Model();
      var scored := SortCluster(part);
      keep := scored[0].id;
      FirstIsBest(t, part, scored);
      hide ScoreOf, AtLeast, Descending;
      ghost var gone: set<string> := {};
      assert Folding(keep, gone) == map[];
      MergedNothing(t);
      for j := 1 to |scored|
        invariant gone == NamesBetween(scored, 1, j)
        invariant Merged(t, Model(), Folding(keep, gone))
      {
        hide Folding;
        var d := scored[j].id;
        ghost var mid := Model();
        NextName(scored, j);
        hide NamesBetween;
        RowsLeft(t, mid, Folding(keep, gone));
        MergeProperty(keep, d);
        FoldStep(t, mid, Model(), keep, gone, d);
        gone := gone + {d};
      }
      NamesAreOthers(part, scored);
    }

    /** Folds every cluster of two or more rows. */
    method FoldClusters(ghost dist: Distance, ghost sites: map<string, Site>, parts: seq<seq<string>>)
      returns (merged: nat, ghost f: Redirect)
      requires Parts(dist, sites, parts) && forall x | InParts(parts, x) :: x in rows
      modifies this
      ensures Merged(old(Model()), Model(), f) && merged == |f| && Progress(parts, |parts|, f)
      ensures f == map[] ==> Model() == old(Model())
    {
      hide Merged, Parts, Progress, Folding, Others;
      ghost var t := Model();
      merged, f := 0, map[];
      MergedNothing(t);
      ProgressStart(parts);
      for i := 0 to |parts|
        invariant Merged(t, Model(), f) && merged == |f| && Progress(parts, i, f)
        invariant f == map[] ==> Model() == t
      {
        NextPartIntact(dist, sites, parts, i, f);
        PartsHas(dist, sites, parts, i);
        if |parts[i]| >= 2 {
          ghost var mid := Model();
          RowsLeft(t, mid, f);
          assert forall x | x in parts[i] :: InParts(parts, x);
          var keep := Collapse(parts[i]);
          OneMoreFolded(dist, sites, parts, i, f, keep, t, mid, Model());
          f := f + Folding(keep, Others(parts[i], keep));
          merged := merged + (|parts[i]| - 1);
        } else {
          ProgressSkip(parts, i, f);
        }
      }
    }

    /** One cleanup run over a scope of rows. Afterwards no two rows left in the scope are likely duplicates;
        every removed row was linked to its survivor by a chain of likely-duplicate pairs, and rows so linked
        share one survivor; nothing tracked is lost; a scope without duplicates is left as it was. */
    method Cleanup(dist: Distance, scope: seq<string>) returns (merged: nat, ghost f: Redirect)
      requires Symmetric(dist) && Distinct(scope) && forall x | x in scope :: x in rows
      modifies this
      ensures Merged(old(Model()), Model(), f) && merged == |f|
      ensures ByChains(dist, Sites(old(rows)), scope, f)
      ensures NoDuplicates(dist, Sites(rows), scope)
      ensures merged == 0 <==> NoDuplicates(dist, Sites(old(rows)), scope)
      ensures merged == 0 ==> Model() == old(Model())
      ensures AllSetApart(dist, Sites(old(rows)), scope) ==> merged == 0
      ensures AllPlainOnesMeet(dist, Sites(old(rows)), scope, f)
      ensures PairIsDecided(dist, Sites(old(rows)), scope, merged == 0)
    {
      hide Merged, Parts, Progress, ByChains, NoDuplicates, AllSetApart, AllPlainOnesMeet, PairIsDecided;
      ghost var t := Model();
      ghost var sites := Sites(rows);
      if |scope| < 2 {
        merged, f := 0, map[];
        MergedNothing(t);
        LonelyScope(dist, sites, scope);
        InTermsOfRows(dist, sites, scope, f);
        return;
      }
      var parts := Clusters(dist, Sites(rows), scope);
      merged, f := FoldClusters(dist, sites, parts);
      RowsLeft(t, Model(), f);
      Finished(dist, sites, Sites(rows), parts, scope, f);
      InTermsOfRows(dist, sites, scope, f);
    }

    lemma InTermsOfRows(dist: Distance, sites: map<string, Site>, scope: seq<string>, f: Redirect)
      requires Symmetric(dist) && Distinct(scope) && Known(sites, scope) && ByChains(dist, sites, scope, f)
      ensures AllSetApart(dist, sites, scope) ==> NoDuplicates(dist, sites, scope)
      ensures AllPlainOnesMeet(dist, sites, scope, f)
      ensures PairIsDecided(dist, sites, scope, NoDuplicates(dist, sites, scope))
    {
      hide ByChains, NoDuplicates, AllSetApart, PlainlyOne;
      if AllSetApart(dist, sites, scope) {
        SetApartHasNone(dist, sites, scope);
      }
      forall x, y | x in scope && y in scope && PlainlyOne(dist, sites[x], sites[y]) ensures Dest(f, x) == Dest(f, y) {
        PlainlyOneMeet(dist, sites, scope, f, x, y);
      }
      if |scope| == 2 {
        assert scope == [scope[0], scope[1]];
        PairDecided(dist, sites, scope[0], scope[1]);
      }
    }

    /** A second run over what is left of the scope finds nothing to merge and changes nothing. */
    method CleanupTwice(dist: Distance, scope: seq<string>) returns (first: nat, second: nat, ghost between: Tables)
      requires Symmetric(dist) && Distinct(scope) && forall x | x in scope :: x in rows
      modifies this
      ensures second == 0 && Model() == between
      ensures exists f :: Merged(old(Model()), between, f) && first == |f|
    {
      hide Merged, ByChains, AllSetApart, AllPlainOnesMeet, PairIsDecided;
      ghost var f, g;
      first, f := Cleanup(dist, scope);
      between := Model();
      var left := [];
      for i := 0 to |scope|
        invariant Distinct(left) && forall x :: x in left <==> x in scope[..i] && x in rows
      {
        assert scope[..i + 1] == scope[..i] + [scope[i]] && scope[i] !in scope[..i];
        if scope[i] in rows {
          left := left + [scope[i]];
        }
      }
      assert NoDuplicates(dist, Sites(rows), left);
      second, g := Cleanup(dist, left);
    }
  }
}
