/** Which RentCast rows describe one physical property: the duplicate relation, address buckets, and the
    connected components the cleanup folds together. Distance is any symmetric function of two points. */
module DuplicateClusters {
  import opened Wrappers

  const EXACT_STREET_MAX_FEET := 500.0
  const MISSING_DIRECTIONAL_MAX_FEET := 250.0

  datatype Point = Point(latitude: real, longitude: real)

  type Distance = (Point, Point) -> real

  ghost predicate Symmetric(dist: Distance) {
    forall p, q :: dist(p, q) == dist(q, p)
  }

  datatype Fingerprint = Fingerprint(house: string, streetCore: string, directionals: set<string>,
                                     city: string, state: string, zip: string)

  /** What the duplicate decision looks at. `unit` is the cleaned second address line, "" when blank. */
  datatype Site = Site(territory: Option<string>, unit: string, fp: Fingerprint, location: Option<Point>)

  datatype Bucket = Bucket(territory: Option<string>, house: string, streetCore: string, city: string,
                           state: string, zip: string)

  predicate SameUnit(a: Site, b: Site) {
    !(a.unit != "" && b.unit != "" && a.unit != b.unit)
  }

  predicate Addressed(a: Site) {
    a.fp.house != "" && a.fp.streetCore != ""
  }

  function BucketOf(a: Site): Bucket {
    Bucket(a.territory, a.fp.house, a.fp.streetCore, a.fp.city, a.fp.state, a.fp.zip)
  }

  predicate LikelyDuplicate(dist: Distance, sites: map<string, Site>, x: string, y: string)
    requires x in sites && y in sites
  {
    var a, b := sites[x], sites[y];
    if x == y || a.territory != b.territory || !SameUnit(a, b) then false
    else if !Addressed(a) then false
    else if BucketOf(a) != BucketOf(b) then false
    else if a.fp.directionals != {} && b.fp.directionals != {} && a.fp.directionals != b.fp.directionals then false
    else if a.location.None? || b.location.None? then false
    else
      var limit := if a.fp.directionals == b.fp.directionals then EXACT_STREET_MAX_FEET
                   else MISSING_DIRECTIONAL_MAX_FEET;
      dist(a.location.value, b.location.value) <= limit
  }

  lemma DuplicateSymmetric(dist: Distance, sites: map<string, Site>, x: string, y: string)
    requires Symmetric(dist) && x in sites && y in sites
    ensures LikelyDuplicate(dist, sites, x, y) == LikelyDuplicate(dist, sites, y, x)
  {
  }

  // ---- The decision in terms of the two rows -----------------------------------------------------------

  predicate SameAddress(a: Site, b: Site) {
    && a.territory == b.territory && a.fp.house == b.fp.house && a.fp.streetCore == b.fp.streetCore
    && a.fp.city == b.fp.city && a.fp.state == b.fp.state && a.fp.zip == b.fp.zip
    && a.fp.house != "" && a.fp.streetCore != ""
  }

  predicate OtherUnits(a: Site, b: Site) {
    a.unit != "" && b.unit != "" && a.unit != b.unit
  }

  predicate OtherDirections(a: Site, b: Site) {
    a.fp.directionals != {} && b.fp.directionals != {} && a.fp.directionals != b.fp.directionals
  }

  /** Exactly one of the two rows names directions. */
  predicate OneNamesDirections(a: Site, b: Site) {
    (a.fp.directionals == {}) != (b.fp.directionals == {})
  }

  predicate Near(dist: Distance, a: Site, b: Site, feet: real) {
    a.location.Some? && b.location.Some? && dist(a.location.value, b.location.value) <= feet
  }

  /** Two rows are likely duplicates exactly if they are at one address, name no different units, and lie within
      500 feet of each other, or within 250 if only one of them names directions; never if those contradict. */
  lemma DuplicateExactly(dist: Distance, sites: map<string, Site>, x: string, y: string)
    requires x in sites && y in sites
    ensures LikelyDuplicate(dist, sites, x, y) <==>
            var a, b := sites[x], sites[y];
            && x != y && SameAddress(a, b) && !OtherUnits(a, b) && !OtherDirections(a, b)
            && Near(dist, a, b, if OneNamesDirections(a, b) then 250.0 else 500.0)
  {
  }

  function Along(p: Point, q: Point): real {
    if p.longitude < q.longitude then q.longitude - p.longitude else p.longitude - q.longitude
  }

  /** The relation is not transitive: three pins 400 feet apart on one street. */
  lemma DuplicateNotTransitive() returns (sites: map<string, Site>)
    ensures Symmetric(Along) && sites.Keys == {"a", "b", "c"}
    ensures LikelyDuplicate(Along, sites, "a", "b") && LikelyDuplicate(Along, sites, "b", "c")
    ensures !LikelyDuplicate(Along, sites, "a", "c")
  {
    var fp := Fingerprint("1778", "ruby dr", {}, "mesa", "az", "85204");
    var s := Site(None, "", fp, Some(Point(0.0, 0.0)));
    sites := map["a" := s,
                 "b" := s.(location := Some(Point(0.0, 400.0))),
                 "c" := s.(location := Some(Point(0.0, 800.0)))];
  }

  // ---- Chains of duplicates -----------------------------------------------------------------------

  ghost predicate Known(sites: map<string, Site>, ids: seq<string>) {
    forall x | x in ids :: x in sites
  }

  predicate Distinct(ids: seq<string>) {
    forall i, j | 0 <= i < j < |ids| :: ids[i] != ids[j]
  }

  ghost predicate Chain(dist: Distance, sites: map<string, Site>, path: seq<string>) {
    && path != [] && Known(sites, path)
    && forall i | 0 <= i < |path| - 1 :: LikelyDuplicate(dist, sites, path[i], path[i + 1])
  }

  /** A chain of likely-duplicate pairs inside `within` leads from `x` to `y`. */
  ghost predicate Linked(dist: Distance, sites: map<string, Site>, within: seq<string>, x: string, y: string) {
    exists path :: Chain(dist, sites, path) && path[0] == x && path[|path| - 1] == y
                   && forall z | z in path :: z in within
  }

  predicate AnyDuplicate(dist: Distance, sites: map<string, Site>, x: string, component: seq<string>)
    requires x in sites && Known(sites, component)
  {
    exists i | 0 <= i < |component| :: LikelyDuplicate(dist, sites, x, component[i])
  }

  /** Every member after the first joined because of an earlier one. */
  ghost predicate Grown(dist: Distance, sites: map<string, Site>, component: seq<string>) {
    && component != [] && Known(sites, component)
    && forall k | 1 <= k < |component| :: AnyDuplicate(dist, sites, component[k], component[..k])
  }

  lemma {:induction false} ChainToSeed(dist: Distance, sites: map<string, Site>, c: seq<string>, k: nat)
    returns (path: seq<string>)
    requires Grown(dist, sites, c) && k < |c|
    ensures Chain(dist, sites, path) && path[0] == c[k] && path[|path| - 1] == c[0]
    ensures forall z | z in path :: z in c
    decreases k
  {
    if k == 0 {
      path := [c[0]];
    } else {
      assert AnyDuplicate(dist, sites, c[k], c[..k]);
      var j :| 0 <= j < k && LikelyDuplicate(dist, sites, c[k], c[..k][j]);
      var rest := ChainToSeed(dist, sites, c, j);
      path := [c[k]] + rest;
    }
  }

  function Backwards(s: seq<string>): (r: seq<string>)
    ensures |r| == |s| && forall i | 0 <= i < |s| :: r[i] == s[|s| - 1 - i]
  {
    seq(|s|, i requires 0 <= i < |s| => s[|s| - 1 - i])
  }

  lemma ChainBack(dist: Distance, sites: map<string, Site>, path: seq<string>) returns (back: seq<string>)
    requires Symmetric(dist) && Chain(dist, sites, path)
    ensures Chain(dist, sites, back) && back[0] == path[|path| - 1] && back[|back| - 1] == path[0]
    ensures forall z | z in back :: z in path
  {
    back := Backwards(path);
    forall i | 0 <= i < |back| - 1 ensures LikelyDuplicate(dist, sites, back[i], back[i + 1]) {
      var j := |path| - 2 - i;
      assert back[i] == path[j + 1] && back[i + 1] == path[j];
      DuplicateSymmetric(dist, sites, path[j], path[j + 1]);
    }
  }

  lemma ChainJoin(dist: Distance, sites: map<string, Site>, p: seq<string>, q: seq<string>)
    requires Chain(dist, sites, p) && Chain(dist, sites, q) && p[|p| - 1] == q[0]
    ensures Chain(dist, sites, p + q[1..])
    ensures (p + q[1..])[|p + q[1..]| - 1] == q[|q| - 1]
  {
  }

  /** Any two members of a grown component are linked through it. */
  lemma ComponentLinked(dist: Distance, sites: map<string, Site>, c: seq<string>, x: string, y: string)
    requires Symmetric(dist) && Grown(dist, sites, c) && x in c && y in c
    ensures Linked(dist, sites, c, x, y)
  {
    var i :| 0 <= i < |c| && c[i] == x;
    var j :| 0 <= j < |c| && c[j] == y;
    var there := ChainToSeed(dist, sites, c, i);
    var down := ChainToSeed(dist, sites, c, j);
    var back := ChainBack(dist, sites, down);
    ChainJoin(dist, sites, there, back);
    var path := there + back[1..];
    assert path[0] == x && path[|path| - 1] == y;
    assert forall z | z in path :: z in c;
  }

  // ---- Building components --------------------------------------------------------------------------

  ghost predicate Apart(dist: Distance, sites: map<string, Site>, a: seq<string>, b: seq<string>) {
    Known(sites, a) && Known(sites, b)
    && forall x, y | x in a && y in b :: x != y && !LikelyDuplicate(dist, sites, x, y)
  }

  function Without(s: seq<string>, x: string): seq<string> {
    if s == [] then [] else if s[0] == x then s[1..] else [s[0]] + Without(s[1..], x)
  }

  lemma DistinctTail(s: seq<string>)
    requires Distinct(s) && s != []
    ensures Distinct(s[1..]) && s[0] !in s[1..]
  {
    assert forall i | 1 <= i < |s| :: s[0] != s[i];
  }

  lemma WithoutOne(s: seq<string>, x: string)
    requires Distinct(s)
    ensures Distinct(Without(s, x)) && forall y :: y in Without(s, x) <==> y in s && y != x
    ensures |Without(s, x)| == if x in s then |s| - 1 else |s|
  {
    if s != [] {
      DistinctTail(s);
      assert s == [s[0]] + s[1..];
      WithoutOne(s[1..], x);
    }
  }

  lemma GrownMore(dist: Distance, sites: map<string, Site>, component: seq<string>, x: string)
    requires Grown(dist, sites, component) && x in sites && AnyDuplicate(dist, sites, x, component)
    ensures Grown(dist, sites, component + [x])
  {
    var c := component + [x];
    forall k | 1 <= k < |c| ensures AnyDuplicate(dist, sites, c[k], c[..k]) {
      if k < |component| {
        assert c[k] == component[k] && c[..k] == component[..k];
      } else {
        assert c[k] == x && c[..k] == component;
      }
    }
  }

  lemma LaterOnesDiffer(s: seq<string>, i: nat)
    requires Distinct(s) && i < |s|
    ensures forall j | i < j < |s| :: s[j] != s[i]
  {
  }

  lemma Knows(dist: Distance, sites: map<string, Site>, component: seq<string>)
    requires Grown(dist, sites, component)
    ensures Known(sites, component)
  {
  }

  lemma DistinctMore(s: seq<string>, x: string)
    requires Distinct(s) && x !in s
    ensures Distinct(s + [x])
  {
  }

  lemma NoDuplicateOf(dist: Distance, sites: map<string, Site>, x: string, component: seq<string>)
    requires x in sites && Known(sites, component)
    ensures AnyDuplicate(dist, sites, x, component) <==> exists y | y in component :: LikelyDuplicate(dist, sites, x, y)
  {
    hide LikelyDuplicate;
  }

  /** The component and the work-list split the rows; the seed comes first. */
  ghost predicate Growing(dist: Distance, sites: map<string, Site>, all: seq<string>, component: seq<string>, rest: seq<string>) {
    && component != [] && all != [] && component[0] == all[0]
    && Grown(dist, sites, component) && Distinct(component) && Distinct(rest) && Known(sites, rest)
    && (forall x :: x in all <==> x in component || x in rest)
    && forall x | x in component :: x !in rest
  }

  lemma GrowingStarts(dist: Distance, sites: map<string, Site>, seed: string, pool: seq<string>)
    requires Known(sites, [seed] + pool) && Distinct([seed] + pool)
    ensures Growing(dist, sites, [seed] + pool, [seed], pool)
  {
    DistinctTail([seed] + pool);
    assert ([seed] + pool)[1..] == pool && ([seed] + pool)[0] == seed;
    assert forall x | x in pool :: x in [seed] + pool;
    hide LikelyDuplicate;
  }

  lemma OneJoinsComponent(dist: Distance, sites: map<string, Site>, all: seq<string>, component: seq<string>,
                          rest: seq<string>, x: string)
    requires Growing(dist, sites, all, component, rest) && x in rest && AnyDuplicate(dist, sites, x, component)
    ensures Growing(dist, sites, all, component + [x], Without(rest, x)) && |Without(rest, x)| == |rest| - 1
  {
    GrownMore(dist, sites, component, x);
    DistinctMore(component, x);
    WithoutOne(rest, x);
    hide Grown, Distinct, AnyDuplicate, Without;
  }

  /** Grows the component of `seed` by scanning the shrinking work-list until nothing joins any more. */
  method GrowComponent(dist: Distance, sites: map<string, Site>, seed: string, pool: seq<string>)
    returns (component: seq<string>, rest: seq<string>)
    requires Known(sites, [seed] + pool) && Distinct([seed] + pool)
    ensures component != [] && component[0] == seed
    ensures Grown(dist, sites, component) && Distinct(component) && Distinct(rest)
    ensures forall x :: x in [seed] + pool <==> x in component || x in rest
    ensures Apart(dist, sites, rest, component)
    ensures |rest| <= |pool|
  {
    hide Grown, LikelyDuplicate, AnyDuplicate, Distinct, Without;
    component, rest := [seed], pool;
    GrowingStarts(dist, sites, seed, pool);
    var changed := true;
    while changed
      invariant Growing(dist, sites, [seed] + pool, component, rest)
      invariant !changed ==> Apart(dist, sites, rest, component)
      invariant |rest| <= |pool|
      decreases |rest|, changed
    {
      changed := false;
      var snapshot := rest;
      for i := 0 to |snapshot|
        invariant Growing(dist, sites, [seed] + pool, component, rest)
        invariant Distinct(snapshot) && forall j | i <= j < |snapshot| :: snapshot[j] in rest
        invariant !changed ==> rest == snapshot
        invariant !changed ==> forall j, x | 0 <= j < i && x in component :: !LikelyDuplicate(dist, sites, snapshot[j], x)
        invariant if changed then |rest| < |snapshot| else |rest| == |snapshot|
      {
        var candidate := snapshot[i];
        assert candidate in rest && Known(sites, component) by { Knows(dist, sites, component); }
        NoDuplicateOf(dist, sites, candidate, component);
        if AnyDuplicate(dist, sites, candidate, component) {
          OneJoinsComponent(dist, sites, [seed] + pool, component, rest, candidate);
          LaterOnesDiffer(snapshot, i);
          component := component + [candidate];
          rest := Without(rest, candidate);
          changed := true;
        }
      }
    }
  }

  /** The partition of one bucket: nonempty, grown, distinct parts, mutually apart, covering it. */
  ghost predicate Parts(dist: Distance, sites: map<string, Site>, parts: seq<seq<string>>) {
    && (forall i | 0 <= i < |parts| :: Grown(dist, sites, parts[i]) && Distinct(parts[i]))
    && (forall i, j | 0 <= i < |parts| && 0 <= j < |parts| && i != j :: Apart(dist, sites, parts[i], parts[j]))
  }

  ghost predicate InParts(parts: seq<seq<string>>, x: string) {
    exists i | 0 <= i < |parts| :: x in parts[i]
  }

  lemma ApartSymmetric(dist: Distance, sites: map<string, Site>, a: seq<string>, b: seq<string>)
    requires Symmetric(dist) && Apart(dist, sites, a, b)
    ensures Apart(dist, sites, b, a)
  {
  }

  lemma ApartRest(dist: Distance, sites: map<string, Site>, a: seq<string>, some: seq<string>, b: seq<string>)
    requires Apart(dist, sites, a, b) && forall x | x in some :: x in a
    ensures Apart(dist, sites, some, b)
  {
    hide LikelyDuplicate;
  }

  lemma PartsExtend(dist: Distance, sites: map<string, Site>, parts: seq<seq<string>>, c: seq<string>)
    requires Symmetric(dist) && Parts(dist, sites, parts) && Grown(dist, sites, c) && Distinct(c)
    requires forall i | 0 <= i < |parts| :: Apart(dist, sites, c, parts[i])
    ensures Parts(dist, sites, parts + [c])
    ensures forall x :: InParts(parts + [c], x) <==> InParts(parts, x) || x in c
  {
    var all := parts + [c];
    forall i | 0 <= i < |parts| ensures Apart(dist, sites, parts[i], c) {
      ApartSymmetric(dist, sites, c, parts[i]);
    }
    forall x ensures InParts(all, x) <==> InParts(parts, x) || x in c {
      if x in c { assert all[|parts|] == c; }
      if InParts(parts, x) {
        var i :| 0 <= i < |parts| && x in parts[i];
        assert all[i] == parts[i];
      }
    }
  }

  lemma PartsJoin(dist: Distance, sites: map<string, Site>, parts: seq<seq<string>>, found: seq<seq<string>>)
    requires Symmetric(dist) && Parts(dist, sites, parts) && Parts(dist, sites, found)
    requires forall x, y | InParts(parts, x) && InParts(found, y) :: x in sites && y in sites && BucketOf(sites[x]) != BucketOf(sites[y])
    ensures Parts(dist, sites, parts + found)
    ensures forall x :: InParts(parts + found, x) <==> InParts(parts, x) || InParts(found, x)
  {
    var all := parts + found;
    forall x ensures InParts(all, x) <==> InParts(parts, x) || InParts(found, x) {
      if InParts(parts, x) { var i :| 0 <= i < |parts| && x in parts[i]; assert all[i] == parts[i]; }
      if InParts(found, x) { var i :| 0 <= i < |found| && x in found[i]; assert all[|parts| + i] == found[i]; }
    }
    forall i, j | 0 <= i < |parts| <= j < |all| ensures Apart(dist, sites, all[i], all[j]) && Apart(dist, sites, all[j], all[i]) {
      assert all[j] == found[j - |parts|];
      assert Grown(dist, sites, parts[i]) && Grown(dist, sites, found[j - |parts|]);
      forall x, y | x in all[i] && y in all[j] ensures x != y && !LikelyDuplicate(dist, sites, x, y) {
        assert InParts(parts, x) && InParts(found, y);
      }
      ApartSymmetric(dist, sites, all[i], all[j]);
    }
  }

  /** The connected components of one bucket. */
  method Components(dist: Distance, sites: map<string, Site>, candidates: seq<string>)
    returns (parts: seq<seq<string>>)
    requires Symmetric(dist) && Known(sites, candidates) && Distinct(candidates)
    ensures Parts(dist, sites, parts)
    ensures forall x :: InParts(parts, x) <==> x in candidates
  {
    parts := [];
    var remaining := candidates;
    while remaining != []
      invariant Parts(dist, sites, parts) && Known(sites, remaining) && Distinct(remaining)
      invariant forall x :: x in candidates <==> InParts(parts, x) || x in remaining
      invariant forall i | 0 <= i < |parts| :: Apart(dist, sites, remaining, parts[i])
      decreases |remaining|
    {
      hide Parts, Grown, Distinct, Apart, InParts;
      assert remaining == [remaining[0]] + remaining[1..];
      var component, rest := GrowComponent(dist, sites, remaining[0], remaining[1..]);
      assert forall x | x in component || x in rest :: x in remaining;
      forall i | 0 <= i < |parts| ensures Apart(dist, sites, component, parts[i]) && Apart(dist, sites, rest, parts[i]) {
        ApartRest(dist, sites, remaining, component, parts[i]);
        ApartRest(dist, sites, remaining, rest, parts[i]);
      }
      PartsExtend(dist, sites, parts, component);
      parts := parts + [component];
      remaining := rest;
    }
  }

  /** `groups` files exactly the addressed rows of `rows`, each under its own bucket. */
  ghost predicate Filed(sites: map<string, Site>, rows: seq<string>, keys: seq<Bucket>, groups: map<Bucket, seq<string>>) {
    && Known(sites, rows)
    && (forall k :: k in groups <==> k in keys)
    && (forall a, b | 0 <= a < b < |keys| :: keys[a] != keys[b])
    && (forall k | k in groups :: Distinct(groups[k]))
    && (forall k, x | k in groups && x in groups[k] :: x in rows && Addressed(sites[x]) && BucketOf(sites[x]) == k)
    && (forall x | x in rows && Addressed(sites[x]) :: BucketOf(sites[x]) in groups && x in groups[BucketOf(sites[x])])
  }

  lemma FiledStep(sites: map<string, Site>, rows: seq<string>, keys: seq<Bucket>, groups: map<Bucket, seq<string>>, x: string)
    requires Filed(sites, rows, keys, groups) && x in sites && x !in rows
    ensures !Addressed(sites[x]) ==> Filed(sites, rows + [x], keys, groups)
    ensures var k := BucketOf(sites[x]);
            Addressed(sites[x]) && k in groups ==> Filed(sites, rows + [x], keys, groups[k := groups[k] + [x]])
  {
    hide Addressed, BucketOf;
    var k := BucketOf(sites[x]);
    if Addressed(sites[x]) && k in groups {
      DistinctMore(groups[k], x);
    }
    hide Distinct;
  }

  lemma FiledNew(sites: map<string, Site>, rows: seq<string>, keys: seq<Bucket>, groups: map<Bucket, seq<string>>, x: string)
    requires Filed(sites, rows, keys, groups) && x in sites && x !in rows
    requires Addressed(sites[x]) && BucketOf(sites[x]) !in groups
    ensures Filed(sites, rows + [x], keys + [BucketOf(sites[x])], groups[BucketOf(sites[x]) := [x]])
  {
    hide Addressed, BucketOf;
    assert Distinct([x]);
    hide Distinct;
  }

  /** Files the rows by territory, house, street core, city, state and zip; unaddressed rows are skipped. */
  method FileByBucket(sites: map<string, Site>, scope: seq<string>)
    returns (keys: seq<Bucket>, groups: map<Bucket, seq<string>>)
    requires Known(sites, scope) && Distinct(scope)
    ensures Filed(sites, scope, keys, groups)
  {
    keys, groups := [], map[];
    for i := 0 to |scope|
      invariant Filed(sites, scope[..i], keys, groups)
    {
      hide Filed;
      var x := scope[i];
      assert scope[..i + 1] == scope[..i] + [x] && x !in scope[..i];
      FiledStep(sites, scope[..i], keys, groups, x);
      if Addressed(sites[x]) {
        var k := BucketOf(sites[x]);
        if k in groups {
          groups := groups[k := groups[k] + [x]];
        } else {
          FiledNew(sites, scope[..i], keys, groups, x);
          groups := groups[k := [x]];
          keys := keys + [k];
        }
      }
    }
    assert scope[..|scope|] == scope;
  }

  /** All clusters of a scope: apart from each other, and together exactly its addressed rows. */
  method Clusters(dist: Distance, sites: map<string, Site>, scope: seq<string>)
    returns (parts: seq<seq<string>>)
    requires Symmetric(dist) && Known(sites, scope) && Distinct(scope)
    ensures Parts(dist, sites, parts)
    ensures forall x :: InParts(parts, x) <==> x in scope && Addressed(sites[x])
  {
    var keys, groups := FileByBucket(sites, scope);
    parts := [];
    for i := 0 to |keys|
      invariant Parts(dist, sites, parts)
      invariant forall x :: InParts(parts, x) <==> x in scope && Addressed(sites[x]) && BucketOf(sites[x]) in keys[..i]
    {
      assert keys[..i + 1] == keys[..i] + [keys[i]] && keys[i] !in keys[..i] && keys[i] in groups;
      var found := Components(dist, sites, groups[keys[i]]);
      PartsJoin(dist, sites, parts, found);
      parts := parts + found;
    }
    assert keys[..|keys|] == keys;
  }

  /** Rows in different clusters, or unaddressed, are never likely duplicates. */
  lemma DuplicatesShareCluster(dist: Distance, sites: map<string, Site>, parts: seq<seq<string>>, scope: seq<string>,
                               x: string, y: string)
    requires Symmetric(dist) && Known(sites, scope) && Parts(dist, sites, parts)
    requires forall z :: InParts(parts, z) <==> z in scope && Addressed(sites[z])
    requires x in scope && y in scope && LikelyDuplicate(dist, sites, x, y)
    ensures exists i | 0 <= i < |parts| :: x in parts[i] && y in parts[i]
  {
  }
}
