/** Folding duplicate property rows into one: what moves, what is deduplicated, what is deleted. A redirect
    `f` sends each removed row to the row that took its place. */
module PropertyMerge {
  import opened Wrappers
  import opened DuplicateClusters
  import opened NoteText

  datatype Kind = Visit | Lead | Inspection | Estimate | Quote | Job | Invoice | PropertyPhoto

  datatype Dependent = Dependent(kind: Kind, property: Option<string>)

  /** A row that belongs to a property and must not be doubled there: a contact by its five cleaned
      fields, a customer link by its customer. */
  datatype Held<+K> = Held(property: string, key: K)

  datatype ContactKey = ContactKey(kind: string, name: string, mailing: string, phone: string, email: string)

  /** `attrs` holds the nullable descriptive fields that are set. */
  datatype Row = Row(site: Site, created: real, mapboxResolved: bool, doNotKnock: bool, reason: string,
                     notes: string, attrs: map<string, string>)

  datatype Tables = Tables(rows: map<string, Row>, contacts: map<string, Held<ContactKey>>,
                           links: map<string, Held<string>>, dependents: map<string, Dependent>)

  type Redirect = map<string, string>

  function Dest(f: Redirect, p: string): string {
    if p in f then f[p] else p
  }

  function DestOpt(f: Redirect, p: Option<string>): Option<string> {
    if p.Some? then Some(Dest(f, p.value)) else None
  }

  function Compose(f: Redirect, g: Redirect): Redirect {
    map p | p in f.Keys + g.Keys :: Dest(g, Dest(f, p))
  }

  function Sites(rows: map<string, Row>): map<string, Site> {
    map p | p in rows :: rows[p].site
  }

  // ---- What merging preserves -----------------------------------------------------------------------

  ghost predicate Represented<K>(after: map<string, Held<K>>, p: string, key: K) {
    exists i | i in after :: after[i] == Held(p, key)
  }

  ghost predicate NoneInvented<K>(before: map<string, Held<K>>, after: map<string, Held<K>>, f: Redirect) {
    forall i | i in after :: i in before && after[i] == Held(Dest(f, before[i].property), before[i].key)
  }

  ghost predicate NoneLost<K>(before: map<string, Held<K>>, after: map<string, Held<K>>, f: Redirect) {
    forall i | i in before :: Represented(after, Dest(f, before[i].property), before[i].key)
  }

  ghost predicate StayersKept<K>(before: map<string, Held<K>>, after: map<string, Held<K>>, f: Redirect) {
    forall i | i in before && before[i].property !in f :: i in after
  }

  /** Held rows follow the redirect; one is dropped only when its key is already at the destination, and
      rows of properties that stay are never dropped. */
  ghost predicate HeldFollow<K>(before: map<string, Held<K>>, after: map<string, Held<K>>, f: Redirect) {
    NoneInvented(before, after, f) && NoneLost(before, after, f) && StayersKept(before, after, f)
  }

  function Redirected(before: map<string, Dependent>, f: Redirect): map<string, Dependent> {
    map i | i in before :: before[i].(property := DestOpt(f, before[i].property))
  }

  ghost predicate Stays(f: Redirect, rows: map<string, Row>, q: string, p: string) {
    q in rows && Dest(f, q) == p
  }

  predicate Noted(row: Row) {
    row.notes != ""
  }

  /** A flag is the disjunction over the rows folded together. */
  ghost predicate FlagsFollow(before: map<string, Row>, row: Row, f: Redirect, p: string) {
    && (row.doNotKnock <==> exists q | Stays(f, before, q, p) :: before[q].doNotKnock)
  }

  ghost predicate NotesReach(before: map<string, Row>, row: Row, f: Redirect, p: string) {
    forall q | Stays(f, before, q, p) :: Keeps(row.notes, before[q].notes)
  }

  /** The text of each row's note stands in the survivor's, which is empty only if all were. */
  ghost predicate NotesFollow(before: map<string, Row>, row: Row, f: Redirect, p: string) {
    NotesReach(before, row, f, p) && (Noted(row) <==> exists q | Stays(f, before, q, p) :: Noted(before[q]))
  }

  ghost predicate AttrsReach(before: map<string, Row>, row: Row, f: Redirect, p: string) {
    forall q, a | Stays(f, before, q, p) && a in before[q].attrs :: a in row.attrs
  }

  ghost predicate AttrsComeFrom(before: map<string, Row>, row: Row, f: Redirect, p: string) {
    forall a | a in row.attrs :: exists q | Stays(f, before, q, p) ::
      a in before[q].attrs && before[q].attrs[a] == row.attrs[a]
  }

  /** Every field set on any of the rows is set, to the row's own value if it had one and else to one of theirs. */
  ghost predicate AttrsFollow(before: map<string, Row>, row: Row, f: Redirect, p: string)
    requires p in before
  {
    && AttrsReach(before, row, f, p) && AttrsComeFrom(before, row, f, p)
    && (forall a | a in before[p].attrs :: a in row.attrs && row.attrs[a] == before[p].attrs[a])
  }

  ghost predicate ReasonFollows(before: map<string, Row>, row: Row, f: Redirect, p: string)
    requires p in before
  {
    && (before[p].reason != "" ==> row.reason == before[p].reason)
    && (forall q | Stays(f, before, q, p) && before[q].reason != "" :: row.reason != "")
    && (exists q | Stays(f, before, q, p) :: before[q].reason == row.reason)
  }

  ghost predicate RowFollows(before: map<string, Row>, after: map<string, Row>, f: Redirect, p: string)
    requires p in before && p in after
  {
    && after[p].site == before[p].site && after[p].created == before[p].created
    && after[p].mapboxResolved == before[p].mapboxResolved
    && FlagsFollow(before, after[p], f, p) && AttrsFollow(before, after[p], f, p) && ReasonFollows(before, after[p], f, p)
    && NotesFollow(before, after[p], f, p)
  }

  predicate Surviving(before: set<string>, after: set<string>, f: Redirect) {
    after == before - f.Keys && f.Keys <= before && forall p | p in f :: f[p] in after
  }

  ghost predicate RowsFollow(before: map<string, Row>, after: map<string, Row>, f: Redirect) {
    Surviving(before.Keys, after.Keys, f) && forall p | p in after :: RowFollows(before, after, f, p)
  }

  /** `after` is `before` with every row of `f` folded into its destination and nothing tracked lost. */
  ghost predicate Merged(before: Tables, after: Tables, f: Redirect) {
    && RowsFollow(before.rows, after.rows, f)
    && HeldFollow(before.contacts, after.contacts, f)
    && HeldFollow(before.links, after.links, f)
    && after.dependents == Redirected(before.dependents, f)
  }

  /** A row that nothing was folded into. */
  lemma AloneFollows(before: map<string, Row>, row: Row, f: Redirect, p: string)
    requires p in before && row == before[p] && forall q :: Stays(f, before, q, p) <==> q == p
    ensures FlagsFollow(before, row, f, p) && AttrsFollow(before, row, f, p)
    ensures ReasonFollows(before, row, f, p) && NotesFollow(before, row, f, p)
  {
    KeepsItself(row.notes);
    hide Stays, Keeps, Noted;
    assert Stays(f, before, p, p);
  }

  lemma RowNothing(rows: map<string, Row>, p: string)
    requires p in rows
    ensures RowFollows(rows, rows, map[], p)
  {
    assert forall q :: Stays(map[], rows, q, p) <==> q == p;
    hide FlagsFollow, AttrsFollow, ReasonFollows, NotesFollow, Stays;
    AloneFollows(rows, rows[p], map[], p);
  }

  lemma RowsNothing(rows: map<string, Row>)
    ensures RowsFollow(rows, rows, map[])
  {
    hide RowFollows;
    forall p | p in rows ensures RowFollows(rows, rows, map[], p) {
      RowNothing(rows, p);
    }
  }

  lemma HeldNothing<K(!new)>(held: map<string, Held<K>>)
    ensures HeldFollow(held, held, map[])
  {
    forall i | i in held ensures Represented(held, held[i].property, held[i].key) {
      assert held[i] == Held(held[i].property, held[i].key);
    }
    hide Represented;
  }

  lemma MergedNothing(t: Tables)
    ensures Merged(t, t, map[])
  {
    hide RowsFollow, HeldFollow;
    RowsNothing(t.rows);
    HeldNothing(t.contacts);
    HeldNothing(t.links);
    assert Redirected(t.dependents, map[]) == t.dependents;
  }

  /** `h` does what `f` and then `g` do. */
  ghost predicate Chained(f: Redirect, g: Redirect, h: Redirect) {
    h.Keys == f.Keys + g.Keys && forall p :: Dest(h, p) == Dest(g, Dest(f, p))
  }

  lemma HeldChains<K(!new)>(a: map<string, Held<K>>, b: map<string, Held<K>>, c: map<string, Held<K>>,
                            f: Redirect, g: Redirect, h: Redirect)
    requires HeldFollow(a, b, f) && HeldFollow(b, c, g) && Chained(f, g, h)
    ensures HeldFollow(a, c, h)
  {
  }

  /** Through `m` to `p` first by `f` and then by `g` is to `p` by both. */
  lemma StaysChains(a: map<string, Row>, b: map<string, Row>, f: Redirect, g: Redirect, h: Redirect, p: string)
    requires Surviving(a.Keys, b.Keys, f) && Chained(f, g, h)
    ensures forall q | Stays(h, a, q, p) :: Stays(f, a, q, Dest(f, q)) && Stays(g, b, Dest(f, q), p)
    ensures forall q, m | Stays(f, a, q, m) && Stays(g, b, m, p) :: Stays(h, a, q, p)
  {
  }

  lemma FlagsChain(a: map<string, Row>, b: map<string, Row>, row: Row, f: Redirect, g: Redirect, h: Redirect, p: string)
    requires Surviving(a.Keys, b.Keys, f) && Chained(f, g, h) && FlagsFollow(b, row, g, p)
    requires forall m | m in b :: FlagsFollow(a, b[m], f, m)
    ensures FlagsFollow(a, row, h, p)
  {
    StaysChains(a, b, f, g, h, p);
    hide Surviving, Stays, Dest;
    if row.doNotKnock {
      var m :| Stays(g, b, m, p) && b[m].doNotKnock;
      var q :| Stays(f, a, q, m) && a[q].doNotKnock;
    }
  }

  lemma NotesReachChains(a: map<string, Row>, b: map<string, Row>, row: Row, f: Redirect, g: Redirect, h: Redirect, p: string)
    requires Surviving(a.Keys, b.Keys, f) && Chained(f, g, h) && NotesReach(b, row, g, p)
    requires forall m | m in b :: NotesReach(a, b[m], f, m)
    ensures NotesReach(a, row, h, p)
  {
    StaysChains(a, b, f, g, h, p);
    hide Keeps, Surviving;
    forall q | Stays(h, a, q, p) ensures Keeps(row.notes, a[q].notes) {
      var m := Dest(f, q);
      assert Stays(g, b, m, p) && NotesReach(a, b[m], f, m);
      KeepsOn(a[q].notes, b[m].notes, row.notes);
    }
  }

  lemma NotesChain(a: map<string, Row>, b: map<string, Row>, row: Row, f: Redirect, g: Redirect, h: Redirect, p: string)
    requires Surviving(a.Keys, b.Keys, f) && Chained(f, g, h) && NotesFollow(b, row, g, p)
    requires forall m | m in b :: NotesFollow(a, b[m], f, m)
    ensures NotesFollow(a, row, h, p)
  {
    NotesReachChains(a, b, row, f, g, h, p);
    StaysChains(a, b, f, g, h, p);
    hide Surviving, NotesReach, Noted, Dest;
    if Noted(row) {
      var m :| Stays(g, b, m, p) && Noted(b[m]);
      var q :| Stays(f, a, q, m) && Noted(a[q]);
      assert Stays(h, a, q, p);
    }
  }

  lemma AttrsChain(a: map<string, Row>, b: map<string, Row>, row: Row, f: Redirect, g: Redirect, h: Redirect, p: string)
    requires Surviving(a.Keys, b.Keys, f) && Chained(f, g, h) && p in b && AttrsFollow(b, row, g, p)
    requires forall m | m in b :: m in a && AttrsFollow(a, b[m], f, m)
    ensures AttrsFollow(a, row, h, p)
  {
  }

  lemma ReasonChain(a: map<string, Row>, b: map<string, Row>, row: Row, f: Redirect, g: Redirect, h: Redirect, p: string)
    requires Surviving(a.Keys, b.Keys, f) && Chained(f, g, h) && p in b && ReasonFollows(b, row, g, p)
    requires forall m | m in b :: m in a && ReasonFollows(a, b[m], f, m)
    ensures ReasonFollows(a, row, h, p)
  {
  }

  lemma RowChains(a: map<string, Row>, b: map<string, Row>, c: map<string, Row>, f: Redirect, g: Redirect,
                  h: Redirect, p: string)
    requires RowsFollow(a, b, f) && RowsFollow(b, c, g) && Chained(f, g, h) && p in c
    ensures p in a && RowFollows(a, c, h, p)
  {
    hide FlagsFollow, AttrsFollow, ReasonFollows, NotesFollow;
    assert RowFollows(b, c, g, p);
    assert forall m | m in b :: m in a && RowFollows(a, b, f, m);
    FlagsChain(a, b, c[p], f, g, h, p);
    AttrsChain(a, b, c[p], f, g, h, p);
    ReasonChain(a, b, c[p], f, g, h, p);
    NotesChain(a, b, c[p], f, g, h, p);
  }

  lemma SurvivingChains(a: set<string>, b: set<string>, c: set<string>, f: Redirect, g: Redirect, h: Redirect)
    requires Surviving(a, b, f) && Surviving(b, c, g) && Chained(f, g, h)
    ensures Surviving(a, c, h)
  {
    forall p | p in h ensures h[p] in c {
      assert Dest(f, p) in b;
      assert h[p] == Dest(g, Dest(f, p));
    }
  }

  lemma RowsChain(a: map<string, Row>, b: map<string, Row>, c: map<string, Row>, f: Redirect, g: Redirect, h: Redirect)
    requires RowsFollow(a, b, f) && RowsFollow(b, c, g) && Chained(f, g, h)
    ensures RowsFollow(a, c, h)
  {
    SurvivingChains(a.Keys, b.Keys, c.Keys, f, g, h);
    forall p | p in c ensures RowFollows(a, c, h, p) {
      RowChains(a, b, c, f, g, h, p);
    }
  }

  lemma DependentsChain(a: map<string, Dependent>, f: Redirect, g: Redirect, h: Redirect)
    requires Chained(f, g, h)
    ensures Redirected(Redirected(a, f), g) == Redirected(a, h)
  {
  }

  /** Merges compose: folding by `f` and then by `g` is folding by their composition. */
  lemma MergedCompose(a: Tables, b: Tables, c: Tables, f: Redirect, g: Redirect)
    requires Merged(a, b, f) && Merged(b, c, g)
    ensures Merged(a, c, Compose(f, g))
  {
    var h := Compose(f, g);
    ComposeChains(f, g);
    RowsChain(a.rows, b.rows, c.rows, f, g, h);
    HeldChains(a.contacts, b.contacts, c.contacts, f, g, h);
    HeldChains(a.links, b.links, c.links, f, g, h);
    DependentsChain(a.dependents, f, g, h);
  }

  lemma ComposeChains(f: Redirect, g: Redirect)
    ensures Chained(f, g, Compose(f, g))
  {
  }

  // ---- Consequences a user sees -----------------------------------------------------------------------

  function Attached(t: Tables, kind: Kind, p: string): set<string> {
    set i | i in t.dependents && t.dependents[i] == Dependent(kind, Some(p))
  }

  function KeysAt<K>(held: map<string, Held<K>>, p: string): set<K> {
    set i | i in held && held[i].property == p :: held[i].key
  }

  /** Nothing tracked is lost: of each kind the survivor holds exactly the dependents of the rows folded
      into it, its contact keys and its customers are the union of theirs, do-not-knock is their disjunction,
      and each of their notes stands in its note. */
  lemma NothingLost(before: Tables, after: Tables, f: Redirect, p: string, kind: Kind)
    requires Merged(before, after, f) && p in after.rows
    ensures Attached(after, kind, p) == set i | i in before.dependents && before.dependents[i].kind == kind
              && before.dependents[i].property.Some? && Dest(f, before.dependents[i].property.value) == p
    ensures KeysAt(after.contacts, p) == set i | i in before.contacts && Dest(f, before.contacts[i].property) == p :: before.contacts[i].key
    ensures KeysAt(after.links, p) == set i | i in before.links && Dest(f, before.links[i].property) == p :: before.links[i].key
    ensures after.rows[p].doNotKnock <==> exists q | q in before.rows && Dest(f, q) == p :: before.rows[q].doNotKnock
    ensures forall q | q in before.rows && Dest(f, q) == p :: Keeps(after.rows[p].notes, before.rows[q].notes)
  {
    hide Keeps;
    HeldUnion(before.contacts, after.contacts, f, p);
    HeldUnion(before.links, after.links, f, p);
    FlagUnion(before.rows, after.rows, f, p);
  }

  lemma FlagUnion(before: map<string, Row>, after: map<string, Row>, f: Redirect, p: string)
    requires RowsFollow(before, after, f) && p in after
    ensures after[p].doNotKnock <==> exists q | q in before && Dest(f, q) == p :: before[q].doNotKnock
    ensures forall q | q in before && Dest(f, q) == p :: Keeps(after[p].notes, before[q].notes)
  {
    hide Keeps, AttrsFollow, ReasonFollows;
    assert RowFollows(before, after, f, p);
    forall q | q in before && Dest(f, q) == p ensures Stays(f, before, q, p) {}
  }

  lemma HeldUnion<K>(before: map<string, Held<K>>, after: map<string, Held<K>>, f: Redirect, p: string)
    requires HeldFollow(before, after, f)
    ensures KeysAt(after, p) == set i | i in before && Dest(f, before[i].property) == p :: before[i].key
  {
  }

  /** No dependent row disappears or changes kind, so the counts over a cluster are unchanged. */
  lemma CountsKept(before: Tables, after: Tables, f: Redirect, kind: Kind)
    requires Merged(before, after, f)
    ensures (set i | i in after.dependents && after.dependents[i].kind == kind)
            == (set i | i in before.dependents && before.dependents[i].kind == kind)
    ensures forall q | q in f :: q !in after.rows && Attached(after, kind, q) == {}
    ensures forall i, q | i in after.contacts && q in f :: after.contacts[i].property != q
  {
    hide RowFollows, NoneLost, StayersKept;
    forall p | p in f ensures f[p] !in f {
      assert f[p] in after.rows;
    }
    forall q, p | q in f ensures Dest(f, p) != q {}
  }
}
