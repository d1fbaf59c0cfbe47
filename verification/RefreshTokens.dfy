/** Rotation of refresh tokens in families with detection of reuse. */
module RefreshTokens {
  import opened Wrappers

  datatype Row = Row(user: string, family: string, expires: int, revoked: bool)

  type Table = map<string, Row>

  /** A token as presented: with a good signature and its claims, or not. */
  datatype Token = Genuine(jti: string, sub: string, exp: int) | Forged

  datatype Answer = Granted | Invalid | Expired | Reuse | Inactive | Done

  /** The ids of a new token and of a new family are drawn at random. A refresh reads the clock twice, once to
      check the signature and once to check the stored row. */
  datatype Request =
    | Login(user: string, jti: string, family: string, expires: int)
    | Refresh(token: Token, now: int, later: int, active: set<string>, jti: string, expires: int)
    | Logout(user: string, presented: Option<Token>, now: int)

  predicate Decodes(t: Token, now: int) {
    t.Genuine? && now < t.exp
  }

  function FamilyRevoked(rows: Table, family: string): Table {
    map j | j in rows :: if rows[j].family == family then rows[j].(revoked := true) else rows[j]
  }

  function UserRevoked(rows: Table, user: string): Table {
    map j | j in rows :: if rows[j].user == user && !rows[j].revoked then rows[j].(revoked := true) else rows[j]
  }

  function DoRefresh(rows: Table, t: Token, now: int, later: int, active: set<string>, jti: string, expires: int)
    : (Table, Answer)
  {
    if t.Forged? then (rows, Invalid)
    else if t.exp <= now then (rows, Expired)
    else if t.jti !in rows then (rows, Invalid)
    else
      var row := rows[t.jti];
      if row.revoked then (FamilyRevoked(rows, row.family), Reuse)
      else if row.expires <= later then (rows, Expired)
      else if t.sub !in active then (rows, Inactive)
      else
        var minted := rows[jti := Row(t.sub, row.family, expires, false)];
        (minted[t.jti := row.(revoked := true)], Granted)
  }

  function DoLogout(rows: Table, user: string, token: Option<Token>, now: int): Table {
    match token
    case None => UserRevoked(rows, user)
    case Some(t) =>
      if Decodes(t, now) && t.jti in rows then FamilyRevoked(rows, rows[t.jti].family) else rows
  }

  function Handle(rows: Table, r: Request): (Table, Answer) {
    match r
    case Login(user, jti, family, expires) => (rows[jti := Row(user, family, expires, false)], Granted)
    case Refresh(t, now, later, active, jti, expires) => DoRefresh(rows, t, now, later, active, jti, expires)
    case Logout(user, token, now) => (DoLogout(rows, user, token, now), Done)
  }

  /** Freshly drawn ids have not been seen before. */
  ghost predicate Fresh(rows: Table, r: Request) {
    match r
    case Login(_, jti, family, _) => jti !in rows && forall j | j in rows :: rows[j].family != family
    case Refresh(_, _, _, _, jti, _) => jti !in rows
    case Logout(_, _, _) => true
  }

  ghost predicate FreshRun(rows: Table, run: seq<Request>)
    decreases |run|
  {
    run == [] || (Fresh(rows, run[0]) && FreshRun(Handle(rows, run[0]).0, run[1..]))
  }

  ghost function After(rows: Table, run: seq<Request>): Table
    decreases |run|
  {
    if run == [] then rows else After(Handle(rows, run[0]).0, run[1..])
  }

  /** The request is answered with an access token on behalf of the family. */
  ghost predicate YieldsFor(rows: Table, r: Request, family: string) {
    Handle(rows, r).1.Granted? &&
    match r
    case Login(_, _, f, _) => f == family
    case Refresh(t, _, _, _, _, _) => t.Genuine? && t.jti in rows && rows[t.jti].family == family
    case Logout(_, _, _) => false
  }

  /** How many access tokens the family yields over the run. */
  ghost function Yields(rows: Table, run: seq<Request>, family: string): nat
    decreases |run|
  {
    if run == [] then 0
    else (if YieldsFor(rows, run[0], family) then 1 else 0) + Yields(Handle(rows, run[0]).0, run[1..], family)
  }

  /** How often the refresh token `jti` is exchanged over the run. */
  ghost function Exchanges(rows: Table, run: seq<Request>, jti: string): nat
    decreases |run|
  {
    if run == [] then 0
    else
      (if run[0].Refresh? && run[0].token.Genuine? && run[0].token.jti == jti && Handle(rows, run[0]).1.Granted?
       then 1 else 0)
      + Exchanges(Handle(rows, run[0]).0, run[1..], jti)
  }

  ghost predicate OneLivePerFamily(rows: Table) {
    forall a, b | a in rows && b in rows && rows[a].family == rows[b].family && !rows[a].revoked && !rows[b].revoked ::
      a == b
  }

  /** Over any run each family has at most one unrevoked token. */
  lemma {:induction false} OneLiveAlways(rows: Table, run: seq<Request>)
    requires OneLivePerFamily(rows) && FreshRun(rows, run)
    ensures OneLivePerFamily(After(rows, run))
    decreases |run|
  {
    if run != [] {
      OneLiveAlways(Handle(rows, run[0]).0, run[1..]);
    }
  }

  /** A used family without an unrevoked token. */
  ghost predicate Dead(rows: Table, family: string) {
    && (exists j :: j in rows && rows[j].family == family)
    && (forall j | j in rows && rows[j].family == family :: rows[j].revoked)
  }

  /** A dead family stays dead and yields no access token any more. */
  lemma {:induction false} DeadYieldsNothing(rows: Table, run: seq<Request>, family: string)
    requires Dead(rows, family) && FreshRun(rows, run)
    ensures Dead(After(rows, run), family) && Yields(rows, run, family) == 0
    decreases |run|
  {
    if run != [] {
      var next := Handle(rows, run[0]).0;
      var j :| j in rows && rows[j].family == family;
      assert j in next && next[j].family == family;
      DeadYieldsNothing(next, run[1..], family);
    }
  }

  /** Once a revoked token of a family is replayed, that family never yields another access token. */
  lemma ReplayEndsFamily(rows: Table, replay: Request, run: seq<Request>)
    requires replay.Refresh? && Handle(rows, replay).1.Reuse? && FreshRun(Handle(rows, replay).0, run)
    ensures var f := rows[replay.token.jti].family;
            Dead(After(Handle(rows, replay).0, run), f) && Yields(Handle(rows, replay).0, run, f) == 0
  {
    var next := Handle(rows, replay).0;
    assert replay.token.jti in next;
    DeadYieldsNothing(next, run, rows[replay.token.jti].family);
  }

  /** A stored token is never removed, moved to another family, or revived. */
  lemma {:induction false} RowsOnlyAge(rows: Table, run: seq<Request>, jti: string)
    requires jti in rows && FreshRun(rows, run)
    ensures jti in After(rows, run) && After(rows, run)[jti].family == rows[jti].family
    ensures rows[jti].revoked ==> After(rows, run)[jti].revoked && Exchanges(rows, run, jti) == 0
    ensures Exchanges(rows, run, jti) <= 1
    decreases |run|
  {
    if run != [] {
      var next := Handle(rows, run[0]).0;
      assert jti in next;
      RowsOnlyAge(next, run[1..], jti);
    }
  }

  /** Whoever uses a copy of an exchanged token while it still decodes, the thief or the owner, ends the family
      for both: nothing after that second use yields an access token of the family. */
  lemma SecondUseEndsFamily(rows: Table, first: Request, between: seq<Request>, second: Request, run: seq<Request>)
    requires first.Refresh? && Handle(rows, first).1.Granted? && Fresh(rows, first)
    requires second.Refresh? && second.token == first.token && Decodes(second.token, second.now)
    requires FreshRun(Handle(rows, first).0, between)
    requires FreshRun(Handle(After(Handle(rows, first).0, between), second).0, run)
    ensures var mid := After(Handle(rows, first).0, between);
            && Handle(mid, second).1 == Reuse
            && Yields(Handle(mid, second).0, run, rows[first.token.jti].family) == 0
  {
    var jti := first.token.jti;
    var rotated := Handle(rows, first).0;
    RowsOnlyAge(rotated, between, jti);
    ReplayEndsFamily(After(rotated, between), second, run);
  }

  /** Logging out with a token ends its family; without one, every family of the user's own tokens. */
  lemma LogoutEnds(rows: Table, logout: Request, run: seq<Request>, jti: string)
    requires logout.Logout? && jti in rows && FreshRun(Handle(rows, logout).0, run)
    requires match logout.presented
             case Some(t) => Decodes(t, logout.now) && t.jti in rows && rows[t.jti].family == rows[jti].family
             case None => forall j | j in rows && rows[j].family == rows[jti].family :: rows[j].user == logout.user
    ensures Yields(Handle(rows, logout).0, run, rows[jti].family) == 0
  {
    assert jti in Handle(rows, logout).0;
    DeadYieldsNothing(Handle(rows, logout).0, run, rows[jti].family);
  }

  // ---- Whoever plays by the rules is let in ---------------------------------------------------------------------

  /** One exchange of a session: when it comes, which ids are drawn for it, who is active then. */
  datatype Renewal = Renewal(now: int, later: int, active: set<string>, jti: string, exp: int)

  /** The requests of a client that always presents the token it was given last. */
  function Presented(user: string, jti: string, exp: int, renewals: seq<Renewal>): seq<Request>
    decreases |renewals|
  {
    if renewals == [] then []
    else
      var r := renewals[0];
      [Refresh(Genuine(jti, user, exp), r.now, r.later, r.active, r.jti, r.exp)]
      + Presented(user, r.jti, r.exp, renewals[1..])
  }

  /** The user stays active, and each token is used before it expires. */
  ghost predicate InTime(user: string, exp: int, renewals: seq<Renewal>)
    decreases |renewals|
  {
    renewals == []
    || (renewals[0].now < exp && renewals[0].later < exp && user in renewals[0].active
        && InTime(user, renewals[0].exp, renewals[1..]))
  }

  /** Such a client is granted every exchange, and ends with a token that is good for the next. */
  lemma {:induction false} SessionGoesOn(rows: Table, user: string, jti: string, exp: int, family: string, renewals: seq<Renewal>)
    requires jti in rows && rows[jti] == Row(user, family, exp, false)
    requires InTime(user, exp, renewals) && FreshRun(rows, Presented(user, jti, exp, renewals))
    ensures Yields(rows, Presented(user, jti, exp, renewals), family) == |renewals|
    ensures var last := if renewals == [] then jti else renewals[|renewals| - 1].jti;
            var end := After(rows, Presented(user, jti, exp, renewals));
            last in end && end[last].user == user && end[last].family == family && !end[last].revoked
    decreases |renewals|
  {
    if renewals != [] {
      var r, run := renewals[0], Presented(user, jti, exp, renewals);
      var next := Handle(rows, run[0]).0;
      assert run[1..] == Presented(user, r.jti, r.exp, renewals[1..]);
      assert next[r.jti] == Row(user, family, r.exp, false);
      SessionGoesOn(next, user, r.jti, r.exp, family, renewals[1..]);
      assert renewals[1..] != [] ==> renewals[1..][|renewals| - 2] == renewals[|renewals| - 1];
    }
  }

  /** From a login on: one access token for it and one for each exchange. */
  lemma {:induction false} LoginOpensSession(rows: Table, user: string, jti: string, family: string, exp: int, renewals: seq<Renewal>)
    requires Fresh(rows, Login(user, jti, family, exp)) && InTime(user, exp, renewals)
    requires FreshRun(Handle(rows, Login(user, jti, family, exp)).0, Presented(user, jti, exp, renewals))
    ensures Yields(rows, [Login(user, jti, family, exp)] + Presented(user, jti, exp, renewals), family) == 1 + |renewals|
  {
    var login := Login(user, jti, family, exp);
    var run := [login] + Presented(user, jti, exp, renewals);
    assert run[0] == login && run[1..] == Presented(user, jti, exp, renewals);
    SessionGoesOn(Handle(rows, login).0, user, jti, exp, family, renewals);
  }

  /** A refresh is granted exactly for a token that is genuine, unexpired by both clocks, stored and unrevoked, of an
      active user; a stored and revoked one that still decodes is a reuse. */
  lemma GrantedExactly(rows: Table, t: Token, now: int, later: int, active: set<string>, jti: string, exp: int)
    ensures var (rows', answer) := DoRefresh(rows, t, now, later, active, jti, exp);
            var known := t.Genuine? && now < t.exp && t.jti in rows;
            && (answer == Granted <==> known && !rows[t.jti].revoked && later < rows[t.jti].expires && t.sub in active)
            && (answer == Reuse <==> known && rows[t.jti].revoked)
            && (answer == Expired <==> (t.Genuine? && now >= t.exp) || (known && !rows[t.jti].revoked && later >= rows[t.jti].expires))
            && (answer == Inactive <==> known && !rows[t.jti].revoked && later < rows[t.jti].expires && t.sub !in active)
            && (answer == Invalid <==> t.Forged? || (now < t.exp && t.jti !in rows))
            && (answer != Granted && answer != Reuse ==> rows' == rows)
  {
  }

  class TokenStore {
    var rows: Table

    constructor ()
      ensures rows == map[] && OneLivePerFamily(rows)
    {
      rows := map[];
    }

    method Issue(user: string, jti: string, family: string, expires: int)
      modifies this
      ensures rows == Handle(old(rows), Login(user, jti, family, expires)).0
      ensures old(OneLivePerFamily(rows)) && Fresh(old(rows), Login(user, jti, family, expires)) ==> OneLivePerFamily(rows)
    {
      rows := rows[jti := Row(user, family, expires, false)];
    }

    method Exchange(t: Token, now: int, later: int, active: set<string>, jti: string, expires: int) returns (a: Answer)
      modifies this
      ensures (rows, a) == DoRefresh(old(rows), t, now, later, active, jti, expires)
      ensures old(OneLivePerFamily(rows)) && jti !in old(rows) ==> OneLivePerFamily(rows)
    {
      if t.Forged? {
        return Invalid;
      }
      if t.exp <= now {
        return Expired;
      }
      if t.jti !in rows {
        return Invalid;
      }
      var row := rows[t.jti];
      if row.revoked {
        rows := FamilyRevoked(rows, row.family);
        return Reuse;
      }
      if row.expires <= later {
        return Expired;
      }
      if t.sub !in active {
        return Inactive;
      }
      rows := rows[jti := Row(t.sub, row.family, expires, false)];
      rows := rows[t.jti := row.(revoked := true)];
      return Granted;
    }

    method LogOut(user: string, token: Option<Token>, now: int)
      modifies this
      ensures rows == DoLogout(old(rows), user, token, now)
      ensures old(OneLivePerFamily(rows)) ==> OneLivePerFamily(rows)
    {
      if token.Some? {
        if Decodes(token.value, now) && token.value.jti in rows {
          rows := FamilyRevoked(rows, rows[token.value.jti].family);
        }
      } else {
        rows := UserRevoked(rows, user);
      }
    }
  }
}
