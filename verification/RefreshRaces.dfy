/** Refreshes that overlap: the handler reads the presented token's row, and revokes it and stores the successor
    only when it commits; no lock is held in between. */
module RefreshRaces {
  import opened Wrappers
  import opened RefreshTokens

  /** A refresh that has read its row and is still to commit. `condemns`: it read a revoked token, and will revoke
      the family. `overtaken` records that since its read something else revoked the token. */
  datatype Refreshing = Refreshing(jti: string, sub: string, family: string, condemns: bool, overtaken: bool)

  datatype State = State(rows: Table, open: map<nat, Refreshing>)

  datatype Step =
    | SignIn(user: string, jti: string, family: string, expires: int)
    | Read(id: nat, token: Token, now: int, later: int, active: set<string>)
    | Commit(id: nat, jti: string, expires: int)
    | Abandon(id: nat)
    | SignOut(user: string, presented: Option<Token>, now: int)

  /** Freshly drawn ids have not been seen before. */
  ghost predicate Enabled(s: State, a: Step) {
    match a
    case SignIn(user, jti, family, expires) => Fresh(s.rows, Login(user, jti, family, expires))
    case Read(id, _, _, _, _) => id !in s.open
    case Commit(id, jti, _) => id in s.open && jti !in s.rows
    case Abandon(id) => id in s.open
    case SignOut(_, _, _) => true
  }

  /** What is left to do after the reads, if anything. */
  function Opened(rows: Table, t: Token, now: int, later: int, active: set<string>): Option<Refreshing> {
    if t.Forged? || t.exp <= now || t.jti !in rows then None
    else
      var row := rows[t.jti];
      if row.revoked then Some(Refreshing(t.jti, t.sub, row.family, true, false))
      else if row.expires <= later || t.sub !in active then None
      else Some(Refreshing(t.jti, t.sub, row.family, false, false))
  }

  function Committed(rows: Table, o: Refreshing, jti: string, expires: int): Table {
    if o.condemns then FamilyRevoked(rows, o.family)
    else
      var minted := rows[jti := Row(o.sub, o.family, expires, false)];
      if o.jti in rows then minted[o.jti := rows[o.jti].(revoked := true)] else minted
  }

  ghost function RowsStep(s: State, a: Step): Table
    requires Enabled(s, a)
  {
    match a
    case SignIn(user, jti, family, expires) => Handle(s.rows, Login(user, jti, family, expires)).0
    case Commit(id, jti, expires) => Committed(s.rows, s.open[id], jti, expires)
    case SignOut(user, presented, now) => DoLogout(s.rows, user, presented, now)
    case _ => s.rows
  }

  /** The step revokes the token that `o` read: another exchange of it, a reuse that ends its family, a logout. */
  ghost predicate Overtakes(s: State, a: Step, o: Refreshing)
    requires Enabled(s, a)
  {
    match a
    case Commit(id, _, _) => if s.open[id].condemns then s.open[id].family == o.family else s.open[id].jti == o.jti
    case SignOut(user, None, _) => o.jti in s.rows && s.rows[o.jti].user == user
    case SignOut(_, Some(t), now) => Decodes(t, now) && t.jti in s.rows && s.rows[t.jti].family == o.family
    case _ => false
  }

  ghost function OpenStep(s: State, a: Step): map<nat, Refreshing>
    requires Enabled(s, a)
  {
    var noted := map i | i in s.open :: s.open[i].(overtaken := s.open[i].overtaken || Overtakes(s, a, s.open[i]));
    match a
    case Read(id, t, now, later, active) =>
      var o := Opened(s.rows, t, now, later, active);
      if o.Some? then noted[id := o.value] else noted
    case Commit(id, _, _) => noted - {id}
    case Abandon(id) => noted - {id}
    case _ => noted
  }

  ghost function Next(s: State, a: Step): State
    requires Enabled(s, a)
  {
    State(RowsStep(s, a), OpenStep(s, a))
  }

  ghost predicate Legal(s: State, run: seq<Step>)
    decreases |run|
  {
    run == [] || (Enabled(s, run[0]) && Legal(Next(s, run[0]), run[1..]))
  }

  /** A refresh that commits as soon as it has read is the atomic exchange. */
  lemma AtOnce(s: State, id: nat, t: Token, now: int, later: int, active: set<string>, jti: string, expires: int)
    requires id !in s.open && jti !in s.rows
    ensures var half := Next(s, Read(id, t, now, later, active));
            var (rows, answer) := DoRefresh(s.rows, t, now, later, active, jti, expires);
            && half.rows == s.rows
            && (id in half.open <==> answer.Granted? || answer.Reuse?)
            && (if id in half.open then Enabled(half, Commit(id, jti, expires)) && Next(half, Commit(id, jti, expires)).rows == rows
                else rows == s.rows)
  {
  }

  // ---- What an open refresh knows ----------------------------------------------------------------------

  ghost predicate Knows(rows: Table, o: Refreshing) {
    && o.jti in rows && rows[o.jti].family == o.family
    && (if o.condemns then rows[o.jti].revoked else o.overtaken <==> rows[o.jti].revoked)
  }

  ghost predicate Inv(s: State) {
    forall i | i in s.open :: Knows(s.rows, s.open[i])
  }

  /** The token is unrevoked exactly until something overtakes the refresh. */
  lemma NotedRight(s: State, a: Step, o: Refreshing)
    requires Enabled(s, a) && Knows(s.rows, o) && Inv(s)
    ensures Knows(RowsStep(s, a), o.(overtaken := o.overtaken || Overtakes(s, a, o)))
  {
  }

  lemma StepKeeps(s: State, a: Step)
    requires Inv(s) && Enabled(s, a)
    ensures Inv(Next(s, a))
  {
    forall i | i in s.open ensures Knows(RowsStep(s, a), s.open[i].(overtaken := s.open[i].overtaken || Overtakes(s, a, s.open[i]))) {
      NotedRight(s, a, s.open[i]);
    }
    hide Overtakes, Handle, Committed, DoLogout, FamilyRevoked;
  }

  // ---- Exactly when rotation is sound --------------------------------------------------------------------

  /** The step commits an exchange. */
  ghost predicate Rotates(s: State, a: Step) {
    a.Commit? && a.id in s.open && !s.open[a.id].condemns
  }

  /** The family has an unrevoked token besides the one exchanged. */
  ghost predicate Rival(rows: Table, o: Refreshing) {
    exists j | j in rows :: j != o.jti && rows[j].family == o.family && !rows[j].revoked
  }

  /** No family has two unrevoked tokens. */
  ghost predicate AlwaysOneLive(s: State, run: seq<Step>)
    requires Legal(s, run)
    decreases |run|
  {
    OneLivePerFamily(s.rows) && (run != [] ==> AlwaysOneLive(Next(s, run[0]), run[1..]))
  }

  ghost predicate NoRivals(s: State, run: seq<Step>)
    requires Legal(s, run)
    decreases |run|
  {
    run == [] || ((Rotates(s, run[0]) ==> !Rival(s.rows, s.open[run[0].id])) && NoRivals(Next(s, run[0]), run[1..]))
  }

  /** No family has two unrevoked tokens, and none that a logout or a detected reuse has ended gets one again. */
  ghost predicate Sound(s: State, run: seq<Step>)
    requires Legal(s, run)
    decreases |run|
  {
    && OneLivePerFamily(s.rows)
    && (run != [] ==>
          && (forall f | Dead(s.rows, f) :: Dead(Next(s, run[0]).rows, f))
          && Sound(Next(s, run[0]), run[1..]))
  }

  /** No exchange commits that was overtaken since its read. */
  ghost predicate NoneOvertaken(s: State, run: seq<Step>)
    requires Legal(s, run)
    decreases |run|
  {
    run == [] || ((Rotates(s, run[0]) ==> !s.open[run[0].id].overtaken) && NoneOvertaken(Next(s, run[0]), run[1..]))
  }

  lemma OneLiveStep(s: State, a: Step)
    requires Inv(s) && Enabled(s, a) && OneLivePerFamily(s.rows)
    ensures OneLivePerFamily(Next(s, a).rows) <==> (Rotates(s, a) ==> !Rival(s.rows, s.open[a.id]))
  {
    if Rotates(s, a) {
      var o, rows' := s.open[a.id], Next(s, a).rows;
      assert a.jti in rows' && rows'[a.jti].family == o.family && !rows'[a.jti].revoked;
      if j :| j in s.rows && j != o.jti && s.rows[j].family == o.family && !s.rows[j].revoked {
        assert rows'[j] == s.rows[j] && j != a.jti;
      }
    }
  }

  /** For every run of any number of concurrent refreshes, logins and logouts: each family keeps at most one
      unrevoked token if and only if no exchange commits while its family has another one. */
  lemma {:induction false} OneLiveExactly(s: State, run: seq<Step>)
    requires Inv(s) && Legal(s, run) && OneLivePerFamily(s.rows)
    ensures AlwaysOneLive(s, run) <==> NoRivals(s, run)
    decreases |run|
  {
    hide Inv, Next, Enabled, OneLivePerFamily, Rival, Rotates;
    if run != [] {
      var s1 := Next(s, run[0]);
      OneLiveStep(s, run[0]);
      StepKeeps(s, run[0]);
      if OneLivePerFamily(s1.rows) {
        OneLiveExactly(s1, run[1..]);
      } else {
        assert !AlwaysOneLive(s1, run[1..]);
      }
    }
  }

  lemma DeadStep(s: State, a: Step, f: string)
    requires Inv(s) && Enabled(s, a) && Dead(s.rows, f)
    ensures Dead(Next(s, a).rows, f) <==> !(Rotates(s, a) && s.open[a.id].family == f)
  {
    var j :| j in s.rows && s.rows[j].family == f;
    assert j in Next(s, a).rows && Next(s, a).rows[j].family == f;
    if Rotates(s, a) && s.open[a.id].family == f {
      assert a.jti in Next(s, a).rows && !Next(s, a).rows[a.jti].revoked;
    }
  }

  /** An exchange that was overtaken finds its family with another unrevoked token or with none; one that was
      not holds the only one. */
  lemma OvertakenExactly(s: State, id: nat)
    requires Inv(s) && OneLivePerFamily(s.rows) && id in s.open && !s.open[id].condemns
    ensures s.open[id].overtaken <==> Rival(s.rows, s.open[id]) || Dead(s.rows, s.open[id].family)
  {
    var o := s.open[id];
    assert Knows(s.rows, o);
  }

  lemma SoundStep(s: State, a: Step)
    requires Inv(s) && Enabled(s, a) && OneLivePerFamily(s.rows)
    ensures OneLivePerFamily(Next(s, a).rows) && (forall f | Dead(s.rows, f) :: Dead(Next(s, a).rows, f)) <==>
            (Rotates(s, a) ==> !s.open[a.id].overtaken)
  {
    OneLiveStep(s, a);
    forall f | Dead(s.rows, f) ensures Dead(Next(s, a).rows, f) <==> !(Rotates(s, a) && s.open[a.id].family == f) {
      DeadStep(s, a, f);
    }
    if Rotates(s, a) {
      OvertakenExactly(s, a.id);
    }
    hide Inv, Next, Enabled, OneLivePerFamily, Rival, Dead;
  }

  /** And it keeps at most one, and never revives an ended family, if and only if no exchange commits after
      another exchange of its token, or a revocation of it, that came between its read and its commit. */
  lemma {:induction false} SoundExactly(s: State, run: seq<Step>)
    requires Inv(s) && Legal(s, run) && OneLivePerFamily(s.rows)
    ensures Sound(s, run) <==> NoneOvertaken(s, run)
    decreases |run|
  {
    hide Inv, Next, Enabled, OneLivePerFamily, Dead, Rotates;
    if run != [] {
      var s1 := Next(s, run[0]);
      SoundStep(s, run[0]);
      StepKeeps(s, run[0]);
      if OneLivePerFamily(s1.rows) {
        SoundExactly(s1, run[1..]);
      } else {
        assert !Sound(s1, run[1..]);
      }
    }
  }

  // ---- Without revocations ----------------------------------------------------------------------------------

  /** The step is no logout and ends no family for a reuse. */
  ghost predicate Peaceful(s: State, a: Step)
    requires Enabled(s, a)
  {
    !a.SignOut? && (a.Commit? ==> !s.open[a.id].condemns)
  }

  ghost predicate PeacefulRun(s: State, run: seq<Step>)
    requires Legal(s, run)
    decreases |run|
  {
    run == [] || (Peaceful(s, run[0]) && PeacefulRun(Next(s, run[0]), run[1..]))
  }

  ghost predicate NoneDead(rows: Table) {
    forall j | j in rows :: !Dead(rows, rows[j].family)
  }

  ghost predicate LiveIn(rows: Table, family: string) {
    exists i | i in rows :: rows[i].family == family && !rows[i].revoked
  }

  lemma DeadHasNoLive(rows: Table, j: string)
    requires j in rows
    ensures Dead(rows, rows[j].family) <==> !LiveIn(rows, rows[j].family)
  {
  }

  lemma LiveStays(s: State, a: Step, f: string)
    requires Inv(s) && Enabled(s, a) && Peaceful(s, a) && LiveIn(s.rows, f)
    ensures LiveIn(Next(s, a).rows, f)
  {
    var i :| i in s.rows && s.rows[i].family == f && !s.rows[i].revoked;
    var rows' := Next(s, a).rows;
    if Rotates(s, a) && s.open[a.id].family == f {
      assert a.jti in rows' && rows'[a.jti].family == f && !rows'[a.jti].revoked;
    } else {
      assert i in rows' && rows'[i] == s.rows[i];
    }
  }

  lemma NoneDies(s: State, a: Step)
    requires Inv(s) && Enabled(s, a) && Peaceful(s, a) && NoneDead(s.rows)
    ensures NoneDead(Next(s, a).rows)
  {
    var rows' := Next(s, a).rows;
    forall j | j in rows' ensures !Dead(rows', rows'[j].family) {
      if j in s.rows {
        DeadHasNoLive(s.rows, j);
        LiveStays(s, a, s.rows[j].family);
      }
      DeadHasNoLive(rows', j);
    }
  }

  /** As long as nothing else revokes tokens, each family keeps at most one unrevoked token exactly if no two
      exchanges of one token overlap: none commits when another one has committed since its read. */
  lemma {:induction false} OneLiveWithoutOverlap(s: State, run: seq<Step>)
    requires Inv(s) && Legal(s, run) && PeacefulRun(s, run) && OneLivePerFamily(s.rows) && NoneDead(s.rows)
    ensures AlwaysOneLive(s, run) <==> NoneOvertaken(s, run)
    decreases |run|
  {
    hide Inv, Next, Enabled, OneLivePerFamily, Rival, Dead, Peaceful;
    if run != [] {
      var a, s1 := run[0], Next(s, run[0]);
      OneLiveStep(s, a);
      StepKeeps(s, a);
      NoneDies(s, a);
      if Rotates(s, a) {
        OvertakenExactly(s, a.id);
        NotDeadNow(s, a.id);
      }
      if OneLivePerFamily(s1.rows) {
        OneLiveWithoutOverlap(s1, run[1..]);
      } else {
        assert !AlwaysOneLive(s1, run[1..]);
      }
    }
  }

  lemma NotDeadNow(s: State, id: nat)
    requires Inv(s) && id in s.open && NoneDead(s.rows)
    ensures !Dead(s.rows, s.open[id].family)
  {
    hide Dead;
    assert Knows(s.rows, s.open[id]);
  }

  // ---- The two ways it goes wrong --------------------------------------------------------------------------

  /** Two refreshes of one live token that overlap are both granted, and leave two unrevoked tokens. */
  lemma TwoRefreshesRace(rows: Table, t: Token, now: int, later: int, active: set<string>, jti1: string, jti2: string, expires: int)
    requires Opened(rows, t, now, later, active).Some? && !Opened(rows, t, now, later, active).value.condemns
    requires jti1 !in rows && jti2 !in rows && jti1 != jti2
    ensures var s1 := Next(State(rows, map[]), Read(1, t, now, later, active));
            var s2 := Next(s1, Read(2, t, now, later, active));
            var s3 := Next(s2, Commit(1, jti1, expires));
            && Enabled(s3, Commit(2, jti2, expires)) && s3.open[2].overtaken
            && var end := Next(s3, Commit(2, jti2, expires)).rows;
               jti1 in end && jti2 in end && !end[jti1].revoked && !end[jti2].revoked && end[jti1].family == end[jti2].family
  {
  }

  /** A refresh that overlaps a logout brings the family back to life. */
  lemma LogoutIsOutlived(rows: Table, t: Token, now: int, later: int, active: set<string>, user: string, jti: string, expires: int)
    requires Opened(rows, t, now, later, active).Some? && !Opened(rows, t, now, later, active).value.condemns
    requires jti !in rows
    ensures var s1 := Next(State(rows, map[]), Read(1, t, now, later, active));
            var s2 := Next(s1, SignOut(user, Some(t), now));
            && Dead(s2.rows, rows[t.jti].family) && Enabled(s2, Commit(1, jti, expires))
            && !Dead(Next(s2, Commit(1, jti, expires)).rows, rows[t.jti].family)
  {
    var s1 := Next(State(rows, map[]), Read(1, t, now, later, active));
    var s2 := Next(s1, SignOut(user, Some(t), now));
    assert t.jti in s2.rows && s2.rows[t.jti].family == rows[t.jti].family;
    var end := Next(s2, Commit(1, jti, expires)).rows;
    assert jti in end && !end[jti].revoked;
  }
}
