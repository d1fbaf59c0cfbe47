/** The schema runner as it works on the database: the stored tables and the report are changed in place. */
module MigrationRunner {
  import opened Wrappers
  import opened Migrations

  class Runner {
    var tables: Tables
    var versions: Option<seq<Revision>>

    // the report of the last run
    var ready: bool
    var stateBefore: Option<State>
    var repair: Option<Repair>
    var archived: Option<Storage>

    constructor (s: Storage)
      ensures Held() == s && !ready
    {
      tables, versions := s.tables, s.versions;
      ready, stateBefore, repair, archived := false, None, None, None;
    }

    ghost function Held(): Storage
      reads this
    {
      Storage(tables, versions)
    }

    /** Counts the rows of the required tables that exist, and lists the ones that have any. */
    method CountRows() returns (total: nat, populated: seq<Table>)
      ensures total == RowsIn(tables, REQUIRED_LIST)
      ensures forall t :: t in populated <==> t in REQUIRED_LIST && t in tables && tables[t].rows > 0
      ensures total == 0 <==> populated == []
    {
      total, populated := 0, [];
      for i := 0 to |REQUIRED_LIST|
        invariant total == RowsIn(tables, REQUIRED_LIST[..i])
        invariant forall t :: t in populated <==> t in REQUIRED_LIST[..i] && t in tables && tables[t].rows > 0
        invariant total == 0 <==> populated == []
      {
        var t := REQUIRED_LIST[i];
        assert REQUIRED_LIST[..i + 1] == REQUIRED_LIST[..i] + [t];
        assert REQUIRED_LIST[..i + 1][..i] == REQUIRED_LIST[..i];
        if t in tables {
          total := total + tables[t].rows;
          if tables[t].rows > 0 {
            populated := populated + [t];
          }
        }
      }
      assert REQUIRED_LIST[..|REQUIRED_LIST|] == REQUIRED_LIST;
    }

    /** Runs the pending scripts in one transaction; a failing statement rolls all of them back. */
    method UpgradeToHead() returns (ok: bool)
      requires versions.Some? ==> |versions.value| <= 1
      modifies this`tables, this`versions
      ensures ok == Upgraded(old(Held())).Some?
      ensures Held() == if ok then Upgraded(old(Held())).value else old(Held())
    {
      var k := -1;
      if versions.Some? && |versions.value| == 1 {
        k := Rank(versions.value[0]);
        if k > LAST {
          return false;
        }
      }
      var pending := Pending(k);
      var working := tables;
      var i := 0;
      while i < |pending|
        invariant 0 <= i <= |pending|
        invariant ApplyAll(tables, pending) == ApplyAll(working, pending[i..])
      {
        var next := Apply(working, pending[i]);
        assert pending[i..][1..] == pending[i + 1..];
        if next.None? {
          return false;
        }
        working := next.value;
        i := i + 1;
      }
      tables, versions := working, Some([HEAD]);
      return true;
    }

    /** Takes the named tables out of the schema one by one. */
    method MoveTables(names: seq<Table>, ghost required: set<Table>) returns (aside: Tables)
      requires Lists(names, required)
      modifies this`tables
      ensures tables == old(tables) - required
      ensures aside == Extract(old(tables), required)
    {
      aside := map[];
      for i := 0 to |names|
        invariant forall t :: t in tables <==> t in old(tables) && t !in names[..i]
        invariant forall t :: t in aside <==> t in old(tables) && t in names[..i]
        invariant forall t | t in tables :: tables[t] == old(tables)[t]
        invariant forall t | t in aside :: aside[t] == old(tables)[t]
      {
        var t := names[i];
        assert names[..i + 1] == names[..i] + [t];
        if t in tables {
          aside := aside[t := tables[t]];
          tables := tables - {t};
        }
      }
      assert names[..|names|] == names;
    }

    method MoveRequired() returns (aside: Tables)
      modifies this`tables
      ensures tables == old(tables) - REQUIRED_TABLES
      ensures aside == Extract(old(tables), REQUIRED_TABLES)
    {
      hide Extract, Lists;
      ListIsRequired();
      aside := MoveTables(REQUIRED_LIST, REQUIRED_TABLES);
    }

    /** Moves the storage aside and leaves the schema ready to be built anew. */
    method Archive(inPublic: bool)
      modifies this
      ensures Held() == Kept(inPublic, old(Held())) && archived == Some(Moved(inPublic, old(Held())))
      ensures repair == Some(ArchivedAndRebuilt) && ready == old(ready) && stateBefore == old(stateBefore)
    {
      var aside := tables;
      if inPublic {
        aside := MoveRequired();
      } else {
        tables := map[];
      }
      archived := Some(Storage(aside, versions));
      versions := None;
      repair := Some(ArchivedAndRebuilt);
    }

    method RebuildIfEmpty(inPublic: bool) returns (v: Verdict)
      requires archived.None? && repair.None?
      modifies this
      ensures Outcome(Held(), archived, repair, v) == Rebuild(inPublic, old(Held()))
      ensures stateBefore == old(stateBefore) && ready == old(ready)
    {
      var total, _ := CountRows();
      if total != 0 {
        return Failed(ManualRepairRequired);
      }
      Archive(inPublic);
      v := UpgradeAndValidate();
    }

    /** `alembic upgrade head`, then the final validation. */
    method UpgradeAndValidate() returns (v: Verdict)
      requires versions.Some? ==> |versions.value| <= 1
      modifies this`tables, this`versions
      ensures v == (match Upgraded(old(Held()))
                    case None => Failed(MigrationFailed)
                    case Some(s) => if RevisionOf(s) == Some(HEAD) && NothingMissing(s.tables) then Ready
                                    else Failed(ValidationFailed))
      ensures Held() == if Upgraded(old(Held())).Some? then Upgraded(old(Held())).value else old(Held())
    {
      var ok := UpgradeToHead();
      if !ok {
        return Failed(MigrationFailed);
      }
      return if NothingMissing(tables) then Ready else Failed(ValidationFailed);
    }

    /** One start-up: inspect, decide, repair, validate. */
    method RunMigrations(inPublic: bool) returns (v: Verdict)
      modifies this
      ensures Outcome(Held(), archived, repair, v) == Run(inPublic, old(Held()))
      ensures ready <==> v.Ready?
      ensures ready ==> RevisionOf(Held()) == Some(HEAD) && NothingMissing(tables)
      ensures !v.Ready? && archived.None? ==> tables == old(tables)
    {
      ready, stateBefore, repair, archived := false, None, None, None;
      if versions.Some? && |versions.value| > 1 {
        return Failed(StateInvalid);
      }
      ghost var before := Held();
      v := Decide(inPublic);
      ready := v.Ready?;
      if v.Ready? {
        ReadyMeansComplete(inPublic, before);
      } else if archived.None? {
        FailureKeepsTables(inPublic, before);
      }
    }

    method Decide(inPublic: bool) returns (v: Verdict)
      requires versions.Some? ==> |versions.value| <= 1
      requires repair.None? && archived.None?
      modifies this
      ensures Outcome(Held(), archived, repair, v) == Run(inPublic, old(Held()))
    {
      var revision := if versions.Some? && |versions.value| == 1 then Some(versions.value[0]) else None;
      var state := StateOf(Storage(tables, versions));
      stateBefore := Some(state);
      var inferred := ExactKnownRevision(tables);
      hide Upgraded, ExactKnownRevision, Rebuild, NothingMissing;
      if state.Complete? {
        return Ready;
      } else if state.Empty? {
        v := UpgradeAndValidate();
      } else if state.Unversioned? {
        if inferred.Some? {
          versions := Some([inferred.value]);
          v := UpgradeAndValidate();
          if v != Failed(MigrationFailed) {
            repair := Some(AdoptedUnversioned);
          }
        } else {
          v := RebuildIfEmpty(inPublic);
        }
      } else if revision.value.Foreign? {
        v := RebuildIfEmpty(inPublic);
      } else if revision != Some(HEAD) && inferred == revision {
        v := UpgradeAndValidate();
      } else if state.HeadIncomplete? || state.VersionedIncomplete? {
        v := RebuildIfEmpty(inPublic);
      } else {
        v := UpgradeAndValidate();
      }
    }
  }

  ghost predicate Lists(names: seq<Table>, required: set<Table>) {
    forall t :: t in required <==> t in names
  }

  lemma ListIsRequired()
    ensures Lists(REQUIRED_LIST, REQUIRED_TABLES)
  {
  }

  /** A run that fails leaves every table as it was. */
  lemma FailureKeepsTables(inPublic: bool, s: Storage)
    requires !Run(inPublic, s).verdict.Ready?
    ensures Run(inPublic, s).archived.None? && Run(inPublic, s).storage.tables == s.tables
  {
    if s.versions.Some? && |s.versions.value| > 1 {
    } else if Recognised(s) {
      RecognisedIsReady(inPublic, s);
    } else if Stuck(s) {
      StuckFails(inPublic, s);
    } else {
      OtherwiseRebuilds(inPublic, s);
      Rebuilds(inPublic, s);
    }
    hide *;
  }
}
