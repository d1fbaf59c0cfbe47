/** The Control Plane's schema classifier and repair decision over an arbitrary stored schema. Of a table's
    columns only the ones a migration adds later matter; every other column is an `OtherColumn`. */
module Migrations {
  import opened Wrappers

  datatype Table =
    | Companies | CpAuditLogs | EntitlementIssuances | RequestNonces | SigningKeys | VersionPolicy
    | Installations | Licenses | Subscriptions | BillingEvents | MobileDevices | PairingTokens
    | OtherTable(name: string)

  datatype Column =
    | CancelAtPeriodEnd | CurrentPeriodEnd | PendingSeats | PendingSeatsEffectiveAt | GraceStartedAt
    | ProviderSubscriptionId | CredentialHash | ExpectedUserId | ExpectedUserLabel
    | Phone | Address | MatchKey | RecoveryCodeHash | RecoveryCodeEnc
    | OtherColumn(name: string)

  datatype Stored = Stored(columns: set<Column>, rows: nat)

  type Tables = map<Table, Stored>

  /** The migration chain in order; `Foreign` is a revision id that is not in it. */
  datatype Revision =
    | BASELINE | BILLING_EVENTS | SUBSCRIPTION_FIELDS | PAIRING_TABLES | PROVIDER_SUBSCRIPTION
    | DEVICE_CREDENTIAL | USER_BINDING | COMPANY_RECOVERY
    | Foreign(id: string)

  const HEAD := COMPANY_RECOVERY
  const LAST := 7

  function Rank(r: Revision): nat {
    match r
    case BASELINE => 0
    case BILLING_EVENTS => 1
    case SUBSCRIPTION_FIELDS => 2
    case PAIRING_TABLES => 3
    case PROVIDER_SUBSCRIPTION => 4
    case DEVICE_CREDENTIAL => 5
    case USER_BINDING => 6
    case COMPANY_RECOVERY => LAST
    case Foreign(_) => LAST + 1
  }

  // ---- The migration scripts ----------------------------------------------------------------------------

  datatype Change = CreateTable(table: Table) | AddColumn(table: Table, column: Column)

  /** What the k-th revision's script does. */
  function Script(k: nat): (r: seq<Change>)
    ensures k <= LAST ==> r != []
  {
    match k
    case 0 => [CreateTable(Companies), CreateTable(CpAuditLogs), CreateTable(EntitlementIssuances),
               CreateTable(RequestNonces), CreateTable(SigningKeys), CreateTable(VersionPolicy),
               CreateTable(Installations), CreateTable(Licenses), CreateTable(Subscriptions)]
    case 1 => [CreateTable(BillingEvents)]
    case 2 => [AddColumn(Subscriptions, CancelAtPeriodEnd), AddColumn(Subscriptions, CurrentPeriodEnd),
               AddColumn(Subscriptions, PendingSeats), AddColumn(Subscriptions, PendingSeatsEffectiveAt),
               AddColumn(Subscriptions, GraceStartedAt)]
    case 3 => [CreateTable(MobileDevices), CreateTable(PairingTokens)]
    case 4 => [AddColumn(Subscriptions, ProviderSubscriptionId)]
    case 5 => [AddColumn(MobileDevices, CredentialHash)]
    case 6 => [AddColumn(PairingTokens, ExpectedUserId), AddColumn(PairingTokens, ExpectedUserLabel),
               AddColumn(MobileDevices, ExpectedUserId), AddColumn(MobileDevices, ExpectedUserLabel)]
    case 7 => [AddColumn(Companies, Phone), AddColumn(Companies, Address), AddColumn(Companies, MatchKey),
               AddColumn(Companies, RecoveryCodeHash), AddColumn(Companies, RecoveryCodeEnc)]
    case _ => []
  }

  /** The scripts after revision k, in order; k is -1 for a schema without a revision. */
  function Pending(k: int): seq<Change>
    requires -1 <= k
    decreases LAST - k
  {
    if k >= LAST then [] else Script(k + 1) + Pending(k + 1)
  }

  function Columns(ts: Tables, t: Table): set<Column> {
    if t in ts then ts[t].columns else {}
  }

  /** One DDL statement: PostgreSQL refuses to create what exists or to extend what does not. */
  function Apply(ts: Tables, ch: Change): Option<Tables> {
    match ch
    case CreateTable(t) => if t in ts then None else Some(ts[t := Stored({}, 0)])
    case AddColumn(t, c) =>
      if t !in ts || c in ts[t].columns then None
      else Some(ts[t := ts[t].(columns := ts[t].columns + {c})])
  }

  /** A list of statements in one transaction: all of them, or none. */
  function ApplyAll(ts: Tables, chs: seq<Change>): Option<Tables>
    decreases |chs|
  {
    if chs == [] then Some(ts)
    else
      var next := Apply(ts, chs[0]);
      if next.None? then None else ApplyAll(next.value, chs[1..])
  }

  // ---- The classifier -----------------------------------------------------------------------------------

  const BASELINE_TABLES: set<Table> :=
    {Companies, CpAuditLogs, EntitlementIssuances, RequestNonces, SigningKeys, VersionPolicy, Installations,
     Licenses, Subscriptions}
  const REQUIRED_TABLES: set<Table> := BASELINE_TABLES + {BillingEvents, MobileDevices, PairingTokens}

  const SUBSCRIPTION_COLUMNS: set<Column> :=
    {ProviderSubscriptionId, CancelAtPeriodEnd, CurrentPeriodEnd, PendingSeats, PendingSeatsEffectiveAt, GraceStartedAt}
  const RECOVERY_COLUMNS: set<Column> := {Phone, Address, MatchKey, RecoveryCodeHash, RecoveryCodeEnc}
  const BINDING_COLUMNS: set<Column> := {ExpectedUserId, ExpectedUserLabel}

  function RequiredColumns(t: Table): set<Column> {
    match t
    case Subscriptions => SUBSCRIPTION_COLUMNS
    case MobileDevices => {CredentialHash} + BINDING_COLUMNS
    case PairingTokens => BINDING_COLUMNS
    case Companies => RECOVERY_COLUMNS
    case _ => {}
  }

  predicate NothingMissing(ts: Tables) {
    && REQUIRED_TABLES <= ts.Keys
    && (forall t | t in REQUIRED_TABLES :: RequiredColumns(t) <= Columns(ts, t))
  }

  function ExactKnownRevision(ts: Tables): Option<Revision> {
    if !(BASELINE_TABLES <= ts.Keys) then None
    else
      var fields := SUBSCRIPTION_COLUMNS - {ProviderSubscriptionId};
      var presentFields := fields * Columns(ts, Subscriptions);
      var pairing: set<Table> := {PairingTokens, MobileDevices};
      var presentPairing := pairing * ts.Keys;
      var provider := ProviderSubscriptionId in Columns(ts, Subscriptions);
      var credential := CredentialHash in Columns(ts, MobileDevices);
      var mobile := BINDING_COLUMNS * Columns(ts, MobileDevices);
      var token := BINDING_COLUMNS * Columns(ts, PairingTokens);
      var recovery := RECOVERY_COLUMNS * Columns(ts, Companies);
      if recovery != {} then
        if recovery != RECOVERY_COLUMNS || !(mobile == BINDING_COLUMNS && token == BINDING_COLUMNS) then None
        else Some(COMPANY_RECOVERY)
      else if BillingEvents !in ts then
        if presentFields != {} || presentPairing != {} || provider || credential || mobile != {} || token != {} then None
        else Some(BASELINE)
      else if presentFields != fields then
        if presentFields != {} || presentPairing != {} || provider || credential || mobile != {} || token != {} then None
        else Some(BILLING_EVENTS)
      else if presentPairing != pairing then
        if presentPairing != {} || provider || credential || mobile != {} || token != {} then None
        else Some(SUBSCRIPTION_FIELDS)
      else if !provider then
        if credential || mobile != {} || token != {} then None else Some(PAIRING_TABLES)
      else if !credential then
        if mobile != {} || token != {} then None else Some(PROVIDER_SUBSCRIPTION)
      else if mobile != {} || token != {} then
        if mobile == BINDING_COLUMNS && token == BINDING_COLUMNS then Some(USER_BINDING) else None
      else Some(DEVICE_CREDENTIAL)
  }

  // ---- What the classifier means --------------------------------------------------------------------------

  predicate Present(ts: Tables, ch: Change) {
    match ch
    case CreateTable(t) => t in ts
    case AddColumn(t, c) => c in Columns(ts, t)
  }

  /** The schema holds what the scripts up to revision k leave behind, and nothing a later script adds. */
  ghost predicate AtRevision(ts: Tables, k: int) {
    forall j: nat, ch | j <= LAST && ch in Script(j) :: Present(ts, ch) <==> j <= k
  }

  ghost predicate Whole(ts: Tables, j: nat) { forall ch | ch in Script(j) :: Present(ts, ch) }

  ghost predicate Absent(ts: Tables, j: nat) { forall ch | ch in Script(j) :: !Present(ts, ch) }

  ghost predicate Reached(ts: Tables, k: int, j: nat) {
    if j <= k then Whole(ts, j) else Absent(ts, j)
  }

  lemma ByScript(ts: Tables, k: int)
    ensures AtRevision(ts, k) <==>
            && Reached(ts, k, 0) && Reached(ts, k, 1) && Reached(ts, k, 2) && Reached(ts, k, 3)
            && Reached(ts, k, 4) && Reached(ts, k, 5) && Reached(ts, k, 6) && Reached(ts, k, 7)
  {
  }

  /** A set of markers is wholly present, or wholly absent, as its overlap with the columns found says. */
  lemma Overlap<T>(markers: set<T>, found: set<T>)
    ensures markers * found == markers <==> forall x | x in markers :: x in found
    ensures markers * found == {} <==> forall x | x in markers :: x !in found
  {
    if forall x | x in markers :: x in found {
      assert markers * found == markers;
    } else {
      var x :| x in markers && x !in found;
      assert x !in markers * found;
    }
    if x :| x in markers && x in found {
      assert x in markers * found;
    }
  }

  lemma TablesOnly(ts: Tables, j: nat, names: set<Table>)
    requires forall ch :: ch in Script(j) <==> ch.CreateTable? && ch.table in names
    ensures Whole(ts, j) <==> names * ts.Keys == names
    ensures Absent(ts, j) <==> names * ts.Keys == {}
  {
    Overlap(names, ts.Keys);
    assert forall t :: CreateTable(t) in Script(j) <==> t in names;
    hide Script;
  }

  lemma ColumnsOnly(ts: Tables, j: nat, t: Table, names: set<Column>)
    requires forall ch :: ch in Script(j) <==> ch.AddColumn? && ch.table == t && ch.column in names
    ensures Whole(ts, j) <==> names * Columns(ts, t) == names
    ensures Absent(ts, j) <==> names * Columns(ts, t) == {}
  {
    Overlap(names, Columns(ts, t));
    assert forall c :: AddColumn(t, c) in Script(j) <==> c in names;
    hide Script;
  }

  lemma BaselineScript(ts: Tables)
    ensures Whole(ts, 0) <==> BASELINE_TABLES <= ts.Keys
  {
    assert forall ch :: ch in Script(0) <==> ch.CreateTable? && ch.table in BASELINE_TABLES;
    assert forall t :: CreateTable(t) in Script(0) <==> t in BASELINE_TABLES;
    hide Script;
  }

  lemma TableScripts(ts: Tables)
    ensures Whole(ts, 0) <==> BASELINE_TABLES <= ts.Keys
    ensures Whole(ts, 1) <==> BillingEvents in ts
    ensures Absent(ts, 1) <==> BillingEvents !in ts
    ensures Whole(ts, 3) <==> {PairingTokens, MobileDevices} * ts.Keys == {PairingTokens, MobileDevices}
    ensures Absent(ts, 3) <==> {PairingTokens, MobileDevices} * ts.Keys == {}
  {
    hide Whole, Absent;
    BaselineScript(ts);
    TablesOnly(ts, 1, {BillingEvents});
    TablesOnly(ts, 3, {PairingTokens, MobileDevices});
    assert BillingEvents in ts ==> {BillingEvents} * ts.Keys == {BillingEvents};
    hide Script;
  }

  lemma SubscriptionScripts(ts: Tables)
    ensures var fields := SUBSCRIPTION_COLUMNS - {ProviderSubscriptionId};
            var found := fields * Columns(ts, Subscriptions);
            (Whole(ts, 2) <==> found == fields) && (Absent(ts, 2) <==> found == {})
    ensures Whole(ts, 4) <==> ProviderSubscriptionId in Columns(ts, Subscriptions)
    ensures Absent(ts, 4) <==> ProviderSubscriptionId !in Columns(ts, Subscriptions)
  {
    hide Whole, Absent;
    ColumnsOnly(ts, 2, Subscriptions, SUBSCRIPTION_COLUMNS - {ProviderSubscriptionId});
    assert ProviderSubscriptionId in Columns(ts, Subscriptions) ==>
        {ProviderSubscriptionId} * Columns(ts, Subscriptions) == {ProviderSubscriptionId};
    ColumnsOnly(ts, 4, Subscriptions, {ProviderSubscriptionId});
  }

  lemma BindingScript(ts: Tables)
    ensures var mobile := BINDING_COLUMNS * Columns(ts, MobileDevices);
            var token := BINDING_COLUMNS * Columns(ts, PairingTokens);
            && (Whole(ts, 6) <==> mobile == BINDING_COLUMNS && token == BINDING_COLUMNS)
            && (Absent(ts, 6) <==> mobile == {} && token == {})
  {
    Overlap(BINDING_COLUMNS, Columns(ts, MobileDevices));
    Overlap(BINDING_COLUMNS, Columns(ts, PairingTokens));
    assert forall c :: AddColumn(MobileDevices, c) in Script(6) <==> c in BINDING_COLUMNS;
    assert forall c :: AddColumn(PairingTokens, c) in Script(6) <==> c in BINDING_COLUMNS;
    assert forall ch | ch in Script(6) :: ch.AddColumn? && ch.table in {MobileDevices, PairingTokens};
    hide Script;
  }

  lemma LateScripts(ts: Tables)
    ensures Whole(ts, 5) <==> CredentialHash in Columns(ts, MobileDevices)
    ensures Absent(ts, 5) <==> CredentialHash !in Columns(ts, MobileDevices)
    ensures Whole(ts, 7) <==> RECOVERY_COLUMNS * Columns(ts, Companies) == RECOVERY_COLUMNS
    ensures Absent(ts, 7) <==> RECOVERY_COLUMNS * Columns(ts, Companies) == {}
  {
    hide Whole, Absent;
    assert CredentialHash in Columns(ts, MobileDevices) ==>
        {CredentialHash} * Columns(ts, MobileDevices) == {CredentialHash};
    ColumnsOnly(ts, 5, MobileDevices, {CredentialHash});
    ColumnsOnly(ts, 7, Companies, RECOVERY_COLUMNS);
  }

  /** The hard-coded tests of the classifier, read as statements about the scripts. */
  lemma Scripts(ts: Tables)
    ensures var fields := SUBSCRIPTION_COLUMNS - {ProviderSubscriptionId};
            var found := fields * Columns(ts, Subscriptions);
            var mobile := BINDING_COLUMNS * Columns(ts, MobileDevices);
            var token := BINDING_COLUMNS * Columns(ts, PairingTokens);
            var pairing: set<Table> := {PairingTokens, MobileDevices};
            && (Whole(ts, 0) <==> BASELINE_TABLES <= ts.Keys)
            && (Whole(ts, 1) <==> BillingEvents in ts) && (Absent(ts, 1) <==> BillingEvents !in ts)
            && (Whole(ts, 2) <==> found == fields) && (Absent(ts, 2) <==> found == {})
            && (Whole(ts, 3) <==> pairing * ts.Keys == pairing) && (Absent(ts, 3) <==> pairing * ts.Keys == {})
            && (Whole(ts, 4) <==> ProviderSubscriptionId in Columns(ts, Subscriptions))
            && (Absent(ts, 4) <==> ProviderSubscriptionId !in Columns(ts, Subscriptions))
            && (Whole(ts, 5) <==> CredentialHash in Columns(ts, MobileDevices))
            && (Absent(ts, 5) <==> CredentialHash !in Columns(ts, MobileDevices))
            && (Whole(ts, 6) <==> mobile == BINDING_COLUMNS && token == BINDING_COLUMNS)
            && (Absent(ts, 6) <==> mobile == {} && token == {})
            && (Whole(ts, 7) <==> RECOVERY_COLUMNS * Columns(ts, Companies) == RECOVERY_COLUMNS)
            && (Absent(ts, 7) <==> RECOVERY_COLUMNS * Columns(ts, Companies) == {})
  {
    hide Whole, Absent, Script, Columns;
    TableScripts(ts);
    SubscriptionScripts(ts);
    BindingScript(ts);
    LateScripts(ts);
  }

  /** For a schema with the baseline tables and no company-recovery column, the classifier names revision r
      exactly when the markers present are those of the scripts up to r; otherwise it names nothing. */
  lemma ClassifierIsExact(ts: Tables, r: Revision)
    requires BASELINE_TABLES <= ts.Keys && RECOVERY_COLUMNS * Columns(ts, Companies) == {}
    ensures ExactKnownRevision(ts) == Some(r) <==> Rank(r) < LAST && AtRevision(ts, Rank(r))
  {
    hide Whole, Absent, AtRevision, Script, Columns, Present, ExactKnownRevision;
    LadderIs(ts);
    ByScript(ts, Rank(r));
    Apart(ts);
    LadderExact(ts, r);
  }

  lemma LadderExact(ts: Tables, r: Revision)
    requires Whole(ts, 0) && Absent(ts, 7)
    requires forall j: nat | j <= LAST :: !(Whole(ts, j) && Absent(ts, j))
    requires forall j | j in {1, 4, 5} :: Whole(ts, j) || Absent(ts, j)
    ensures Ladder(ts) == Some(r) <==>
            && Rank(r) < LAST
            && Reached(ts, Rank(r), 1) && Reached(ts, Rank(r), 2) && Reached(ts, Rank(r), 3)
            && Reached(ts, Rank(r), 4) && Reached(ts, Rank(r), 5) && Reached(ts, Rank(r), 6)
  {
    hide Whole, Absent;
    assert Whole(ts, 1) || Absent(ts, 1);
    assert Whole(ts, 4) || Absent(ts, 4);
    assert Whole(ts, 5) || Absent(ts, 5);
  }

  /** The classifier's ladder read as statements about the scripts. */
  ghost function Ladder(ts: Tables): Option<Revision> {
    var none5 := Absent(ts, 5) && Absent(ts, 6);
    var none3 := Absent(ts, 3) && Absent(ts, 4) && none5;
    if !Whole(ts, 1) then if Absent(ts, 2) && none3 then Some(BASELINE) else None
    else if !Whole(ts, 2) then if Absent(ts, 2) && none3 then Some(BILLING_EVENTS) else None
    else if !Whole(ts, 3) then if none3 then Some(SUBSCRIPTION_FIELDS) else None
    else if !Whole(ts, 4) then if none5 then Some(PAIRING_TABLES) else None
    else if !Whole(ts, 5) then if Absent(ts, 6) then Some(PROVIDER_SUBSCRIPTION) else None
    else if !Absent(ts, 6) then if Whole(ts, 6) then Some(USER_BINDING) else None
    else Some(DEVICE_CREDENTIAL)
  }

  lemma LadderIs(ts: Tables)
    requires BASELINE_TABLES <= ts.Keys && RECOVERY_COLUMNS * Columns(ts, Companies) == {}
    ensures ExactKnownRevision(ts) == Ladder(ts) && Whole(ts, 0) && Absent(ts, 7)
  {
    Scripts(ts);
    hide Whole, Absent, Script, Columns;
  }

  /** No script is both there and absent; those that leave a single thing are one or the other. */
  lemma Apart(ts: Tables)
    ensures forall j: nat | j <= LAST :: !(Whole(ts, j) && Absent(ts, j))
    ensures forall j | j in {1, 4, 5} :: Whole(ts, j) || Absent(ts, j)
  {
    Scripts(ts);
    assert CancelAtPeriodEnd in SUBSCRIPTION_COLUMNS - {ProviderSubscriptionId} && ExpectedUserId in BINDING_COLUMNS;
    forall j: nat | j <= LAST ensures !(Whole(ts, j) && Absent(ts, j)) {
      assert Script(j)[0] in Script(j);
    }
    hide Whole, Absent, Script, Columns;
  }

  /** With a company-recovery column present the classifier looks at nothing but the recovery and binding
      columns, whatever else is missing. */
  lemma RecoveryShortcut(ts: Tables)
    requires BASELINE_TABLES <= ts.Keys && RECOVERY_COLUMNS * Columns(ts, Companies) != {}
    ensures ExactKnownRevision(ts) == if Whole(ts, 6) && Whole(ts, 7) then Some(HEAD) else None
  {
    Scripts(ts);
    hide Whole, Absent, Script, Columns;
  }

  /** The required tables and columns listed by hand are exactly what the migration chain builds. */
  lemma RequiredIsWhatTheChainBuilds(ts: Tables)
    ensures NothingMissing(ts) <==> AtRevision(ts, LAST)
  {
    Scripts(ts);
    ByScript(ts, LAST);
    Overlap(SUBSCRIPTION_COLUMNS - {ProviderSubscriptionId}, Columns(ts, Subscriptions));
    Overlap(RECOVERY_COLUMNS, Columns(ts, Companies));
    Overlap(BINDING_COLUMNS, Columns(ts, MobileDevices));
    Overlap(BINDING_COLUMNS, Columns(ts, PairingTokens));
    Overlap({PairingTokens, MobileDevices}, ts.Keys);
    hide Whole, Absent, AtRevision, Script, Present, Columns, NothingMissing;
    NothingMissingAt(ts);
  }

  lemma NothingMissingAt(ts: Tables)
    ensures NothingMissing(ts) <==>
            && REQUIRED_TABLES <= ts.Keys
            && RequiredColumns(Subscriptions) <= Columns(ts, Subscriptions)
            && RequiredColumns(MobileDevices) <= Columns(ts, MobileDevices)
            && RequiredColumns(PairingTokens) <= Columns(ts, PairingTokens)
            && RequiredColumns(Companies) <= Columns(ts, Companies)
  {
    hide Columns;
  }

  // ---- Upgrading ------------------------------------------------------------------------------------------

  /** No table of `ts` is gone, emptied or narrowed in `us`. */
  ghost predicate Grows(ts: Tables, us: Tables) {
    forall t | t in ts :: t in us && ts[t].columns <= us[t].columns && us[t].rows == ts[t].rows
  }

  lemma {:induction false} ApplyFresh(ts: Tables, chs: seq<Change>)
    requires forall ch | ch in chs :: !Present(ts, ch) && (ch.AddColumn? ==> ch.table in ts)
    requires forall i, j | 0 <= i < j < |chs| :: chs[i] != chs[j]
    ensures ApplyAll(ts, chs).Some? && Grows(ts, ApplyAll(ts, chs).value)
    ensures forall ch :: Present(ApplyAll(ts, chs).value, ch) <==> Present(ts, ch) || ch in chs
    decreases |chs|
  {
    if chs != [] {
      var next := Apply(ts, chs[0]).value;
      assert forall ch :: Present(next, ch) <==> Present(ts, ch) || ch == chs[0];
      assert forall ch | ch in chs[1..] :: ch in chs && ch != chs[0];
      ApplyFresh(next, chs[1..]);
      assert chs == [chs[0]] + chs[1..];
    }
  }

  lemma {:induction false} ApplySplits(ts: Tables, xs: seq<Change>, ys: seq<Change>)
    ensures ApplyAll(ts, xs + ys) ==
            if ApplyAll(ts, xs).None? then None else ApplyAll(ApplyAll(ts, xs).value, ys)
    decreases |xs|
  {
    if xs == [] {
      assert xs + ys == ys;
    } else {
      assert (xs + ys)[1..] == xs[1..] + ys;
      if Apply(ts, xs[0]).Some? {
        ApplySplits(Apply(ts, xs[0]).value, xs[1..], ys);
      }
    }
  }

  /** The revision whose script makes the change. */
  ghost function Introduced(ch: Change): nat {
    match ch
    case CreateTable(t) =>
      (match t
       case BillingEvents => 1
       case MobileDevices => 3
       case PairingTokens => 3
       case OtherTable(_) => LAST + 1
       case _ => 0)
    case AddColumn(t, c) =>
      if t == Companies then 7
      else if t == Subscriptions then if c == ProviderSubscriptionId then 4 else 2
      else if t == MobileDevices && c == CredentialHash then 5 else 6
  }

  lemma ScriptShape(j: nat, ch: Change)
    requires j <= LAST && ch in Script(j)
    ensures Introduced(ch) == j && !ch.table.OtherTable?
    ensures ch.AddColumn? ==> Introduced(CreateTable(ch.table)) < j
  {
  }

  lemma TablesAreCreated(t: Table)
    requires !t.OtherTable?
    ensures CreateTable(t) in Script(Introduced(CreateTable(t)))
  {
  }

  lemma ScriptDistinct(j: nat)
    requires j <= LAST
    ensures forall a, b | 0 <= a < b < |Script(j)| :: Script(j)[a] != Script(j)[b]
  {
  }

  lemma NextScriptIsFresh(ts: Tables, k: int, ch: Change)
    requires -1 <= k < LAST && AtRevision(ts, k) && ch in Script(k + 1)
    ensures !Present(ts, ch) && (ch.AddColumn? ==> ch.table in ts)
  {
    hide Script, Introduced, Present;
    ScriptShape(k + 1, ch);
    if ch.AddColumn? {
      TablesAreCreated(ch.table);
      assert Present(ts, CreateTable(ch.table));
      HasTable(ts, ch.table);
    }
  }

  lemma NextRevision(ts: Tables, us: Tables, k: int)
    requires -1 <= k < LAST && AtRevision(ts, k)
    requires forall ch :: Present(us, ch) <==> Present(ts, ch) || ch in Script(k + 1)
    ensures AtRevision(us, k + 1)
  {
    hide Script, Introduced, Present;
    forall j: nat, ch | j <= LAST && ch in Script(j) ensures Present(us, ch) <==> j <= k + 1 {
      ScriptShape(j, ch);
      if ch in Script(k + 1) {
        ScriptShape(k + 1, ch);
      }
    }
  }

  lemma OneStepUp(ts: Tables, k: int)
    requires -1 <= k < LAST && AtRevision(ts, k)
    ensures var up := ApplyAll(ts, Script(k + 1));
            up.Some? && AtRevision(up.value, k + 1) && Grows(ts, up.value)
  {
    hide Script, Introduced, Present, Grows, ApplyAll, AtRevision;
    ScriptDistinct(k + 1);
    forall ch | ch in Script(k + 1) ensures !Present(ts, ch) && (ch.AddColumn? ==> ch.table in ts) {
      NextScriptIsFresh(ts, k, ch);
    }
    ApplyFresh(ts, Script(k + 1));
    NextRevision(ts, ApplyAll(ts, Script(k + 1)).value, k);
  }

  lemma HasTable(ts: Tables, t: Table)
    ensures Present(ts, CreateTable(t)) <==> t in ts
  {
  }

  /** From any schema at revision k the remaining scripts run without hitting a table or column that already
      exists, build everything required, and keep every table, column and row there was. */
  lemma {:induction false} UpgradeCompletes(ts: Tables, k: int)
    requires -1 <= k <= LAST && AtRevision(ts, k)
    ensures var up := ApplyAll(ts, Pending(k));
            up.Some? && NothingMissing(up.value) && AtRevision(up.value, LAST) && Grows(ts, up.value)
    decreases LAST - k
  {
    hide Script, AtRevision, NothingMissing;
    if k == LAST {
      RequiredIsWhatTheChainBuilds(ts);
    } else {
      OneStepUp(ts, k);
      ApplySplits(ts, Script(k + 1), Pending(k + 1));
      UpgradeCompletes(ApplyAll(ts, Script(k + 1)).value, k + 1);
    }
  }

  /** A script list that makes a change the schema already has fails as a whole. */
  lemma {:induction false} PresentBlocks(ts: Tables, chs: seq<Change>, ch: Change)
    requires ch in chs && Present(ts, ch)
    ensures ApplyAll(ts, chs).None?
    decreases |chs|
  {
    if chs[0] != ch && Apply(ts, chs[0]).Some? {
      PresentBlocks(Apply(ts, chs[0]).value, chs[1..], ch);
    }
  }

  lemma {:induction false} HeadIsPending(k: int)
    requires -1 <= k < LAST
    ensures AddColumn(Companies, Phone) in Pending(k)
    decreases LAST - k
  {
  }

  lemma NothingRequiredStarts(ts: Tables)
    requires REQUIRED_TABLES !! ts.Keys
    ensures AtRevision(ts, -1)
  {
  }

  // ---- One run of the repair decision ---------------------------------------------------------------------

  /** A schema and its `alembic_version` table, if it has one, with that table's rows. */
  datatype Storage = Storage(tables: Tables, versions: Option<seq<Revision>>)

  datatype State = Empty | Complete | Unversioned | HeadIncomplete | VersionedIncomplete | UpgradeRequired

  datatype Repair = AdoptedUnversioned | ArchivedAndRebuilt

  datatype Code = StateInvalid | ManualRepairRequired | ValidationFailed | MigrationFailed

  datatype Verdict = Ready | Failed(code: Code)

  datatype Outcome = Outcome(storage: Storage, archived: Option<Storage>, repair: Option<Repair>, verdict: Verdict)

  const REQUIRED_LIST: seq<Table> :=
    [BillingEvents, Companies, CpAuditLogs, EntitlementIssuances, Installations, Licenses, MobileDevices,
     PairingTokens, RequestNonces, SigningKeys, Subscriptions, VersionPolicy]

  /** Rows in the required tables that exist. */
  function RowsIn(ts: Tables, list: seq<Table>): nat {
    if list == [] then 0
    else RowsIn(ts, list[..|list| - 1]) + (var t := list[|list| - 1]; if t in ts then ts[t].rows else 0)
  }

  function RevisionOf(s: Storage): Option<Revision> {
    if s.versions.Some? && |s.versions.value| == 1 then Some(s.versions.value[0]) else None
  }

  function StateOf(s: Storage): State {
    var rev := RevisionOf(s);
    if REQUIRED_TABLES * s.tables.Keys == {} && rev.None? then Empty
    else if rev == Some(HEAD) && NothingMissing(s.tables) then Complete
    else if rev.None? then Unversioned
    else if rev == Some(HEAD) then HeadIncomplete
    else if NothingMissing(s.tables) then UpgradeRequired
    else VersionedIncomplete
  }

  /** `alembic upgrade head`, in one transaction. */
  function Upgraded(s: Storage): Option<Storage> {
    var k := if RevisionOf(s).None? then -1 else Rank(RevisionOf(s).value);
    if k > LAST then None
    else
      var ts := ApplyAll(s.tables, Pending(k));
      if ts.None? then None else Some(Storage(ts.value, Some([HEAD])))
  }

  /** What stays in place when the storage is archived: in `public` only the required tables and the version
      table move; any other schema is renamed as a whole and created anew. */
  function Kept(inPublic: bool, s: Storage): Storage {
    Storage(if inPublic then s.tables - REQUIRED_TABLES else map[], None)
  }

  function Extract(ts: Tables, names: set<Table>): Tables {
    map t | t in ts && t in names :: ts[t]
  }

  function Moved(inPublic: bool, s: Storage): Storage {
    if inPublic then s.(tables := Extract(s.tables, REQUIRED_TABLES)) else s
  }

  function Validated(before: Storage, up: Option<Storage>, archived: Option<Storage>, repair: Option<Repair>): Outcome {
    match up
    case None => Outcome(before, archived, if archived.Some? then repair else None, Failed(MigrationFailed))
    case Some(s) =>
      Outcome(s, archived, repair,
              if RevisionOf(s) == Some(HEAD) && NothingMissing(s.tables) then Ready else Failed(ValidationFailed))
  }

  function Rebuild(inPublic: bool, s: Storage): Outcome {
    if RowsIn(s.tables, REQUIRED_LIST) != 0 then Outcome(s, None, None, Failed(ManualRepairRequired))
    else
      var kept := Kept(inPublic, s);
      Validated(kept, Upgraded(kept), Some(Moved(inPublic, s)), Some(ArchivedAndRebuilt))
  }

  function Run(inPublic: bool, s: Storage): Outcome {
    if s.versions.Some? && |s.versions.value| > 1 then Outcome(s, None, None, Failed(StateInvalid))
    else
      var state := StateOf(s);
      var rev := RevisionOf(s);
      var inferred := ExactKnownRevision(s.tables);
      if state.Complete? then Validated(s, Some(s), None, None)
      else if state.Empty? then Validated(s, Upgraded(s), None, None)
      else if state.Unversioned? then
        if inferred.Some? then
          var stamped := s.(versions := Some([inferred.value]));
          Validated(stamped, Upgraded(stamped), None, Some(AdoptedUnversioned))
        else Rebuild(inPublic, s)
      else if rev.value.Foreign? then Rebuild(inPublic, s)
      else if rev.value != HEAD && inferred == rev then Validated(s, Upgraded(s), None, None)
      else if state.HeadIncomplete? || state.VersionedIncomplete? then Rebuild(inPublic, s)
      else Validated(s, Upgraded(s), None, None)
  }

  // ---- What a run does, for every stored schema -------------------------------------------------------------

  ghost predicate NoRows(ts: Tables) {
    forall t | t in ts && t in REQUIRED_TABLES :: ts[t].rows == 0
  }

  lemma {:induction false} RowsInList(ts: Tables, list: seq<Table>)
    ensures RowsIn(ts, list) == 0 <==> forall t | t in list && t in ts :: ts[t].rows == 0
    decreases |list|
  {
    if list != [] {
      RowsInList(ts, list[..|list| - 1]);
      assert list == list[..|list| - 1] + [list[|list| - 1]];
    }
  }

  lemma CountsEveryRow(ts: Tables)
    ensures RowsIn(ts, REQUIRED_LIST) == 0 <==> NoRows(ts)
  {
    RowsInList(ts, REQUIRED_LIST);
    forall t ensures t in REQUIRED_TABLES <==> t in REQUIRED_LIST {
      assert t in REQUIRED_TABLES <==> !t.OtherTable?;
      assert t in REQUIRED_LIST <==> !t.OtherTable?;
    }
    hide RowsIn;
  }

  /** The schema is at some revision of the chain, and its version table either is empty or names that one. */
  ghost predicate Recognised(s: Storage) {
    match RevisionOf(s)
    case None => exists k | -1 <= k <= LAST :: AtRevision(s.tables, k)
    case Some(r) => Rank(r) <= LAST && AtRevision(s.tables, Rank(r))
  }

  /** The recovery and binding columns are there, but something an earlier script adds is missing. */
  ghost predicate Shortcut(ts: Tables) {
    BASELINE_TABLES <= ts.Keys && Whole(ts, 6) && Whole(ts, 7) && !NothingMissing(ts)
  }

  /** The two kinds of storage that no run repairs: complete but stamped with an older revision, and
      unversioned but taken for the newest revision. */
  ghost predicate Stuck(s: Storage) {
    match RevisionOf(s)
    case None => Shortcut(s.tables)
    case Some(r) => Rank(r) < LAST && NothingMissing(s.tables)
  }

  ghost function RevisionAt(k: nat): (r: Revision)
    requires k <= LAST
    ensures Rank(r) == k
  {
    match k
    case 0 => BASELINE
    case 1 => BILLING_EVENTS
    case 2 => SUBSCRIPTION_FIELDS
    case 3 => PAIRING_TABLES
    case 4 => PROVIDER_SUBSCRIPTION
    case 5 => DEVICE_CREDENTIAL
    case 6 => USER_BINDING
    case _ => COMPANY_RECOVERY
  }

  lemma OneRevisionOnly(ts: Tables, j: int, k: int)
    requires -1 <= j <= LAST && -1 <= k <= LAST && j != k && AtRevision(ts, k)
    ensures !AtRevision(ts, j)
  {
    hide Script, Present;
    var m: nat := if j < k then k else j;
    var ch := Script(m)[0];
    assert ch in Script(m);
    assert Present(ts, ch) <==> m <= k;
  }

  lemma EarlierIsExact(ts: Tables, r: Revision)
    requires Rank(r) < LAST && AtRevision(ts, Rank(r))
    ensures ExactKnownRevision(ts) == Some(r)
  {
    Scripts(ts);
    ByScript(ts, Rank(r));
    hide Whole, Absent, AtRevision, Script, Columns, Present, ExactKnownRevision;
    ClassifierIsExact(ts, r);
  }

  /** What the classifier's answer is worth, for every schema. */
  lemma Classified(ts: Tables)
    ensures match ExactKnownRevision(ts)
            case Some(r) => Rank(r) <= LAST && (AtRevision(ts, Rank(r)) || (r == HEAD && Shortcut(ts)))
            case None => !Shortcut(ts) && forall k | 0 <= k <= LAST :: !AtRevision(ts, k)
    ensures Shortcut(ts) || AtRevision(ts, LAST) ==> ExactKnownRevision(ts) == Some(HEAD)
  {
    if !(BASELINE_TABLES <= ts.Keys) {
      NoBaseline(ts);
    } else if RECOVERY_COLUMNS * Columns(ts, Companies) == {} {
      NotRecovered(ts);
    } else {
      SomeRecovery(ts);
    }
  }

  lemma NoBaseline(ts: Tables)
    requires !(BASELINE_TABLES <= ts.Keys)
    ensures ExactKnownRevision(ts).None? && forall k | 0 <= k <= LAST :: !AtRevision(ts, k)
  {
    BaselineScript(ts);
    hide Whole, Absent, AtRevision, Script;
    forall k | 0 <= k <= LAST ensures !AtRevision(ts, k) {
      ByScript(ts, k);
    }
  }

  lemma SomeRecovery(ts: Tables)
    requires BASELINE_TABLES <= ts.Keys && RECOVERY_COLUMNS * Columns(ts, Companies) != {}
    ensures Shortcut(ts) || AtRevision(ts, LAST) <==> ExactKnownRevision(ts) == Some(HEAD)
    ensures ExactKnownRevision(ts) == Some(HEAD) || ExactKnownRevision(ts) == None
    ensures forall k | 0 <= k < LAST :: !AtRevision(ts, k)
  {
    LateScripts(ts);
    RecoveryShortcut(ts);
    RequiredIsWhatTheChainBuilds(ts);
    ByScript(ts, LAST);
    hide ExactKnownRevision, Whole, Absent, AtRevision, Columns, Script, NothingMissing;
    forall k | 0 <= k < LAST ensures !AtRevision(ts, k) {
      ByScript(ts, k);
    }
  }

  lemma NotRecovered(ts: Tables)
    requires BASELINE_TABLES <= ts.Keys && RECOVERY_COLUMNS * Columns(ts, Companies) == {}
    ensures match ExactKnownRevision(ts)
            case Some(r) => Rank(r) < LAST && AtRevision(ts, Rank(r))
            case None => forall k | 0 <= k <= LAST :: !AtRevision(ts, k)
    ensures !Whole(ts, 7) && !AtRevision(ts, LAST)
  {
    Scripts(ts);
    ByScript(ts, LAST);
    assert Phone in RECOVERY_COLUMNS;
    hide ExactKnownRevision, Whole, Absent, AtRevision, Columns, Script;
    var answer := ExactKnownRevision(ts);
    if answer.Some? {
      ClassifierIsExact(ts, answer.value);
    } else {
      forall k | 0 <= k < LAST ensures !AtRevision(ts, k) {
        ClassifierIsExact(ts, RevisionAt(k));
      }
    }
  }

  lemma Distinguished(s: Storage)
    requires Recognised(s)
    ensures !Stuck(s)
  {
    hide AtRevision, NothingMissing, Whole, Script;
    RequiredIsWhatTheChainBuilds(s.tables);
    match RevisionOf(s)
    case None =>
      var k :| -1 <= k <= LAST && AtRevision(s.tables, k);
      if Shortcut(s.tables) {
        Scripts(s.tables);
        ByScript(s.tables, k);
      }
    case Some(r) =>
      if Stuck(s) {
        OneRevisionOnly(s.tables, LAST, Rank(r));
      }
  }

  /** A rebuild happens only over empty tables, and then always succeeds. */
  lemma Rebuilds(inPublic: bool, s: Storage)
    ensures var out := Rebuild(inPublic, s);
            if NoRows(s.tables) then
              && out.verdict == Ready && out.repair == Some(ArchivedAndRebuilt)
              && out.archived == Some(Moved(inPublic, s))
              && RevisionOf(out.storage) == Some(HEAD) && NothingMissing(out.storage.tables)
              && Grows(Kept(inPublic, s).tables, out.storage.tables)
            else
              out == Outcome(s, None, None, Failed(ManualRepairRequired))
  {
    CountsEveryRow(s.tables);
    var kept := Kept(inPublic, s);
    NothingRequiredStarts(kept.tables);
    UpgradeCompletes(kept.tables, -1);
    hide RowsIn, NothingMissing, AtRevision, Grows, Pending;
  }

  /** `alembic upgrade head` over a schema that is at its recorded revision. */
  lemma UpgradeAt(s: Storage, k: int)
    requires -1 <= k <= LAST && AtRevision(s.tables, k)
    requires k == if RevisionOf(s).None? then -1 else Rank(RevisionOf(s).value)
    ensures Upgraded(s).Some? && RevisionOf(Upgraded(s).value) == Some(HEAD) && NothingMissing(Upgraded(s).value.tables)
    ensures Grows(s.tables, Upgraded(s).value.tables)
  {
    UpgradeCompletes(s.tables, k);
    hide NothingMissing, AtRevision, Grows, Pending;
  }

  ghost predicate HeadInPlace(s: Storage, out: Outcome) {
    && out.verdict == Ready && out.archived == None
    && RevisionOf(out.storage) == Some(HEAD) && NothingMissing(out.storage.tables)
    && Grows(s.tables, out.storage.tables)
  }

  lemma UnversionedIsAdopted(inPublic: bool, s: Storage)
    requires Recognised(s) && RevisionOf(s).None? && !(s.versions.Some? && |s.versions.value| > 1)
    ensures HeadInPlace(s, Run(inPublic, s))
  {
    hide AtRevision, NothingMissing, Grows, Upgraded, ExactKnownRevision, Shortcut;
    var k :| -1 <= k <= LAST && AtRevision(s.tables, k);
    var inferred := ExactKnownRevision(s.tables);
    if StateOf(s).Empty? {
      NothingRequiredStarts(s.tables);
      UpgradeAt(s, -1);
    } else {
      if k == -1 {
        RequiredAbsent(s.tables);
      }
      Classified(s.tables);
      Distinguished(s);
      var stamped := s.(versions := Some([inferred.value]));
      UpgradeAt(stamped, Rank(inferred.value));
    }
  }

  lemma RequiredAbsent(ts: Tables)
    requires AtRevision(ts, -1)
    ensures REQUIRED_TABLES * ts.Keys == {}
  {
    forall t | t in REQUIRED_TABLES ensures t !in ts {
      assert !t.OtherTable?;
      TablesAreCreated(t);
      assert Present(ts, CreateTable(t)) <==> Introduced(CreateTable(t)) <= -1;
    }
  }

  lemma VersionedIsUpgraded(inPublic: bool, s: Storage)
    requires Recognised(s) && RevisionOf(s).Some?
    ensures HeadInPlace(s, Run(inPublic, s))
  {
    hide AtRevision, NothingMissing, Upgraded, ExactKnownRevision, Shortcut;
    var r := RevisionOf(s).value;
    RequiredIsWhatTheChainBuilds(s.tables);
    if r != HEAD {
      EarlierIsExact(s.tables, r);
      OneRevisionOnly(s.tables, LAST, Rank(r));
      UpgradeAt(s, Rank(r));
    }
  }

  lemma RecognisedIsReady(inPublic: bool, s: Storage)
    requires Recognised(s) && !(s.versions.Some? && |s.versions.value| > 1)
    ensures HeadInPlace(s, Run(inPublic, s))
  {
    if RevisionOf(s).None? {
      UnversionedIsAdopted(inPublic, s);
    } else {
      VersionedIsUpgraded(inPublic, s);
    }
  }

  /** Stuck storage is never rebuilt and no table changes: either the scripts collide with a column that
      exists, or the run stamps the head revision and validation finds something missing. */
  lemma StuckFails(inPublic: bool, s: Storage)
    requires Stuck(s) && !(s.versions.Some? && |s.versions.value| > 1)
    ensures Run(inPublic, s) ==
            if RevisionOf(s).None? then
              Outcome(s.(versions := Some([HEAD])), None, Some(AdoptedUnversioned), Failed(ValidationFailed))
            else Outcome(s, None, None, Failed(MigrationFailed))
  {
    hide NothingMissing, AtRevision, Shortcut, ExactKnownRevision;
    if RevisionOf(s).None? {
      Classified(s.tables);
      ShortcutHasTables(s.tables);
    } else {
      OldStampCollides(s);
      RequiredIsWhatTheChainBuilds(s.tables);
      Classified(s.tables);
    }
  }

  lemma ShortcutHasTables(ts: Tables)
    requires Shortcut(ts)
    ensures REQUIRED_TABLES * ts.Keys != {} && !NothingMissing(ts) && ApplyAll(ts, Pending(LAST)) == Some(ts)
  {
  }

  lemma OldStampCollides(s: Storage)
    requires RevisionOf(s).Some? && Rank(RevisionOf(s).value) < LAST && NothingMissing(s.tables)
    ensures Upgraded(s).None?
  {
    var k := Rank(RevisionOf(s).value);
    assert Phone in Columns(s.tables, Companies) by {
      assert Companies in REQUIRED_TABLES && RequiredColumns(Companies) <= Columns(s.tables, Companies);
    }
    hide Pending, ApplyAll, NothingMissing;
    HeadIsPending(k);
    PresentBlocks(s.tables, Pending(k), AddColumn(Companies, Phone));
  }

  /** Everything else is rebuilt if it holds no rows, and refused if it does. */
  lemma OtherwiseRebuilds(inPublic: bool, s: Storage)
    requires !Recognised(s) && !Stuck(s) && !(s.versions.Some? && |s.versions.value| > 1)
    ensures Run(inPublic, s) == Rebuild(inPublic, s)
  {
    hide ExactKnownRevision, NothingMissing, AtRevision, Rebuild, Upgraded, Shortcut, RevisionOf;
    Classified(s.tables);
    if RevisionOf(s).None? {
      if REQUIRED_TABLES * s.tables.Keys == {} {
        NothingRequiredStarts(s.tables);
      }
    } else {
      RequiredIsWhatTheChainBuilds(s.tables);
    }
  }

  /** A run reports ready exactly when the schema is recognised, or holds no rows and is not stuck. */
  lemma ReadyExactly(inPublic: bool, s: Storage)
    ensures Run(inPublic, s).verdict.Ready? <==>
            && !(s.versions.Some? && |s.versions.value| > 1)
            && (Recognised(s) || (NoRows(s.tables) && !Stuck(s)))
  {
    hide Recognised, Stuck, NoRows, Rebuild, StateOf, ExactKnownRevision, Upgraded, NothingMissing;
    if s.versions.Some? && |s.versions.value| > 1 {
    } else if Recognised(s) {
      RecognisedIsReady(inPublic, s);
    } else if Stuck(s) {
      StuckFails(inPublic, s);
    } else {
      OtherwiseRebuilds(inPublic, s);
      Rebuilds(inPublic, s);
    }
  }

  /** A run that reports ready ended at the head revision with no required table or column missing, the
      recovery-column shortcut included. */
  lemma ReadyMeansComplete(inPublic: bool, s: Storage)
    requires Run(inPublic, s).verdict.Ready?
    ensures RevisionOf(Run(inPublic, s).storage) == Some(HEAD)
    ensures NothingMissing(Run(inPublic, s).storage.tables) && AtRevision(Run(inPublic, s).storage.tables, LAST)
  {
    RequiredIsWhatTheChainBuilds(Run(inPublic, s).storage.tables);
    hide StateOf, ExactKnownRevision, Upgraded, NothingMissing, AtRevision, RowsIn;
  }

  /** A run that archives had zero rows in every required table, and ends ready. */
  lemma ArchivesOnlyEmpty(inPublic: bool, s: Storage)
    requires Run(inPublic, s).archived.Some?
    ensures NoRows(s.tables) && Run(inPublic, s).verdict.Ready?
    ensures Run(inPublic, s).archived == Some(Moved(inPublic, s))
  {
    hide StateOf, ExactKnownRevision, Upgraded, NothingMissing, NoRows, Kept, Moved;
    assert Run(inPublic, s) == Rebuild(inPublic, s);
    Rebuilds(inPublic, s);
  }

  /** Whatever the outcome, every table is still in place with all its rows and columns, or was moved into the
      archive as it was; a required table that holds rows is always still in place. */
  lemma NothingLost(inPublic: bool, s: Storage, t: Table)
    requires t in s.tables
    ensures var out := Run(inPublic, s);
            || (t in out.storage.tables && s.tables[t].columns <= out.storage.tables[t].columns
                && out.storage.tables[t].rows == s.tables[t].rows)
            || (out.archived.Some? && t in out.archived.value.tables && out.archived.value.tables[t] == s.tables[t]
                && (t in REQUIRED_TABLES ==> s.tables[t].rows == 0))
  {
    if s.versions.Some? && |s.versions.value| > 1 {
    } else if Recognised(s) {
      RecognisedIsReady(inPublic, s);
      hide Run, Recognised;
    } else if Stuck(s) {
      StuckFails(inPublic, s);
      hide Run, Stuck;
    } else {
      OtherwiseRebuilds(inPublic, s);
      Rebuilds(inPublic, s);
      hide Run, Rebuild, Recognised, Stuck;
    }
  }

  /** After a ready run the next one finds the storage complete and changes nothing. */
  lemma SecondRunRests(inPublic: bool, s: Storage)
    requires Run(inPublic, s).verdict.Ready?
    ensures Run(inPublic, Run(inPublic, s).storage) == Outcome(Run(inPublic, s).storage, None, None, Ready)
  {
    ReadyMeansComplete(inPublic, s);
    ReadyIsVersioned(inPublic, s);
    var t := Run(inPublic, s).storage;
    hide ExactKnownRevision, Upgraded, NothingMissing, AtRevision, Rebuild;
    assert StateOf(t) == Complete;
  }

  lemma ReadyIsVersioned(inPublic: bool, s: Storage)
    requires RevisionOf(Run(inPublic, s).storage).Some?
    ensures var v := Run(inPublic, s).storage.versions; v.Some? && |v.value| == 1
  {
  }

  /** An unversioned schema that the shortcut takes for the newest one fails its first run, which leaves the
      head stamp behind; the second run then rebuilds it if it holds no rows, and otherwise no run ever helps. */
  lemma ShortcutNeedsTwoRuns(inPublic: bool, s: Storage)
    requires RevisionOf(s).None? && Shortcut(s.tables) && !(s.versions.Some? && |s.versions.value| > 1)
    ensures var first := Run(inPublic, s);
            && first.verdict == Failed(ValidationFailed)
            && (Run(inPublic, first.storage).verdict.Ready? <==> NoRows(s.tables))
            && (!NoRows(s.tables) ==> Run(inPublic, first.storage).storage == first.storage)
  {
    StuckFails(inPublic, s);
    var first := Run(inPublic, s).storage;
    RequiredIsWhatTheChainBuilds(s.tables);
    hide AtRevision, NothingMissing, Rebuild, NoRows, Run;
    assert !Recognised(first) && !Stuck(first);
    OtherwiseRebuilds(inPublic, first);
    Rebuilds(inPublic, first);
  }
}
