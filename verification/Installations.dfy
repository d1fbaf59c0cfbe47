/** Registration, recovery and revocation of Office installations. Rows are kept in creation order, so the
    oldest row of a kind is the first one and the newest the last; a row's index is its id. */
module Installations {
  import opened Wrappers

  datatype Company = Company(matchKey: Option<string>, recoveryHash: string, active: bool)

  datatype Status = ACTIVE | REPLACED | REVOKED

  datatype Installation = Installation(company: nat, key: string, status: Status)

  datatype License = License(company: nat, installation: nat, active: bool)

  datatype Subscription = Subscription(company: nat, license: Option<nat>)

  datatype Directory = Directory(companies: seq<Company>, installs: seq<Installation>, licenses: seq<License>,
                                 subscriptions: seq<Subscription>)

  datatype Result =
    | Granted(installation: nat, company: nat, license: nat)
    | CompanyExists | KeyRevoked | LicenseInactive | UnknownCode | CompanyDisconnected | OtherCompany
    | UnknownInstallation | Done

  datatype Request =
    | Register(key: string, matchKey: Option<string>, newHash: string)
    | Recover(key: string, hash: string)
    | Revoke(id: nat)
    | Edit(id: nat, matchKey: Option<string>)      // signed by installation `id`; the details changed

  const EMPTY := Directory([], [], [], [])

  // ---- Queries --------------------------------------------------------------------------------------

  /** Index of the last installation with this key that is ACTIVE (`live`), or of any status. */
  function LastOfKey(s: seq<Installation>, key: string, live: bool): (r: Option<nat>)
    ensures r.Some? ==> r.value < |s| && s[r.value].key == key && (live ==> s[r.value].status.ACTIVE?)
    ensures forall i | 0 <= i < |s| && s[i].key == key && (live ==> s[i].status.ACTIVE?) :: r.Some? && i <= r.value
  {
    if s == [] then None
    else
      var n := |s| - 1;
      if s[n].key == key && (live ==> s[n].status.ACTIVE?) then Some(n) else LastOfKey(s[..n], key, live)
  }

  /** The identity's installation: the ACTIVE row if any, else the newest. */
  function ForKey(s: seq<Installation>, key: string): Option<nat> {
    var live := LastOfKey(s, key, true);
    if live.Some? then live else LastOfKey(s, key, false)
  }

  function LatestOf(s: seq<Installation>, company: nat): (r: Option<nat>)
    ensures r.Some? ==> r.value < |s| && s[r.value].company == company
    ensures forall i | 0 <= i < |s| && s[i].company == company :: r.Some? && i <= r.value
  {
    if s == [] then None
    else
      var n := |s| - 1;
      if s[n].company == company then Some(n) else LatestOf(s[..n], company)
  }

  /** The oldest license that points to the installation. */
  function LicenseFor(ls: seq<License>, i: nat): (r: Option<nat>)
    ensures r.Some? ==> r.value < |ls| && ls[r.value].installation == i
    ensures forall l | 0 <= l < |ls| && ls[l].installation == i :: r.Some? && r.value <= l
  {
    if ls == [] then None
    else
      var n := |ls| - 1;
      var earlier := LicenseFor(ls[..n], i);
      if earlier.Some? then earlier else if ls[n].installation == i then Some(n) else None
  }

  /** The oldest license of the company. */
  function LicenseOf(ls: seq<License>, company: nat): (r: Option<nat>)
    ensures r.Some? ==> r.value < |ls| && ls[r.value].company == company
    ensures forall l | 0 <= l < |ls| && ls[l].company == company :: r.Some? && r.value <= l
  {
    if ls == [] then None
    else
      var n := |ls| - 1;
      var earlier := LicenseOf(ls[..n], company);
      if earlier.Some? then earlier else if ls[n].company == company then Some(n) else None
  }

  function SubscriptionOf(ss: seq<Subscription>, company: nat): (r: Option<nat>)
    ensures r.Some? ==> r.value < |ss| && ss[r.value].company == company
    ensures forall x | 0 <= x < |ss| && ss[x].company == company :: r.Some? && r.value <= x
  {
    if ss == [] then None
    else
      var n := |ss| - 1;
      var earlier := SubscriptionOf(ss[..n], company);
      if earlier.Some? then earlier else if ss[n].company == company then Some(n) else None
  }

  predicate MatchTaken(cs: seq<Company>, mk: Option<string>, besides: Option<nat>) {
    mk.Some? && exists c | 0 <= c < |cs| :: cs[c].active && cs[c].matchKey == mk && Some(c) != besides
  }

  predicate HashTaken(cs: seq<Company>, h: string) {
    exists c | 0 <= c < |cs| :: cs[c].recoveryHash == h
  }

  function CompanyByHash(cs: seq<Company>, h: string): (r: Option<nat>)
    ensures r.Some? ==> r.value < |cs| && cs[r.value].recoveryHash == h && cs[r.value].active
    ensures r.None? ==> forall c | 0 <= c < |cs| :: !(cs[c].recoveryHash == h && cs[c].active)
  {
    if cs == [] then None
    else
      var n := |cs| - 1;
      if cs[n].recoveryHash == h && cs[n].active then Some(n) else CompanyByHash(cs[..n], h)
  }

  /** Every ACTIVE installation of the company becomes REPLACED. */
  function Superseded(s: seq<Installation>, company: nat): (r: seq<Installation>)
    ensures |r| == |s|
    ensures forall i | 0 <= i < |s| :: r[i] ==
              if s[i].company == company && s[i].status.ACTIVE? then s[i].(status := REPLACED) else s[i]
  {
    seq(|s|, i requires 0 <= i < |s| =>
      if s[i].company == company && s[i].status.ACTIVE? then s[i].(status := REPLACED) else s[i])
  }

  // ---- The operations ---------------------------------------------------------------------------------

  function DoRegister(d: Directory, key: string, mk: Option<string>, newHash: string): (Directory, Result) {
    var existing := ForKey(d.installs, key);
    if existing.None? then
      if MatchTaken(d.companies, mk, None) || HashTaken(d.companies, newHash) then (d, CompanyExists)
      else
        var c, i, l := |d.companies|, |d.installs|, |d.licenses|;
        (Directory(d.companies + [Company(mk, newHash, true)], d.installs + [Installation(c, key, ACTIVE)],
                   d.licenses + [License(c, i, true)], d.subscriptions + [Subscription(c, Some(l))]),
         Granted(i, c, l))
    else
      var i := existing.value;
      var c := d.installs[i].company;
      var license := LicenseFor(d.licenses, i);
      if !d.installs[i].status.ACTIVE? then (d, KeyRevoked)
      else if license.Some? && !d.licenses[license.value].active then (d, LicenseInactive)
      else
        var licenses := if license.Some? then d.licenses else d.licenses + [License(c, i, true)];
        var l := if license.Some? then license.value else |d.licenses|;
        var sub := SubscriptionOf(d.subscriptions, c);
        var subscriptions :=
          if sub.None? then d.subscriptions + [Subscription(c, Some(l))]
          else if d.subscriptions[sub.value].license.None? then d.subscriptions[sub.value := Subscription(c, Some(l))]
          else d.subscriptions;
        (d.(licenses := licenses, subscriptions := subscriptions), Granted(i, c, l))
  }

  function DoRecover(d: Directory, key: string, hash: string): (Directory, Result) {
    var company := CompanyByHash(d.companies, hash);
    if company.None? then (d, UnknownCode)
    else
      var c := company.value;
      var latest := LatestOf(d.installs, c);
      if latest.Some? && d.installs[latest.value].status.REVOKED? then (d, CompanyDisconnected)
      else
        var existing := ForKey(d.installs, key);
        var live := existing.Some? && d.installs[existing.value].status.ACTIVE?;
        var license := LicenseOf(d.licenses, c);
        if live && d.installs[existing.value].company != c then (d, OtherCompany)
        else if license.Some? && !d.licenses[license.value].active then (d, LicenseInactive)   // rolled back
        else
          var installs := if live then d.installs else Superseded(d.installs, c) + [Installation(c, key, ACTIVE)];
          var i := if live then existing.value else |d.installs|;
          var l := if license.Some? then license.value else |d.licenses|;
          var licenses :=
            if license.Some? then d.licenses[l := d.licenses[l].(installation := i)]
            else d.licenses + [License(c, i, true)];
          var sub := SubscriptionOf(d.subscriptions, c);
          var subscriptions :=
            if sub.None? then d.subscriptions + [Subscription(c, Some(l))]
            else d.subscriptions[sub.value := Subscription(c, Some(l))];
          (Directory(d.companies, installs, licenses, subscriptions), Granted(i, c, l))
  }

  function DoRevoke(d: Directory, id: nat): (Directory, Result) {
    if id >= |d.installs| then (d, UnknownInstallation)
    else (d.(installs := d.installs[id := d.installs[id].(status := REVOKED)]), Done)
  }

  function DoEdit(d: Directory, id: nat, mk: Option<string>): (Directory, Result)
    requires Resolves(d)
  {
    if id >= |d.installs| then (d, UnknownInstallation)
    else if !d.installs[id].status.ACTIVE? then (d, KeyRevoked)
    else
      var c := d.installs[id].company;
      var kept := if MatchTaken(d.companies, mk, Some(c)) then None else mk;
      (d.(companies := d.companies[c := d.companies[c].(matchKey := kept)]), Done)
  }

  function Handle(d: Directory, r: Request): (Directory, Result)
    requires Resolves(d)
  {
    match r
    case Register(key, mk, newHash) => DoRegister(d, key, mk, newHash)
    case Recover(key, hash) => DoRecover(d, key, hash)
    case Revoke(id) => DoRevoke(d, id)
    case Edit(id, mk) => DoEdit(d, id, mk)
  }

  // ---- What every serial run keeps ---------------------------------------------------------------------

  /** Every installation belongs to a company. */
  ghost predicate Resolves(d: Directory) {
    forall i | 0 <= i < |d.installs| :: d.installs[i].company < |d.companies|
  }

  /** Every company has exactly one license and one subscription, which points to that license. */
  ghost predicate OneLicenseEach(d: Directory) {
    && |d.licenses| == |d.companies| == |d.subscriptions|
    && (forall c | 0 <= c < |d.companies| :: d.licenses[c].company == c && d.subscriptions[c] == Subscription(c, Some(c)))
  }

  predicate IsNewest(s: seq<Installation>, i: nat)
    requires i < |s|
  {
    forall j | i < j < |s| :: s[j].company != s[i].company
  }

  /** An ACTIVE installation is its company's newest; hence a company has at most one. */
  ghost predicate ActiveIsNewest(d: Directory) {
    forall i | 0 <= i < |d.installs| && d.installs[i].status.ACTIVE? :: IsNewest(d.installs, i)
  }

  ghost predicate OneActivePerKey(d: Directory) {
    forall i, j | 0 <= i < j < |d.installs| && d.installs[i].status.ACTIVE? && d.installs[j].status.ACTIVE? ::
      d.installs[i].key != d.installs[j].key
  }

  /** A company's license points to its newest installation, which exists. */
  ghost predicate LicensePointsToNewest(d: Directory) {
    forall c | 0 <= c < |d.licenses| ::
      && d.licenses[c].installation < |d.installs|
      && d.installs[d.licenses[c].installation].company == c
      && IsNewest(d.installs, d.licenses[c].installation)
  }

  ghost predicate KeysUnique(d: Directory) {
    && (forall a, b | 0 <= a < b < |d.companies| :: d.companies[a].recoveryHash != d.companies[b].recoveryHash)
    && (forall a, b | 0 <= a < b < |d.companies| && d.companies[a].active && d.companies[b].active
                      && d.companies[a].matchKey.Some? :: d.companies[a].matchKey != d.companies[b].matchKey)
  }

  ghost predicate Inv(d: Directory) {
    Resolves(d) && OneLicenseEach(d) && ActiveIsNewest(d) && OneActivePerKey(d) && LicensePointsToNewest(d) && KeysUnique(d)
  }

  /** A company has at most one ACTIVE installation; it is the newest, and its license points there. */
  lemma ActiveIsUnique(d: Directory, i: nat, j: nat)
    requires Inv(d) && i < |d.installs| && j < |d.installs|
    requires d.installs[i].status.ACTIVE? && d.installs[j].status.ACTIVE?
    ensures d.installs[i].company == d.installs[j].company || d.installs[i].key == d.installs[j].key ==> i == j
    ensures d.licenses[d.installs[i].company].installation == i
  {
  }

  /** While the invariant holds the look-ups by installation and by company find the company's own rows, so
      the repairing branches, which insert a missing license or subscription, are never taken. */
  lemma RowsFound(d: Directory, c: nat)
    requires Inv(d) && c < |d.companies|
    ensures LicenseOf(d.licenses, c) == Some(c) && SubscriptionOf(d.subscriptions, c) == Some(c)
    ensures LicenseFor(d.licenses, d.licenses[c].installation) == Some(c)
  {
  }

  lemma RegisterAgain(d: Directory, key: string, mk: Option<string>, newHash: string)
    requires Inv(d) && ForKey(d.installs, key).Some?
    ensures var i := ForKey(d.installs, key).value;
            var c := d.installs[i].company;
            DoRegister(d, key, mk, newHash) ==
              (d, if !d.installs[i].status.ACTIVE? then KeyRevoked
                  else if !d.licenses[c].active then LicenseInactive else Granted(i, c, c))
  {
  }

  lemma RegisterKeeps(d: Directory, key: string, mk: Option<string>, newHash: string)
    requires Inv(d)
    ensures Inv(DoRegister(d, key, mk, newHash).0)
  {
    if ForKey(d.installs, key).Some? {
      RegisterAgain(d, key, mk, newHash);
    } else {
      assert forall i | 0 <= i < |d.installs| :: d.installs[i].key != key;
      hide Inv, LastOfKey;
      if !MatchTaken(d.companies, mk, None) && !HashTaken(d.companies, newHash) {
        NewCompanyKeeps(d, DoRegister(d, key, mk, newHash).0, key, mk, newHash);
      }
    }
  }

  lemma NewCompanyKeeps(d: Directory, d': Directory, key: string, mk: Option<string>, newHash: string)
    requires Inv(d) && forall i | 0 <= i < |d.installs| :: d.installs[i].key != key
    requires !MatchTaken(d.companies, mk, None) && !HashTaken(d.companies, newHash)
    requires var c, i, l := |d.companies|, |d.installs|, |d.licenses|;
             d' == Directory(d.companies + [Company(mk, newHash, true)], d.installs + [Installation(c, key, ACTIVE)],
                             d.licenses + [License(c, i, true)], d.subscriptions + [Subscription(c, Some(l))])
    ensures Inv(d')
  {
    NewestStays(d.installs, d'.installs);
    NewKeysUnique(d, d', mk, newHash);
    hide KeysUnique, IsNewest, MatchTaken, HashTaken;
    assert ActiveIsNewest(d') && OneActivePerKey(d') && Resolves(d') && OneLicenseEach(d');
    hide ActiveIsNewest, OneActivePerKey, Resolves;
    assert forall c | 0 <= c < |d.licenses| :: d'.licenses[c] == d.licenses[c];
  }

  lemma NewKeysUnique(d: Directory, d': Directory, mk: Option<string>, newHash: string)
    requires KeysUnique(d) && !MatchTaken(d.companies, mk, None) && !HashTaken(d.companies, newHash)
    requires d'.companies == d.companies + [Company(mk, newHash, true)]
    ensures KeysUnique(d')
  {
  }

  /** A row of another company stays its company's newest when a row is appended. */
  lemma NewestStays(s: seq<Installation>, t: seq<Installation>)
    requires |t| == |s| + 1 && forall i | 0 <= i < |s| :: t[i].company == s[i].company
    ensures forall i | 0 <= i < |s| && s[i].company != t[|s|].company && IsNewest(s, i) :: IsNewest(t, i)
    ensures IsNewest(t, |s|)
  {
  }

  /** What a granted recovery did. */
  lemma Recovered(d: Directory, key: string, hash: string)
    requires Inv(d) && DoRecover(d, key, hash).1.Granted?
    ensures var (d', r) := DoRecover(d, key, hash);
            && r.company == r.license < |d.companies|
            && d'.companies == d.companies && d'.subscriptions == d.subscriptions
            && d'.licenses == d.licenses[r.company := d.licenses[r.company].(installation := r.installation)]
            && if r.installation < |d.installs| then
                 && d'.installs == d.installs
                 && d.installs[r.installation] == Installation(r.company, key, ACTIVE)
               else
                 && r.installation == |d.installs| && LastOfKey(d.installs, key, true).None?
                 && d'.installs == Superseded(d.installs, r.company) + [Installation(r.company, key, ACTIVE)]
  {
    hide KeysUnique, OneActivePerKey, ActiveIsNewest, LicensePointsToNewest, IsNewest;
    var c := DoRecover(d, key, hash).1.company;
    RowsFound(d, c);
  }

  lemma MovedKeeps(d: Directory, d': Directory, c: nat, key: string)
    requires Inv(d) && c < |d.companies| && LastOfKey(d.installs, key, true).None?
    requires d' == d.(installs := Superseded(d.installs, c) + [Installation(c, key, ACTIVE)],
                      licenses := d.licenses[c := d.licenses[c].(installation := |d.installs|)])
    ensures ActiveIsNewest(d') && OneActivePerKey(d') && LicensePointsToNewest(d')
  {
    hide KeysUnique, Superseded, LastOfKey;
    NewestStays(d.installs, d'.installs);
    forall k | 0 <= k < |d'.licenses| && k != c
      ensures d'.licenses[k].installation < |d.installs| && d'.installs[d'.licenses[k].installation].company == k
              && IsNewest(d'.installs, d'.licenses[k].installation) {
      assert d.installs[d.licenses[k].installation].company == k && IsNewest(d.installs, d.licenses[k].installation);
    }
  }

  /** Pointing a company's license to its ACTIVE installation, where it points already, changes nothing. */
  lemma RepointKeeps(d: Directory, d': Directory, c: nat, i: nat)
    requires Inv(d) && c < |d.companies| && i < |d.installs| && d.installs[i].company == c && d.installs[i].status.ACTIVE?
    requires d' == d.(licenses := d.licenses[c := d.licenses[c].(installation := i)])
    ensures Inv(d')
  {
  }

  lemma MovedStaysSound(d: Directory, d': Directory, c: nat, key: string)
    requires Resolves(d) && OneLicenseEach(d) && KeysUnique(d) && c < |d.companies|
    requires d' == d.(installs := Superseded(d.installs, c) + [Installation(c, key, ACTIVE)],
                      licenses := d.licenses[c := d.licenses[c].(installation := |d.installs|)])
    ensures Resolves(d') && OneLicenseEach(d') && KeysUnique(d')
  {
  }

  lemma RecoverKeeps(d: Directory, key: string, hash: string)
    requires Inv(d)
    ensures Inv(DoRecover(d, key, hash).0)
  {
    var (d', r) := DoRecover(d, key, hash);
    if r.Granted? {
      Recovered(d, key, hash);
      hide DoRecover, ActiveIsNewest, OneActivePerKey, LicensePointsToNewest, Resolves, OneLicenseEach, KeysUnique,
           Superseded, LastOfKey;
      if r.installation < |d.installs| {
        RepointKeeps(d, d', r.company, r.installation);
      } else {
        MovedKeeps(d, d', r.company, key);
        MovedStaysSound(d, d', r.company, key);
      }
    }
  }

  lemma HandleKeeps(d: Directory, r: Request)
    requires Inv(d)
    ensures Inv(Handle(d, r).0)
  {
    match r
    case Register(key, mk, newHash) => RegisterKeeps(d, key, mk, newHash);
    case Recover(key, hash) => RecoverKeeps(d, key, hash);
    case Revoke(id) =>
      if id < |d.installs| {
        var d' := DoRevoke(d, id).0;
        forall i | 0 <= i < |d.installs| ensures IsNewest(d'.installs, i) == IsNewest(d.installs, i) {
          assert forall j | 0 <= j < |d.installs| :: d'.installs[j].company == d.installs[j].company;
        }
      }
    case Edit(id, mk) =>
  }

  ghost function After(d: Directory, run: seq<Request>): Directory
    requires Inv(d)
    decreases |run|
  {
    if run == [] then d else
      HandleKeeps(d, run[0]);
      After(Handle(d, run[0]).0, run[1..])
  }

  /** In every serial run from the empty directory: each company and each public key has at most one ACTIVE
      installation, the ACTIVE one is the company's newest, and the company's one license points there. */
  lemma {:induction false} RunKeeps(d: Directory, run: seq<Request>)
    requires Inv(d)
    ensures Inv(After(d, run))
    decreases |run|
  {
    if run != [] {
      HandleKeeps(d, run[0]);
      RunKeeps(Handle(d, run[0]).0, run[1..]);
    }
  }

  lemma EmptyStarts()
    ensures Inv(EMPTY)
  {
  }

  /** The company's newest installation is REVOKED. */
  predicate Disconnected(d: Directory, c: nat) {
    var l := LatestOf(d.installs, c);
    l.Some? && d.installs[l.value].status.REVOKED?
  }

  lemma LatestIs(s: seq<Installation>, i: nat)
    requires i < |s| && IsNewest(s, i)
    ensures LatestOf(s, s[i].company) == Some(i)
  {
  }

  /** A request leaves every installation's company as it was, appends at most one row, never for a
      disconnected company, and brings no revoked row back. */
  lemma StepsForward(d: Directory, r: Request)
    requires Inv(d)
    ensures var s, t := d.installs, Handle(d, r).0.installs;
            && |s| <= |t| <= |s| + 1
            && (forall i | 0 <= i < |s| :: t[i].company == s[i].company && (s[i].status.REVOKED? ==> t[i].status.REVOKED?))
            && (|t| > |s| ==> !Disconnected(d, t[|s|].company))
  {
    hide OneLicenseEach, ActiveIsNewest, OneActivePerKey, LicensePointsToNewest, KeysUnique, LastOfKey, LicenseFor,
         LicenseOf, SubscriptionOf, MatchTaken, HashTaken, Superseded;
  }

  lemma DisconnectedStep(d: Directory, r: Request, c: nat)
    requires Inv(d) && Disconnected(d, c)
    ensures Disconnected(Handle(d, r).0, c)
  {
    StepsForward(d, r);
    hide Handle, Inv;
    StaysLatest(d.installs, Handle(d, r).0.installs, c);
  }

  lemma StaysLatest(s: seq<Installation>, t: seq<Installation>, c: nat)
    requires |s| <= |t| <= |s| + 1 && forall i | 0 <= i < |s| :: t[i].company == s[i].company
    requires LatestOf(s, c).Some? && (|t| > |s| ==> t[|s|].company != c)
    ensures LatestOf(t, c) == LatestOf(s, c)
  {
    hide LatestOf;
    LatestIs(t, LatestOf(s, c).value);
  }

  /** Revoking an installation disconnects its company exactly when it is the company's newest, as the ACTIVE
      one always is; revoking an older one leaves the company as it was. */
  lemma RevokingDisconnects(d: Directory, id: nat)
    requires Inv(d) && id < |d.installs|
    ensures Disconnected(DoRevoke(d, id).0, d.installs[id].company) <==>
            Disconnected(d, d.installs[id].company) || IsNewest(d.installs, id)
    ensures d.installs[id].status.ACTIVE? ==> Disconnected(DoRevoke(d, id).0, d.installs[id].company)
  {
    var d' := DoRevoke(d, id).0;
    var l := LatestOf(d.installs, d.installs[id].company).value;
    assert IsNewest(d.installs, l) && IsNewest(d'.installs, l);
    LatestIs(d.installs, l);
    LatestIs(d'.installs, l);
  }

  lemma DisconnectedHasNoActive(d: Directory, c: nat)
    requires Inv(d) && Disconnected(d, c)
    ensures forall i | 0 <= i < |d.installs| && d.installs[i].company == c :: !d.installs[i].status.ACTIVE?
  {
  }

  /** A company whose newest installation is REVOKED never has an ACTIVE one again, in any later run. */
  lemma {:induction false} RevocationIsFinal(d: Directory, run: seq<Request>, c: nat)
    requires Inv(d)
    ensures Disconnected(d, c) ==>
              && Disconnected(After(d, run), c)
              && forall i | 0 <= i < |After(d, run).installs| && After(d, run).installs[i].company == c ::
                   !After(d, run).installs[i].status.ACTIVE?
    decreases |run|
  {
    if Disconnected(d, c) {
      if run == [] {
        DisconnectedHasNoActive(d, c);
      } else {
        HandleKeeps(d, run[0]);
        DisconnectedStep(d, run[0], c);
        hide Inv, Handle;
        RevocationIsFinal(Handle(d, run[0]).0, run[1..], c);
      }
    }
  }

  /** Registering again with the same key creates nothing and returns the same three ids. */
  lemma RegisterIsIdempotent(d: Directory, key: string, mk: Option<string>, h: string, mk2: Option<string>, h2: string)
    requires Inv(d)
    ensures DoRegister(d, key, mk, h).1.Granted? ==>
            DoRegister(DoRegister(d, key, mk, h).0, key, mk2, h2) == DoRegister(d, key, mk, h)
  {
    var (d', r) := DoRegister(d, key, mk, h);
    if r.Granted? {
      RegisterKeeps(d, key, mk, h);
      if ForKey(d.installs, key).Some? {
        RegisterAgain(d, key, mk, h);
        RegisterAgain(d, key, mk2, h2);
      } else {
        assert d'.installs[|d.installs|] == Installation(|d.companies|, key, ACTIVE);
        assert ForKey(d'.installs, key) == Some(|d.installs|);
        RegisterAgain(d', key, mk2, h2);
      }
    }
  }

  /** A key none of whose rows is ACTIVE cannot register. */
  lemma InactiveKeyIsRefused(d: Directory, key: string, at: nat, mk: Option<string>, h: string)
    requires at < |d.installs| && d.installs[at].key == key
    requires forall i | 0 <= i < |d.installs| && d.installs[i].key == key :: !d.installs[i].status.ACTIVE?
    ensures DoRegister(d, key, mk, h) == (d, KeyRevoked)
  {
  }

  lemma KeyGone(d: Directory, c: nat, key: string, prior: nat)
    requires OneActivePerKey(d) && prior < |d.installs| && d.installs[prior].key != key
    requires d.installs[prior].company == c && d.installs[prior].status.ACTIVE?
    ensures var t := Superseded(d.installs, c) + [Installation(c, key, ACTIVE)];
            && t[prior].key == d.installs[prior].key
            && forall i | 0 <= i < |t| && t[i].key == d.installs[prior].key :: !t[i].status.ACTIVE?
  {
    hide Superseded;
  }

  lemma PriorIsReplaced(d: Directory, key: string, hash: string, prior: nat)
    requires Inv(d) && DoRecover(d, key, hash).1.Granted? && prior < |d.installs|
    requires d.installs[prior].company == DoRecover(d, key, hash).1.company && d.installs[prior].key != key
    requires d.installs[prior].status.ACTIVE?
    ensures var t := DoRecover(d, key, hash).0.installs;
            && prior < |t| && t[prior].key == d.installs[prior].key
            && forall i | 0 <= i < |t| && t[i].key == d.installs[prior].key :: !t[i].status.ACTIVE?
  {
    Recovered(d, key, hash);
    var i, c := DoRecover(d, key, hash).1.installation, d.installs[prior].company;
    hide DoRecover, LastOfKey, Superseded;
    KeyGone(d, c, key, prior);
    hide Inv;
    if i < |d.installs| {
      ActiveIsUnique(d, i, prior);
    }
  }

  /** After a recovery from another computer the company's earlier computer cannot register back in. */
  lemma ReplacedKeyIsRefused(d: Directory, key: string, hash: string, prior: nat, mk: Option<string>, h: string)
    requires Inv(d) && prior < |d.installs|
    ensures var (d', r) := DoRecover(d, key, hash);
            var p := d.installs[prior];
            r.Granted? && p.status.ACTIVE? && p.company == r.company && p.key != key ==>
              DoRegister(d', p.key, mk, h) == (d', KeyRevoked)
  {
    hide Inv, DoRecover, DoRegister;
    var (d', r) := DoRecover(d, key, hash);
    var p := d.installs[prior];
    if r.Granted? && p.status.ACTIVE? && p.company == r.company && p.key != key {
      PriorIsReplaced(d, key, hash, prior);
      InactiveKeyIsRefused(d', p.key, prior, mk, h);
    }
  }

  // ---- Who is let in ------------------------------------------------------------------------------------------

  predicate KnownKey(d: Directory, key: string) {
    exists i | 0 <= i < |d.installs| :: d.installs[i].key == key
  }

  /** Row `i` is the key's ACTIVE one. */
  predicate LiveRow(d: Directory, key: string, i: nat) {
    i < |d.installs| && d.installs[i].key == key && d.installs[i].status == ACTIVE
  }

  predicate NameTaken(d: Directory, mk: Option<string>) {
    mk.Some? && exists c | 0 <= c < |d.companies| :: d.companies[c].active && d.companies[c].matchKey == mk
  }

  predicate CodeTaken(d: Directory, hash: string) {
    exists c | 0 <= c < |d.companies| :: d.companies[c].recoveryHash == hash
  }

  /** A computer with a new key founds a company exactly if no ACTIVE company has its match key, and none its recovery
      code; it is then that company's ACTIVE installation, with an active license. */
  lemma NewcomerFounds(d: Directory, key: string, mk: Option<string>, newHash: string)
    requires !KnownKey(d, key)
    ensures var (d', r) := DoRegister(d, key, mk, newHash);
            if NameTaken(d, mk) || CodeTaken(d, newHash) then r == CompanyExists && d' == d
            else
              && r == Granted(|d.installs|, |d.companies|, |d.licenses|)
              && d'.companies == d.companies + [Company(mk, newHash, true)]
              && d'.installs == d.installs + [Installation(r.company, key, ACTIVE)]
              && d'.licenses == d.licenses + [License(r.company, r.installation, true)]
              && d'.subscriptions == d.subscriptions + [Subscription(r.company, Some(r.license))]
  {
  }

  /** A computer that is known gets its own ids back exactly if it has an ACTIVE row under an active license. */
  lemma KnownKeyReturns(d: Directory, key: string, mk: Option<string>, newHash: string, i: nat)
    requires Inv(d) && KnownKey(d, key)
    ensures DoRegister(d, key, mk, newHash).0 == d
    ensures var r := DoRegister(d, key, mk, newHash).1;
            && (LiveRow(d, key, i) ==>
                  var c := d.installs[i].company;
                  r == if d.licenses[c].active then Granted(i, c, c) else LicenseInactive)
            && ((forall j: nat :: !LiveRow(d, key, j)) ==> r == KeyRevoked)
  {
    RegisterAgain(d, key, mk, newHash);
    if LiveRow(d, key, i) {
      OneLiveRow(d, key, i);
    }
    var at := ForKey(d.installs, key).value;
    assert d.installs[at].status == ACTIVE ==> LiveRow(d, key, at);
    hide Inv, LastOfKey, DoRegister;
  }

  lemma OneLiveRow(d: Directory, key: string, i: nat)
    requires Inv(d) && LiveRow(d, key, i)
    ensures ForKey(d.installs, key) == Some(i)
  {
    hide LastOfKey, IsNewest;
  }

  /** The recovery code of company `c` admits the key: the company is active and not disconnected, its license is
      active, and the key is not at work for another company. */
  ghost predicate Admits(d: Directory, c: nat, key: string, hash: string)
    requires Inv(d)
  {
    && c < |d.companies| && d.companies[c].active && d.companies[c].recoveryHash == hash
    && d.installs[d.licenses[c].installation].status != REVOKED && d.licenses[c].active
    && forall i: nat | LiveRow(d, key, i) :: d.installs[i].company == c
  }

  /** A recovery is granted exactly for the company whose code admits the key, and then the key's ACTIVE row, new or
      its own already, belongs to it and its license points there; any other ACTIVE row of the company is replaced. */
  lemma RecoveryExactly(d: Directory, key: string, hash: string, c: nat)
    requires Inv(d)
    ensures var (d', r) := DoRecover(d, key, hash);
            && (Admits(d, c, key, hash) <==> r.Granted? && r.company == c)
            && (r.Granted? && r.company == c ==>
                  && LiveRow(d', key, r.installation) && d'.installs[r.installation].company == c
                  && r.license == c && c < |d'.licenses| && d'.licenses[c] == License(c, r.installation, true)
                  && forall i | 0 <= i < |d'.installs| && d'.installs[i].company == c && i != r.installation ::
                       d'.installs[i].status != ACTIVE)
            && (!r.Granted? ==> d' == d)
  {
    hide DoRecover, Admits, Inv;
    var (d', r) := DoRecover(d, key, hash);
    if Admits(d, c, key, hash) {
      AdmittedIsGranted(d, key, hash, c);
    }
    if r.Granted? && r.company == c {
      GrantedWasAdmitted(d, key, hash);
      GrantedSettles(d, key, hash);
    }
    RefusalKeeps(d, key, hash);
  }

  lemma RefusalKeeps(d: Directory, key: string, hash: string)
    ensures !DoRecover(d, key, hash).1.Granted? ==> DoRecover(d, key, hash).0 == d
  {
  }

  lemma GrantedSettles(d: Directory, key: string, hash: string)
    requires Inv(d) && DoRecover(d, key, hash).1.Granted?
    ensures var (d', r) := DoRecover(d, key, hash);
            && LiveRow(d', key, r.installation) && d'.installs[r.installation].company == r.company
            && r.license == r.company < |d'.licenses| && d'.licenses[r.company] == License(r.company, r.installation, true)
            && forall i | 0 <= i < |d'.installs| && d'.installs[i].company == r.company && i != r.installation ::
                 d'.installs[i].status != ACTIVE
  {
    var (d', r) := DoRecover(d, key, hash);
    Recovered(d, key, hash);
    RecoverKeeps(d, key, hash);
    GrantedWasAdmitted(d, key, hash);
    assert d.licenses[r.company].company == r.company;
    hide Inv, DoRecover, Superseded;
    OthersReplaced(d', r.installation);
  }

  /** Why a recovery is refused: no active company has the code; its newest installation is revoked; the key is at work
      for another company; or the license is inactive; in this order. */
  lemma RefusedExactly(d: Directory, key: string, hash: string, c: nat)
    requires Inv(d) && c < |d.companies|
    ensures var r, of := DoRecover(d, key, hash).1, d.companies[c].active && d.companies[c].recoveryHash == hash;
            var disconnected := d.installs[d.licenses[c].installation].status == REVOKED;
            var elsewhere := exists i: nat :: LiveRow(d, key, i) && d.installs[i].company != c;
            && (r == UnknownCode <==> forall o | 0 <= o < |d.companies| :: !(d.companies[o].active && d.companies[o].recoveryHash == hash))
            && (of ==> (r == CompanyDisconnected <==> disconnected))
            && (of ==> (r == OtherCompany <==> !disconnected && elsewhere))
            && (of ==> (r == LicenseInactive <==> !disconnected && !elsewhere && !d.licenses[c].active))
  {
    if d.companies[c].active && d.companies[c].recoveryHash == hash {
      CodeFindsCompany(d, c, hash);
      NewestRow(d, c);
      RowsFound(d, c);
      ElsewhereExactly(d, key, c);
    }
    hide Inv, LatestOf, LicenseOf, SubscriptionOf, ForKey, Superseded, LiveRow;
  }

  lemma ElsewhereExactly(d: Directory, key: string, c: nat)
    requires Inv(d)
    ensures var e := ForKey(d.installs, key);
            (exists i: nat :: LiveRow(d, key, i) && d.installs[i].company != c) <==>
            e.Some? && d.installs[e.value].status == ACTIVE && d.installs[e.value].company != c
  {
    var e := ForKey(d.installs, key);
    if i: nat :| LiveRow(d, key, i) && d.installs[i].company != c {
      OneLiveRow(d, key, i);
    }
    if e.Some? && d.installs[e.value].status == ACTIVE {
      assert LiveRow(d, key, e.value);
    }
    hide Inv;
  }

  lemma OthersReplaced(d: Directory, i: nat)
    requires Inv(d) && i < |d.installs| && d.installs[i].status == ACTIVE
    ensures forall j | 0 <= j < |d.installs| && d.installs[j].company == d.installs[i].company && j != i ::
              d.installs[j].status != ACTIVE
  {
    forall j | 0 <= j < |d.installs| && d.installs[j].company == d.installs[i].company && d.installs[j].status == ACTIVE
      ensures j == i {
      ActiveIsUnique(d, i, j);
    }
  }

  lemma CodeFindsCompany(d: Directory, c: nat, hash: string)
    requires KeysUnique(d) && c < |d.companies| && d.companies[c].active && d.companies[c].recoveryHash == hash
    ensures CompanyByHash(d.companies, hash) == Some(c)
  {
    hide CompanyByHash;
  }

  lemma NewestRow(d: Directory, c: nat)
    requires Inv(d) && c < |d.companies|
    ensures LatestOf(d.installs, c) == Some(d.licenses[c].installation)
  {
    LatestIs(d.installs, d.licenses[c].installation);
  }

  lemma AdmittedIsGranted(d: Directory, key: string, hash: string, c: nat)
    requires Inv(d) && Admits(d, c, key, hash)
    ensures DoRecover(d, key, hash).1.Granted? && DoRecover(d, key, hash).1.company == c
  {
    CodeFindsCompany(d, c, hash);
    NewestRow(d, c);
    RowsFound(d, c);
    var existing := ForKey(d.installs, key);
    if existing.Some? && d.installs[existing.value].status.ACTIVE? {
      assert LiveRow(d, key, existing.value);
    }
    hide Inv, CompanyByHash, LatestOf, LicenseOf, SubscriptionOf, ForKey, Superseded;
  }

  /** The tests of the handler that a granted recovery has passed. */
  lemma GrantedPassed(d: Directory, key: string, hash: string)
    requires DoRecover(d, key, hash).1.Granted?
    ensures var c, existing := DoRecover(d, key, hash).1.company, ForKey(d.installs, key);
            && CompanyByHash(d.companies, hash) == Some(c)
            && (LatestOf(d.installs, c).Some? ==> d.installs[LatestOf(d.installs, c).value].status != REVOKED)
            && (LicenseOf(d.licenses, c).Some? ==> d.licenses[LicenseOf(d.licenses, c).value].active)
            && (existing.Some? && existing.value < |d.installs| && d.installs[existing.value].status == ACTIVE ==>
                  d.installs[existing.value].company == c)
  {
    hide CompanyByHash, LatestOf, LicenseOf, SubscriptionOf, Superseded;
  }

  lemma GrantedWasAdmitted(d: Directory, key: string, hash: string)
    requires Inv(d) && DoRecover(d, key, hash).1.Granted?
    ensures Admits(d, DoRecover(d, key, hash).1.company, key, hash)
  {
    GrantedPassed(d, key, hash);
    hide DoRecover, Inv, CompanyByHash, LatestOf, LicenseOf, SubscriptionOf, ForKey;
    var c := DoRecover(d, key, hash).1.company;
    NewestRow(d, c);
    RowsFound(d, c);
    forall i: nat | LiveRow(d, key, i) ensures d.installs[i].company == c {
      OneLiveRow(d, key, i);
    }
  }

  /** Were a company ever without a license or subscription row, registering or recovering would put it right: whoever is
      granted has an active license that the company's subscription points to. */
  lemma MissingRowsAreRepaired(d: Directory, r: Request)
    requires Resolves(d) && (r.Register? || r.Recover?) && Handle(d, r).1.Granted?
    ensures var (d', g) := Handle(d, r);
            && g.license < |d'.licenses| && d'.licenses[g.license].active && d'.licenses[g.license].installation == g.installation
            && exists x | 0 <= x < |d'.subscriptions| :: d'.subscriptions[x].company == g.company && d'.subscriptions[x].license.Some?
  {
    match r
    case Register(key, mk, newHash) => RegisterRepairs(d, key, mk, newHash);
    case Recover(key, hash) => RecoverRepairs(d, key, hash);
  }

  lemma RegisterRepairs(d: Directory, key: string, mk: Option<string>, newHash: string)
    requires DoRegister(d, key, mk, newHash).1.Granted?
    ensures var (d', g) := DoRegister(d, key, mk, newHash);
            && g.license < |d'.licenses| && d'.licenses[g.license].active && d'.licenses[g.license].installation == g.installation
            && exists x | 0 <= x < |d'.subscriptions| :: d'.subscriptions[x].company == g.company && d'.subscriptions[x].license.Some?
  {
    hide LastOfKey, MatchTaken, HashTaken;
    var (d', g) := DoRegister(d, key, mk, newHash);
    var x := if SubscriptionOf(d.subscriptions, g.company).Some? then SubscriptionOf(d.subscriptions, g.company).value else |d.subscriptions|;
    if ForKey(d.installs, key).None? {
      assert d'.subscriptions[|d.subscriptions|].license.Some?;
    } else {
      hide LicenseFor, SubscriptionOf, ForKey;
      assert d'.subscriptions[x].company == g.company && d'.subscriptions[x].license.Some?;
    }
  }

  lemma RecoverRepairs(d: Directory, key: string, hash: string)
    requires DoRecover(d, key, hash).1.Granted?
    ensures var (d', g) := DoRecover(d, key, hash);
            && g.license < |d'.licenses| && d'.licenses[g.license].active && d'.licenses[g.license].installation == g.installation
            && exists x | 0 <= x < |d'.subscriptions| :: d'.subscriptions[x].company == g.company && d'.subscriptions[x].license.Some?
  {
    hide LastOfKey, CompanyByHash, LatestOf, LicenseOf, SubscriptionOf, ForKey, Superseded;
    var (d', g) := DoRecover(d, key, hash);
    var x := if SubscriptionOf(d.subscriptions, g.company).Some? then SubscriptionOf(d.subscriptions, g.company).value else |d.subscriptions|;
    assert d'.subscriptions[x].company == g.company && d'.subscriptions[x].license.Some?;
  }

  /** After a recovery the new computer registers with the ids it was given. */
  lemma RecoveredMayRegister(d: Directory, key: string, hash: string, mk: Option<string>, h: string)
    requires Inv(d) && DoRecover(d, key, hash).1.Granted?
    ensures DoRegister(DoRecover(d, key, hash).0, key, mk, h) == DoRecover(d, key, hash)
  {
    var (d', r) := DoRecover(d, key, hash);
    RecoveryExactly(d, key, hash, r.company);
    RecoverKeeps(d, key, hash);
    hide DoRecover, DoRegister, Inv;
    assert KnownKey(d', key);
    KnownKeyReturns(d', key, mk, h, r.installation);
  }

  /** A signed change of details is taken from an ACTIVE installation only; the company then has the new match key,
      unless another ACTIVE company has it: then it has none. */
  lemma EditExactly(d: Directory, id: nat, mk: Option<string>)
    requires Inv(d) && id < |d.installs|
    ensures var (d', r) := DoEdit(d, id, mk);
            var c := d.installs[id].company;
            var clash := mk.Some? && exists o | 0 <= o < |d.companies| ::
                           o != c && d.companies[o].active && d.companies[o].matchKey == mk;
            if d.installs[id].status == ACTIVE then
              && r == Done && d'.installs == d.installs && d'.licenses == d.licenses && d'.subscriptions == d.subscriptions
              && d'.companies == d.companies[c := Company(if clash then None else mk, d.companies[c].recoveryHash, d.companies[c].active)]
            else r == KeyRevoked && d' == d
  {
  }

  // ---- The directory in place --------------------------------------------------------------------------

  class CompanyDirectory {
    var companies: seq<Company>
    var installs: seq<Installation>
    var licenses: seq<License>
    var subscriptions: seq<Subscription>

    constructor ()
      ensures Model() == EMPTY && Inv(Model())
    {
      companies, installs, licenses, subscriptions := [], [], [], [];
    }

    ghost function Model(): Directory
      reads this
    {
      Directory(companies, installs, licenses, subscriptions)
    }

    method RegisterInstallation(key: string, mk: Option<string>, newHash: string) returns (r: Result)
      modifies this
      ensures (Model(), r) == DoRegister(old(Model()), key, mk, newHash)
      ensures old(Inv(Model())) ==> Inv(Model())
    {
      if Inv(Model()) {
        RegisterKeeps(Model(), key, mk, newHash);
      }
      hide Inv;
      var existing := ForKey(installs, key);
      if existing.None? {
        if MatchTaken(companies, mk, None) || HashTaken(companies, newHash) {
          return CompanyExists;
        }
        var c, i, l := |companies|, |installs|, |licenses|;
        companies := companies + [Company(mk, newHash, true)];
        installs := installs + [Installation(c, key, ACTIVE)];
        licenses := licenses + [License(c, i, true)];
        subscriptions := subscriptions + [Subscription(c, Some(l))];
        return Granted(i, c, l);
      }
      var i := existing.value;
      if !installs[i].status.ACTIVE? {
        return KeyRevoked;
      }
      var c := installs[i].company;
      var license := LicenseFor(licenses, i);
      if license.Some? && !licenses[license.value].active {
        return LicenseInactive;
      }
      var l := |licenses|;
      if license.Some? {
        l := license.value;
      } else {
        licenses := licenses + [License(c, i, true)];
      }
      var sub := SubscriptionOf(subscriptions, c);
      if sub.None? {
        subscriptions := subscriptions + [Subscription(c, Some(l))];
      } else if subscriptions[sub.value].license.None? {
        subscriptions := subscriptions[sub.value := Subscription(c, Some(l))];
      }
      return Granted(i, c, l);
    }

    /** Marks the company's ACTIVE installations REPLACED, one by one. */
    method ReplaceActive(c: nat)
      modifies this`installs
      ensures installs == Superseded(old(installs), c)
    {
      for i := 0 to |installs|
        invariant |installs| == |old(installs)|
        invariant forall j | 0 <= j < i :: installs[j] == Superseded(old(installs), c)[j]
        invariant forall j | i <= j < |installs| :: installs[j] == old(installs)[j]
      {
        if installs[i].company == c && installs[i].status.ACTIVE? {
          installs := installs[i := installs[i].(status := REPLACED)];
        }
      }
    }

    method RecoverInstallation(key: string, hash: string) returns (r: Result)
      modifies this
      ensures (Model(), r) == DoRecover(old(Model()), key, hash)
      ensures old(Inv(Model())) ==> Inv(Model())
    {
      if Inv(Model()) {
        RecoverKeeps(Model(), key, hash);
      }
      hide Inv;
      var company := CompanyByHash(companies, hash);
      if company.None? {
        return UnknownCode;
      }
      var c := company.value;
      var latest := LatestOf(installs, c);
      if latest.Some? && installs[latest.value].status.REVOKED? {
        return CompanyDisconnected;
      }
      var existing := ForKey(installs, key);
      var live := existing.Some? && installs[existing.value].status.ACTIVE?;
      if live && installs[existing.value].company != c {
        return OtherCompany;
      }
      var license := LicenseOf(licenses, c);
      if license.Some? && !licenses[license.value].active {
        return LicenseInactive;
      }
      var i := |installs|;
      if live {
        i := existing.value;
      } else {
        ReplaceActive(c);
        installs := installs + [Installation(c, key, ACTIVE)];
      }
      var l := |licenses|;
      if license.Some? {
        l := license.value;
        licenses := licenses[l := licenses[l].(installation := i)];
      } else {
        licenses := licenses + [License(c, i, true)];
      }
      var sub := SubscriptionOf(subscriptions, c);
      if sub.None? {
        subscriptions := subscriptions + [Subscription(c, Some(l))];
      } else {
        subscriptions := subscriptions[sub.value := Subscription(c, Some(l))];
      }
      return Granted(i, c, l);
    }

    /** A signed change of the company's details; a match key that another company holds is not taken over. */
    method EditCompany(id: nat, mk: Option<string>) returns (r: Result)
      requires Resolves(Model())
      modifies this`companies
      ensures (Model(), r) == DoEdit(old(Model()), id, mk)
      ensures old(Inv(Model())) ==> Inv(Model())
    {
      if Inv(Model()) {
        HandleKeeps(Model(), Edit(id, mk));
      }
      hide Inv;
      if id >= |installs| {
        return UnknownInstallation;
      }
      if !installs[id].status.ACTIVE? {
        return KeyRevoked;
      }
      var c := installs[id].company;
      var clash := MatchTaken(companies, mk, Some(c));
      companies := companies[c := companies[c].(matchKey := if clash then None else mk)];
      return Done;
    }

    method RevokeInstallation(id: nat) returns (r: Result)
      modifies this`installs
      ensures (Model(), r) == DoRevoke(old(Model()), id)
      ensures old(Inv(Model())) ==> Inv(Model())
    {
      if Inv(Model()) {
        HandleKeeps(Model(), Revoke(id));
      }
      if id >= |installs| {
        return UnknownInstallation;
      }
      installs := installs[id := installs[id].(status := REVOKED)];
      return Done;
    }
  }
}
