// What the migration steps from database version 2 do to each record, and why an interrupted
// migration can be started again (api/bolt/migrator).
module Migration {
  import opened Collections
  import opened Portainer
  import opened ResourceControls

  const DB_VERSION := 14
  const AUTHENTICATION_INTERNAL := 1
  const UNASSIGNED_GROUP := 1

  datatype LDAPSearch = LDAPSearch(baseDN: string, filter: string, attribute: string)

  const ZERO_SEARCH := LDAPSearch("", "", "")

  datatype LDAPSettings = LDAPSettings(
    readerDN: string, password: string, url: string, tlsConfig: TLSConfiguration, startTLS: bool,
    searchSettings: seq<LDAPSearch>, groupSearchSettings: seq<LDAPSearch>, autoCreateUsers: bool)

  datatype Settings = Settings(
    logoURL: string,
    blackListedLabels: seq<(string, string)>,
    authenticationMethod: int,
    ldap: LDAPSettings,
    allowBindMounts: bool,
    allowPrivilegedMode: bool,
    snapshotInterval: string,
    templatesURL: string,
    displayDonationHeader: bool,
    displayExternalContributors: bool)

  datatype Database = Database(
    endpoints: map<int, Endpoint>,
    groups: map<int, EndpointGroup>,
    settings: Option<Settings>,
    controls: map<int, ResourceControl>,
    version: int)

  // ----- One step, on one record -----

  // The TLS settings the legacy fields describe.
  function FromLegacy(e: Endpoint): TLSConfiguration {
    if e.legacyTLS
    then TLSConfiguration(true, false, e.legacyCACertPath, e.legacyCertPath, e.legacyKeyPath)
    else NO_TLS
  }

  // Agents always use TLS without verification; elsewhere skipping verification needs TLS.
  function Normalised(kind: int, t: TLSConfiguration): TLSConfiguration {
    if kind == AGENT_ON_DOCKER_ENVIRONMENT then t.(tls := true, skipVerify := true)
    else if t.skipVerify && !t.tls then t.(skipVerify := false)
    else t
  }

  // The step that leads to version `target`, on an endpoint.
  function EndpointStep(target: int, e: Endpoint): Endpoint {
    if target == 4 then e.(tlsConfig := FromLegacy(e))
    else if target == 8 then e.(extensions := [])
    else if target == 9 then e.(groupId := UNASSIGNED_GROUP)
    else if target == 10 then e.(kind := DOCKER_ENVIRONMENT)
    else if target == 11 then e.(tlsConfig := Normalised(e.kind, e.tlsConfig))
    else if target == 12 then e.(tags := [])
    else e
  }

  function GroupStep(target: int, g: EndpointGroup): EndpointGroup {
    if target == 12 then g.(tags := []) else g
  }

  function SettingsStep(target: int, s: Settings): Settings {
    if target == 3 then
      s.(authenticationMethod := AUTHENTICATION_INTERNAL,
      ldap := LDAPSettings("", "", "", NO_TLS, false, [ZERO_SEARCH], [], false))
    else if target == 5 then s.(allowBindMounts := true)
    else if target == 6 then s.(allowPrivilegedMode := true)
    else if target == 7 then s.(displayDonationHeader := true)
    else if target == 13 then
      s.(ldap := s.ldap.(autoCreateUsers := false, groupSearchSettings := [ZERO_SEARCH]))
    else s
  }

  predicate ControlKept(target: int, rc: ResourceControl) {
    !(target == 14 && rc.administratorsOnly)
  }

  predicate IsSettingsStep(target: int) {
    target == 3 || target == 5 || target == 6 || target == 7 || target == 13
  }

  function OptionStep(target: int, s: Option<Settings>): Option<Settings> {
    if s.Some? then Some(SettingsStep(target, s.value)) else None
  }

  // ----- One step, on the database -----

  function DbStep(target: int, db: Database): Database {
    Database(
      map k | k in db.endpoints :: EndpointStep(target, db.endpoints[k]),
      map k | k in db.groups :: GroupStep(target, db.groups[k]),
      OptionStep(target, db.settings),
      map k | k in db.controls && ControlKept(target, db.controls[k]) :: db.controls[k],
      db.version)
  }

  // The database once every step from version `from` up to version `to` is complete.
  function DbAt(db: Database, from: int, to: int): Database
    decreases if from < to then to - from else 0
  {
    if to <= from then db else DbStep(to, DbAt(db, from, to - 1))
  }

  // Records under their own identifiers.
  predicate KeyedDb(db: Database) {
    && (forall k :: k in db.endpoints ==> db.endpoints[k].id == k)
    && (forall k :: k in db.groups ==> db.groups[k].id == k)
    && (forall k :: k in db.controls ==> db.controls[k].id == k)
  }

  // Some records are as before a step and some as after it.
  predicate InStep(before: Database, after: Database, now: Database) {
    && now.version == before.version
    && now.endpoints.Keys == before.endpoints.Keys == after.endpoints.Keys
    && (forall k :: k in now.endpoints ==>
          now.endpoints[k] == before.endpoints[k] || now.endpoints[k] == after.endpoints[k])
    && now.groups.Keys == before.groups.Keys == after.groups.Keys
    && (forall k :: k in now.groups ==> now.groups[k] == before.groups[k] || now.groups[k] == after.groups[k])
    && (now.settings == before.settings || now.settings == after.settings)
    && (forall k :: k in after.controls ==> k in now.controls)
    && (forall k :: k in now.controls ==> k in before.controls && now.controls[k] == before.controls[k])
  }

  // The first step that cannot run because the settings record is missing, or 0.
  function FailsAt(db: Database, from: int): int {
    if db.settings.Some? then 0
    else if from < 3 then 3
    else if from < 5 then 5
    else if from < 6 then 6
    else if from < 7 then 7
    else if from < 13 then 13
    else 0
  }

  // The version up to which a run from `from` takes the database.
  function End(db: Database, from: int): int {
    if FailsAt(db, from) == 0 then DB_VERSION else FailsAt(db, from) - 1
  }

  predicate InterruptedAt(original: Database, now: Database, from: int, k: int) {
    k <= End(original, from) && InStep(DbAt(original, from, k - 1), DbAt(original, from, k), now)
  }

  // A state in which a migration from version `from` can be interrupted.
  ghost predicate Interrupted(original: Database, now: Database, from: int) {
    exists k :: InterruptedAt(original, now, from, k)
  }

  // ----- Closed forms: what each record has become at a version -----

  predicate Ran(step: int, from: int, to: int) {
    from < step <= to
  }

  function EndpointAt(e: Endpoint, from: int, to: int): Endpoint {
    var kind := if Ran(10, from, to) then DOCKER_ENVIRONMENT else e.kind;
    var tls := if Ran(4, from, to) then FromLegacy(e) else e.tlsConfig;
    e.(
    tlsConfig := if Ran(11, from, to) then Normalised(kind, tls) else tls,
    extensions := if Ran(8, from, to) then [] else e.extensions,
    groupId := if Ran(9, from, to) then UNASSIGNED_GROUP else e.groupId,
    kind := kind,
    tags := if Ran(12, from, to) then [] else e.tags)
  }

  function GroupAt(g: EndpointGroup, from: int, to: int): EndpointGroup {
    if Ran(12, from, to) then g.(tags := []) else g
  }

  function SettingsAt(s: Settings, from: int, to: int): Settings {
    var ldap := if Ran(3, from, to) then LDAPSettings("", "", "", NO_TLS, false, [ZERO_SEARCH], [], false) else s.ldap;
    s.(
    authenticationMethod := if Ran(3, from, to) then AUTHENTICATION_INTERNAL else s.authenticationMethod,
    ldap := if Ran(13, from, to) then ldap.(autoCreateUsers := false, groupSearchSettings := [ZERO_SEARCH]) else ldap,
    allowBindMounts := Ran(5, from, to) || s.allowBindMounts,
    allowPrivilegedMode := Ran(6, from, to) || s.allowPrivilegedMode,
    displayDonationHeader := Ran(7, from, to) || s.displayDonationHeader)
  }

  predicate ControlAt(rc: ResourceControl, from: int, to: int) {
    !(Ran(14, from, to) && rc.administratorsOnly)
  }

  // Running the steps one after the other leaves every record in its closed form.
  lemma {:induction false} StepsCompose(db: Database, from: int, to: int)
    ensures DbAt(db, from, to).endpoints.Keys == db.endpoints.Keys
    ensures forall k :: k in db.endpoints ==> DbAt(db, from, to).endpoints[k] == EndpointAt(db.endpoints[k], from, to)
    ensures DbAt(db, from, to).groups.Keys == db.groups.Keys
    ensures forall k :: k in db.groups ==> DbAt(db, from, to).groups[k] == GroupAt(db.groups[k], from, to)
    ensures DbAt(db, from, to).settings ==
            if db.settings.Some? then Some(SettingsAt(db.settings.value, from, to)) else None
    ensures forall k :: k in DbAt(db, from, to).controls <==> k in db.controls && ControlAt(db.controls[k], from, to)
    ensures forall k :: k in DbAt(db, from, to).controls ==> DbAt(db, from, to).controls[k] == db.controls[k]
    ensures DbAt(db, from, to).version == db.version
    decreases if from < to then to - from else 0
  {
    if to > from {
      StepsCompose(db, from, to - 1);
      EndpointStepsCompose(db, DbAt(db, from, to - 1), from, to);
      if db.settings.Some? {
        SettingsStepComposes(db.settings.value, from, to);
      }
    }
  }

  lemma EndpointStepsCompose(db: Database, before: Database, from: int, to: int)
    requires from < to && before.endpoints.Keys == db.endpoints.Keys
    requires forall k :: k in db.endpoints ==> before.endpoints[k] == EndpointAt(db.endpoints[k], from, to - 1)
    ensures forall k :: k in db.endpoints ==> DbStep(to, before).endpoints[k] == EndpointAt(db.endpoints[k], from, to)
  {
    forall k | k in db.endpoints
      ensures DbStep(to, before).endpoints[k] == EndpointAt(db.endpoints[k], from, to)
    {
      EndpointStepComposes(db.endpoints[k], from, to);
    }
  }

  lemma EndpointStepComposes(e: Endpoint, from: int, to: int)
    requires from < to
    ensures EndpointStep(to, EndpointAt(e, from, to - 1)) == EndpointAt(e, from, to)
  {
  }

  lemma SettingsStepComposes(s: Settings, from: int, to: int)
    requires from < to
    ensures SettingsStep(to, SettingsAt(s, from, to - 1)) == SettingsAt(s, from, to)
  {
  }

  // Re-running from the same version absorbs whatever part of the work was done already.
  lemma RerunAbsorbs(e: Endpoint, s: Settings, from: int, done: int, to: int)
    requires done <= to
    ensures EndpointAt(EndpointAt(e, from, done), from, to) == EndpointAt(e, from, to)
    ensures SettingsAt(SettingsAt(s, from, done), from, to) == SettingsAt(s, from, to)
  {
  }

  // The order of the steps is what makes this work: the TLS step of version 11 run alone on
  // an agent of version 9 is not absorbed by a migration from version 9.
  lemma OrderMatters(e: Endpoint)
    requires e.kind == AGENT_ON_DOCKER_ENVIRONMENT && e.tlsConfig == NO_TLS
    ensures EndpointAt(EndpointStep(11, e), 9, DB_VERSION) != EndpointAt(e, 9, DB_VERSION)
  {
  }

  // ----- Restarting -----

  lemma RestartAbsorbs(original: Database, now: Database, from: int, k: int, to: int)
    requires k <= to && InStep(DbAt(original, from, k - 1), DbAt(original, from, k), now)
    ensures DbAt(now, from, to) == DbAt(original, from, to)
  {
    var a, b := DbAt(now, from, to), DbAt(original, from, to);
    forall id
      ensures (id in a.endpoints <==> id in b.endpoints) && (id in a.endpoints ==> a.endpoints[id] == b.endpoints[id])
      ensures (id in a.groups <==> id in b.groups) && (id in a.groups ==> a.groups[id] == b.groups[id])
      ensures (id in a.controls <==> id in b.controls) && (id in a.controls ==> a.controls[id] == b.controls[id])
    {
      RestartAbsorbsRecord(original, now, from, k, to, id);
    }
    RestartAbsorbsSettings(original, now, from, k, to);
    assert a.endpoints == b.endpoints && a.groups == b.groups && a.controls == b.controls;
  }

  // The closed forms at one identifier.
  lemma RecordAt(db: Database, from: int, to: int, id: int)
    ensures id in DbAt(db, from, to).endpoints <==> id in db.endpoints
    ensures id in db.endpoints ==> DbAt(db, from, to).endpoints[id] == EndpointAt(db.endpoints[id], from, to)
    ensures id in DbAt(db, from, to).groups <==> id in db.groups
    ensures id in db.groups ==> DbAt(db, from, to).groups[id] == GroupAt(db.groups[id], from, to)
    ensures id in DbAt(db, from, to).controls <==> id in db.controls && ControlAt(db.controls[id], from, to)
    ensures id in DbAt(db, from, to).controls ==> DbAt(db, from, to).controls[id] == db.controls[id]
  {
    StepsCompose(db, from, to);
  }

  lemma RestartAbsorbsRecord(original: Database, now: Database, from: int, k: int, to: int, id: int)
    requires k <= to && InStep(DbAt(original, from, k - 1), DbAt(original, from, k), now)
    ensures var a, b := DbAt(now, from, to), DbAt(original, from, to);
            && (id in a.endpoints <==> id in b.endpoints) && (id in a.endpoints ==> a.endpoints[id] == b.endpoints[id])
            && (id in a.groups <==> id in b.groups) && (id in a.groups ==> a.groups[id] == b.groups[id])
            && (id in a.controls <==> id in b.controls) && (id in a.controls ==> a.controls[id] == b.controls[id])
  {
    RecordAt(original, from, k - 1, id);
    RecordAt(original, from, k, id);
    RecordAt(original, from, to, id);
    RecordAt(now, from, to, id);
    if id in original.endpoints {
      RerunAbsorbs(original.endpoints[id], ANY_SETTINGS, from, k - 1, to);
      RerunAbsorbs(original.endpoints[id], ANY_SETTINGS, from, k, to);
    }
  }

  lemma RestartAbsorbsSettings(original: Database, now: Database, from: int, k: int, to: int)
    requires k <= to && InStep(DbAt(original, from, k - 1), DbAt(original, from, k), now)
    ensures DbAt(now, from, to).settings == DbAt(original, from, to).settings
    ensures DbAt(now, from, to).version == DbAt(original, from, to).version
  {
    StepsCompose(original, from, k - 1);
    StepsCompose(original, from, k);
    StepsCompose(original, from, to);
    StepsCompose(now, from, to);
    if original.settings.Some? {
      RerunAbsorbs(ZERO_ENDPOINT, original.settings.value, from, k - 1, to);
      RerunAbsorbs(ZERO_ENDPOINT, original.settings.value, from, k, to);
    }
  }

  const ANY_SETTINGS := Settings(
    "", [], 0, LDAPSettings("", "", "", NO_TLS, false, [], [], false), false, false, "", "", false, false)

  // An interrupted migration can be started again from the same version: it still goes as far
  // as the uninterrupted one, to the new version or to a missing settings record, and at the
  // end of both, and beyond, the databases are the same.
  lemma RestartReachesSameState(original: Database, now: Database, from: int, to: int)
    requires Interrupted(original, now, from) && to >= End(original, from)
    ensures End(now, from) == End(original, from)
    ensures DbAt(now, from, to) == DbAt(original, from, to)
    ensures now.version == original.version && now.settings.Some? == original.settings.Some?
    ensures KeyedDb(original) ==> KeyedDb(now)
  {
    var k :| InterruptedAt(original, now, from, k);
    InStepStaysKeyed(original, now, from, k);
    RestartAbsorbs(original, now, from, k, to);
  }

  lemma InStepStaysKeyed(original: Database, now: Database, from: int, k: int)
    requires InStep(DbAt(original, from, k - 1), DbAt(original, from, k), now)
    ensures now.version == original.version && now.settings.Some? == original.settings.Some?
    ensures KeyedDb(original) ==> KeyedDb(now)
  {
    StaysKeyed(original, from, k - 1);
    StaysKeyed(original, from, k);
  }

  lemma StaysKeyed(db: Database, from: int, to: int)
    ensures KeyedDb(db) ==> KeyedDb(DbAt(db, from, to))
    ensures DbAt(db, from, to).settings.Some? == db.settings.Some?
    ensures DbAt(db, from, to).version == db.version
  {
    StepsCompose(db, from, to);
  }
}
