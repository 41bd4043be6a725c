// What a completed migration leaves of each record, field by field, by the version it started
// from (api/bolt/migrator).
module Migrated {
  import opened Collections
  import opened Portainer
  import opened ResourceControls
  import opened Migration

  // Agents are reached over TLS without verification, and nothing else skips verification
  // without TLS. Before version 4 the legacy fields say whether TLS is on and where its files
  // are; after that the files stay where they were.
  predicate EndpointMigrated(e: Endpoint, r: Endpoint, from: int) {
    var t, u := e.tlsConfig, r.tlsConfig;
    && r == e.(tlsConfig := u, kind := r.kind, extensions := r.extensions, groupId := r.groupId, tags := r.tags)
    && r.kind == (if from < 10 then 1 else e.kind)
    && r.extensions == (if from < 8 then [] else e.extensions)
    && r.groupId == (if from < 9 then 1 else e.groupId)
    && r.tags == (if from < 12 then [] else e.tags)
    && (from < 11 && r.kind == 2 ==> u.tls && u.skipVerify)
    && (from < 11 && r.kind != 2 && u.skipVerify ==> u.tls)
    && (from < 4 ==>
          && u.tls == e.legacyTLS && !u.skipVerify
          && u.caCertPath == (if e.legacyTLS then e.legacyCACertPath else "")
          && u.certPath == (if e.legacyTLS then e.legacyCertPath else "")
          && u.keyPath == (if e.legacyTLS then e.legacyKeyPath else ""))
    && (from >= 4 ==> u.caCertPath == t.caCertPath && u.certPath == t.certPath && u.keyPath == t.keyPath)
    && (4 <= from < 11 && r.kind != 2 ==> u.tls == t.tls && u.skipVerify == (t.skipVerify && t.tls))
    && (from >= 11 ==> u == t)
  }

  // Before version 3 the LDAP settings start afresh and users are authenticated internally;
  // before version 13 users are no longer created automatically and there is one empty search
  // for groups; the permissions of versions 5 and 6 and the header of version 7 are granted.
  predicate SettingsMigrated(s: Settings, r: Settings, from: int) {
    && r == s.(
         authenticationMethod := r.authenticationMethod, ldap := r.ldap, allowBindMounts := r.allowBindMounts,
         allowPrivilegedMode := r.allowPrivilegedMode, displayDonationHeader := r.displayDonationHeader)
    && r.authenticationMethod == (if from < 3 then 1 else s.authenticationMethod)
    && (from < 5 ==> r.allowBindMounts) && (from >= 5 ==> r.allowBindMounts == s.allowBindMounts)
    && (from < 6 ==> r.allowPrivilegedMode) && (from >= 6 ==> r.allowPrivilegedMode == s.allowPrivilegedMode)
    && (from < 7 ==> r.displayDonationHeader) && (from >= 7 ==> r.displayDonationHeader == s.displayDonationHeader)
    && (from < 3 ==>
          r.ldap == LDAPSettings(
            "", "", "", TLSConfiguration(false, false, "", "", ""), false,
            [LDAPSearch("", "", "")], [LDAPSearch("", "", "")], false))
    && (3 <= from < 13 ==>
          r.ldap == s.ldap.(autoCreateUsers := false, groupSearchSettings := [LDAPSearch("", "", "")]))
    && (from >= 13 ==> r.ldap == s.ldap)
  }

  ghost predicate DatabaseMigrated(db: Database, r: Database, from: int) {
    && r.endpoints.Keys == db.endpoints.Keys
    && (forall k :: k in db.endpoints ==> EndpointMigrated(db.endpoints[k], r.endpoints[k], from))
    && r.groups.Keys == db.groups.Keys
    && (forall k :: k in db.groups ==>
          r.groups[k] == db.groups[k].(tags := if from < 12 then [] else db.groups[k].tags))
    && r.settings.Some? == db.settings.Some?
    && (db.settings.Some? ==> SettingsMigrated(db.settings.value, r.settings.value, from))
    && (forall k :: k in r.controls <==> k in db.controls && !(from < 14 && db.controls[k].administratorsOnly))
    && (forall k :: k in r.controls ==> r.controls[k] == db.controls[k])
  }

  lemma EndpointIsMigrated(e: Endpoint, from: int)
    ensures EndpointMigrated(e, EndpointAt(e, from, DB_VERSION), from)
  {
  }

  lemma SettingsAreMigrated(s: Settings, from: int)
    ensures SettingsMigrated(s, SettingsAt(s, from, DB_VERSION), from)
  {
  }

  // That is what running every step in order amounts to.
  lemma StepsMigrate(db: Database, from: int)
    ensures DatabaseMigrated(db, DbAt(db, from, DB_VERSION).(version := DB_VERSION), from)
  {
    StepsCompose(db, from, DB_VERSION);
    forall k | k in db.endpoints
      ensures EndpointMigrated(db.endpoints[k], DbAt(db, from, DB_VERSION).endpoints[k], from)
    {
      EndpointIsMigrated(db.endpoints[k], from);
    }
    if db.settings.Some? {
      SettingsAreMigrated(db.settings.value, from);
    }
  }
}
