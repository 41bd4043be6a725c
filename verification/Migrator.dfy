// The migrator of api/bolt/migrator: guarded steps over a database whose writes may stop
// succeeding at any moment. A write that fails is how a run is interrupted.
module Migrator {
  import opened Collections
  import opened Bucket
  import opened Portainer
  import opened ResourceControls
  import opened Migration
  import opened Migrated

  class Store {
    const endpoints: Bucket<Endpoint>
    const groups: Bucket<EndpointGroup>
    const controls: Bucket<ResourceControl>
    var settings: Option<Settings>
    var version: int
    // How many more writes will succeed; None when all will.
    var writesLeft: Option<nat>

    constructor (endpoints: Bucket<Endpoint>, groups: Bucket<EndpointGroup>, controls: Bucket<ResourceControl>,
                 settings: Option<Settings>, version: int)
      ensures this.endpoints == endpoints && this.groups == groups && this.controls == controls
      ensures this.settings == settings && this.version == version
    {
      this.endpoints, this.groups, this.controls := endpoints, groups, controls;
      this.settings, this.version, this.writesLeft := settings, version, None;
    }

    ghost function View(): Database
      reads this, endpoints, groups, controls
    {
      Database(endpoints.data, groups.data, settings, controls.data, version)
    }

    method Write() returns (ok: bool)
      modifies `writesLeft
      ensures ok <==> old(writesLeft) != Some(0)
      ensures writesLeft ==
                if ok && old(writesLeft).Some? then Some(old(writesLeft).value - 1) else old(writesLeft)
    {
      ok := writesLeft != Some(0);
      if ok && writesLeft.Some? {
        writesLeft := Some(writesLeft.value - 1);
      }
    }

    method UpdateEndpoint(id: int, endpoint: Endpoint) returns (ok: bool)
      modifies `writesLeft, endpoints`data
      ensures !ok ==> writesLeft == Some(0)
      ensures old(writesLeft).None? ==> writesLeft.None?
      ensures endpoints.data == if ok then old(endpoints.data)[id := endpoint] else old(endpoints.data)
    {
      ok := Write();
      if ok {
        endpoints.Put(id, endpoint);
      }
    }

    method UpdateEndpointGroup(id: int, group: EndpointGroup) returns (ok: bool)
      modifies `writesLeft, groups`data
      ensures !ok ==> writesLeft == Some(0)
      ensures old(writesLeft).None? ==> writesLeft.None?
      ensures groups.data == if ok then old(groups.data)[id := group] else old(groups.data)
    {
      ok := Write();
      if ok {
        groups.Put(id, group);
      }
    }

    method DeleteResourceControl(id: int) returns (ok: bool)
      modifies `writesLeft, controls`data
      ensures !ok ==> writesLeft == Some(0)
      ensures old(writesLeft).None? ==> writesLeft.None?
      ensures controls.data == if ok then old(controls.data) - {id} else old(controls.data)
    {
      ok := Write();
      if ok {
        controls.Delete(id);
      }
    }

    method UpdateSettings(s: Settings) returns (ok: bool)
      modifies `writesLeft, `settings
      ensures !ok ==> writesLeft == Some(0)
      ensures old(writesLeft).None? ==> writesLeft.None?
      ensures settings == if ok then Some(s) else old(settings)
    {
      ok := Write();
      if ok {
        settings := Some(s);
      }
    }

    method StoreDBVersion(v: int) returns (ok: bool)
      modifies `writesLeft, `version
      ensures !ok ==> writesLeft == Some(0)
      ensures old(writesLeft).None? ==> writesLeft.None?
      ensures version == if ok then v else old(version)
    {
      ok := Write();
      if ok {
        version := v;
      }
    }
  }

  datatype Outcome = Completed | WriteFailed | SettingsMissing

  ghost predicate Rewritten<V>(before: map<int, V>, now: map<int, V>, step: V -> V, complete: bool) {
    && now.Keys == before.Keys
    && forall k :: k in before ==> now[k] == step(before[k]) || (!complete && now[k] == before[k])
  }

  function EndpointStepTo(target: int): Endpoint -> Endpoint {
    e => EndpointStep(target, e)
  }

  function GroupStepTo(target: int): EndpointGroup -> EndpointGroup {
    g => GroupStep(target, g)
  }

  ghost function AllStepped<V>(before: map<int, V>, step: V -> V): (goal: map<int, V>)
    ensures goal.Keys == before.Keys
    ensures forall k :: k in goal ==> goal[k] == step(before[k])
  {
    map k | k in before :: step(before[k])
  }

  class Migrator {
    const store: Store
    const currentDBVersion: int

    constructor (store: Store, currentDBVersion: int)
      ensures this.store == store && this.currentDBVersion == currentDBVersion
    {
      this.store, this.currentDBVersion := store, currentDBVersion;
    }

    // The loop of every endpoint step.
    method RewriteEndpoints(target: int) returns (ok: bool)
      requires forall k :: k in store.endpoints.data ==> store.endpoints.data[k].id == k
      modifies store`writesLeft, store.endpoints`data
      ensures !ok ==> store.writesLeft == Some(0)
      ensures old(store.writesLeft).None? ==> store.writesLeft.None?
      ensures Rewritten(old(store.endpoints.data), store.endpoints.data, EndpointStepTo(target), ok)
    {
      ghost var before := store.endpoints.data;
      ghost var n;
      ok, n := WalkEndpoints(target, AllStepped(before, EndpointStepTo(target)));
      EachIsAt(before, store.endpoints.data, n, EndpointStepTo(target));
    }

    method WalkEndpoints(target: int, ghost goal: map<int, Endpoint>) returns (ok: bool, ghost n: nat)
      requires forall k :: k in store.endpoints.data ==> store.endpoints.data[k].id == k
      requires goal.Keys == store.endpoints.data.Keys
      requires forall k :: k in goal ==> goal[k] == EndpointStepTo(target)(store.endpoints.data[k])
      modifies store`writesLeft, store.endpoints`data
      ensures !ok ==> store.writesLeft == Some(0)
      ensures old(store.writesLeft).None? ==> store.writesLeft.None?
      ensures WalkedTo(store.endpoints.data, old(store.endpoints.data), goal, n)
      ensures ok ==> n == |Ordered(old(store.endpoints.data).Keys)|
    {
      ghost var before := store.endpoints.data;
      var legacy := store.endpoints.Records();
      n := 0;
      for i := 0 to |legacy|
        invariant n == i && (old(store.writesLeft).None? ==> store.writesLeft.None?)
        invariant WalkedTo(store.endpoints.data, before, goal, i)
      {
        assert Ordered(before.Keys)[i] in before && legacy[i] == before[Ordered(before.Keys)[i]];
        ok := RewriteEndpoint(target, legacy[i], before, goal, i);
        if !ok {
          return;
        }
        n := n + 1;
      }
      ok := true;
    }

    // One round of it.
    method RewriteEndpoint(
      target: int, record: Endpoint, ghost before: map<int, Endpoint>, ghost goal: map<int, Endpoint>, ghost i: nat)
      returns (ok: bool)
      requires WalkedTo(store.endpoints.data, before, goal, i) && i < |Ordered(before.Keys)|
      requires record.id == Ordered(before.Keys)[i] && goal[record.id] == EndpointStepTo(target)(record)
      modifies store`writesLeft, store.endpoints`data
      ensures !ok ==> store.writesLeft == Some(0)
      ensures old(store.writesLeft).None? ==> store.writesLeft.None?
      ensures WalkedTo(store.endpoints.data, before, goal, if ok then i + 1 else i)
    {
      ghost var now := store.endpoints.data;
      var endpoint := Assign(target, record);
      ok := store.UpdateEndpoint(endpoint.id, endpoint);
      if ok {
        WalkOn(now, before, goal, i, store.endpoints.data);
      }
    }

    // The assignments of the endpoint steps.
    method Assign(target: int, e: Endpoint) returns (endpoint: Endpoint)
      ensures endpoint == EndpointStepTo(target)(e) && endpoint.id == e.id
    {
      endpoint := e;
      if target == 4 {
        var tls := NO_TLS;
        if endpoint.legacyTLS {
          tls := tls.(tls := true);
          tls := tls.(skipVerify := false);
          tls := tls.(caCertPath := endpoint.legacyCACertPath);
          tls := tls.(certPath := endpoint.legacyCertPath);
          tls := tls.(keyPath := endpoint.legacyKeyPath);
        }
        endpoint := endpoint.(tlsConfig := tls);
      } else if target == 8 {
        endpoint := endpoint.(extensions := []);
      } else if target == 9 {
        endpoint := endpoint.(groupId := 1);
      } else if target == 10 {
        endpoint := endpoint.(kind := DOCKER_ENVIRONMENT);
      } else if target == 11 {
        if endpoint.kind == AGENT_ON_DOCKER_ENVIRONMENT {
          endpoint := endpoint.(tlsConfig := endpoint.tlsConfig.(tls := true));
          endpoint := endpoint.(tlsConfig := endpoint.tlsConfig.(skipVerify := true));
        } else if endpoint.tlsConfig.skipVerify && !endpoint.tlsConfig.tls {
          endpoint := endpoint.(tlsConfig := endpoint.tlsConfig.(skipVerify := false));
        }
      } else if target == 12 {
        endpoint := endpoint.(tags := []);
      }
    }

    method RewriteGroups() returns (ok: bool)
      requires forall k :: k in store.groups.data ==> store.groups.data[k].id == k
      modifies store`writesLeft, store.groups`data
      ensures !ok ==> store.writesLeft == Some(0)
      ensures old(store.writesLeft).None? ==> store.writesLeft.None?
      ensures Rewritten(old(store.groups.data), store.groups.data, GroupStepTo(12), ok)
    {
      ghost var before := store.groups.data;
      ghost var n;
      ok, n := WalkGroups(AllStepped(before, GroupStepTo(12)));
      EachIsAt(before, store.groups.data, n, GroupStepTo(12));
    }

    method WalkGroups(ghost goal: map<int, EndpointGroup>) returns (ok: bool, ghost n: nat)
      requires forall k :: k in store.groups.data ==> store.groups.data[k].id == k
      requires goal.Keys == store.groups.data.Keys
      requires forall k :: k in goal ==> goal[k] == GroupStepTo(12)(store.groups.data[k])
      modifies store`writesLeft, store.groups`data
      ensures !ok ==> store.writesLeft == Some(0)
      ensures old(store.writesLeft).None? ==> store.writesLeft.None?
      ensures WalkedTo(store.groups.data, old(store.groups.data), goal, n)
      ensures ok ==> n == |Ordered(old(store.groups.data).Keys)|
    {
      ghost var before := store.groups.data;
      var legacy := store.groups.Records();
      n := 0;
      for i := 0 to |legacy|
        invariant n == i && (old(store.writesLeft).None? ==> store.writesLeft.None?)
        invariant WalkedTo(store.groups.data, before, goal, i)
      {
        assert Ordered(before.Keys)[i] in before && legacy[i] == before[Ordered(before.Keys)[i]];
        ok := RewriteGroup(legacy[i], before, goal, i);
        if !ok {
          return;
        }
        n := n + 1;
      }
      ok := true;
    }

    // One round of it.
    method RewriteGroup(
      record: EndpointGroup, ghost before: map<int, EndpointGroup>, ghost goal: map<int, EndpointGroup>, ghost i: nat)
      returns (ok: bool)
      requires WalkedTo(store.groups.data, before, goal, i) && i < |Ordered(before.Keys)|
      requires record.id == Ordered(before.Keys)[i] && goal[record.id] == GroupStepTo(12)(record)
      modifies store`writesLeft, store.groups`data
      ensures !ok ==> store.writesLeft == Some(0)
      ensures old(store.writesLeft).None? ==> store.writesLeft.None?
      ensures WalkedTo(store.groups.data, before, goal, if ok then i + 1 else i)
    {
      ghost var now := store.groups.data;
      var group := record.(tags := []);
      ok := store.UpdateEndpointGroup(group.id, group);
      if ok {
        WalkOn(now, before, goal, i, store.groups.data);
      }
    }

    // Administrators-only controls are deleted, one by one.
    method DeleteControls() returns (ok: bool)
      requires forall k :: k in store.controls.data ==> store.controls.data[k].id == k
      modifies store`writesLeft, store.controls`data
      ensures !ok ==> store.writesLeft == Some(0)
      ensures old(store.writesLeft).None? ==> store.writesLeft.None?
      ensures forall k :: k in store.controls.data ==>
                k in old(store.controls.data) && store.controls.data[k] == old(store.controls.data)[k]
      ensures forall k :: k in old(store.controls.data) && ControlKept(14, old(store.controls.data)[k]) ==>
              k in store.controls.data
      ensures ok ==> forall k :: k in store.controls.data ==> ControlKept(14, store.controls.data[k])
    {
      ghost var before := store.controls.data;
      var resourceControls := store.controls.Records();
      ghost var ids := Ordered(before.Keys);
      for i := 0 to |resourceControls|
        invariant old(store.writesLeft).None? ==> store.writesLeft.None?
        invariant forall k :: k in store.controls.data ==> k in before && store.controls.data[k] == before[k]
        invariant forall k :: k in before && ControlKept(14, before[k]) ==> k in store.controls.data
        invariant forall j :: 0 <= j < i && !ControlKept(14, before[ids[j]]) ==> ids[j] !in store.controls.data
      {
        assert ids[i] in before && resourceControls[i].id == ids[i];
        if resourceControls[i].administratorsOnly {
          ok := store.DeleteResourceControl(resourceControls[i].id);
          if !ok {
            return;
          }
        }
      }
      ok := true;
      forall k | k in store.controls.data
        ensures ControlKept(14, store.controls.data[k])
      {
        var j := Position(before.Keys, k);
      }
    }

    method RewriteSettings(target: int) returns (outcome: Outcome)
      modifies store`writesLeft, store`settings
      ensures outcome.SettingsMissing? <==> old(store.settings).None?
      ensures outcome.WriteFailed? ==> store.writesLeft == Some(0)
      ensures old(store.writesLeft).None? ==> store.writesLeft.None?
      ensures store.settings ==
              if outcome.Completed? then OptionStep(target, old(store.settings)) else old(store.settings)
    {
      if store.settings.None? {
        return SettingsMissing;
      }
      var legacySettings := store.settings.value;
      if target == 3 {
        legacySettings := legacySettings.(authenticationMethod := AUTHENTICATION_INTERNAL);
        legacySettings := legacySettings.(ldap := LDAPSettings("", "", "", NO_TLS, false, [ZERO_SEARCH], [], false));
      } else if target == 5 {
        legacySettings := legacySettings.(allowBindMounts := true);
      } else if target == 6 {
        legacySettings := legacySettings.(allowPrivilegedMode := true);
      } else if target == 7 {
        legacySettings := legacySettings.(displayDonationHeader := true);
      } else if target == 13 {
        legacySettings := legacySettings.(ldap := legacySettings.ldap.(autoCreateUsers := false));
        legacySettings := legacySettings.(ldap := legacySettings.ldap.(groupSearchSettings := [ZERO_SEARCH]));
      }
      var ok := store.UpdateSettings(legacySettings);
      outcome := if ok then Completed else WriteFailed;
    }

    // What a step does: all of it, or part of it when a write fails, or nothing when the
    // settings it changes are missing.
    twostate predicate Stepped(target: int, outcome: Outcome)
      reads store, store.endpoints, store.groups, store.controls
    {
      match outcome
      case Completed => store.View() == DbStep(target, old(store.View()))
      case WriteFailed =>
        && store.writesLeft == Some(0)
        && InStep(old(store.View()), DbStep(target, old(store.View())), store.View())
      case SettingsMissing => IsSettingsStep(target) && store.settings.None? && store.View() == old(store.View())
    }

    // Versions 4, 8, 9, 10, 11 and 12: endpoints, and at version 12 the groups after them.
    method EndpointsStep(target: int) returns (outcome: Outcome)
      requires KeyedDb(store.View()) && (target == 4 || 8 <= target <= 12)
      modifies store`writesLeft, store.endpoints`data, store.groups`data
      ensures Stepped(target, outcome)
      ensures old(store.writesLeft).None? ==> store.writesLeft.None?
    {
      ghost var before := store.View();
      var ok := RewriteEndpoints(target);
      if ok && target == 12 {
        ok := RewriteGroups();
      }
      PartialStep(target, before, store.View(), ok);
      outcome := if ok then Completed else WriteFailed;
    }

    // Version 14.
    method ControlsStep() returns (outcome: Outcome)
      requires KeyedDb(store.View())
      modifies store`writesLeft, store.controls`data
      ensures Stepped(14, outcome)
      ensures old(store.writesLeft).None? ==> store.writesLeft.None?
    {
      ghost var before := store.View();
      var ok := DeleteControls();
      PartialStep(14, before, store.View(), ok);
      outcome := if ok then Completed else WriteFailed;
    }

    // Versions 3, 5, 6, 7 and 13.
    method SettingsStep(target: int) returns (outcome: Outcome)
      requires IsSettingsStep(target)
      modifies store`writesLeft, store`settings
      ensures Stepped(target, outcome)
      ensures old(store.writesLeft).None? ==> store.writesLeft.None?
      ensures !outcome.SettingsMissing? ==> old(store.settings).Some?
    {
      ghost var before := store.View();
      outcome := RewriteSettings(target);
      PartialStep(target, before, store.View(), outcome.Completed?);
    }

    // The step to version `target`, run unless the database was already there. `origin` is the
    // database the migration started from.
    method Advance(target: int, ghost origin: Database) returns (outcome: Outcome)
      requires KeyedDb(origin) && 3 <= target <= DB_VERSION
      requires store.View() == DbAt(origin, currentDBVersion, target - 1)
      requires target - 1 <= End(origin, currentDBVersion)
      modifies store, store.endpoints, store.groups, store.controls
      ensures Reached(origin, target, outcome)
      ensures old(store.writesLeft).None? ==> store.writesLeft.None?
    {
      if currentDBVersion >= target {
        return Completed;
      }
      StaysKeyed(origin, currentDBVersion, target - 1);
      outcome := Step(target);
      if outcome.WriteFailed? {
        assert InterruptedAt(origin, store.View(), currentDBVersion, target);
      }
    }

    // The step to a version, whatever it is about.
    method Step(target: int) returns (outcome: Outcome)
      requires KeyedDb(store.View()) && 3 <= target <= DB_VERSION
      modifies store`writesLeft, store`settings, store.endpoints`data, store.groups`data, store.controls`data
      ensures Stepped(target, outcome)
      ensures old(store.writesLeft).None? ==> store.writesLeft.None?
      ensures IsSettingsStep(target) && !outcome.SettingsMissing? ==> old(store.settings).Some?
    {
      if target == 4 || 8 <= target <= 12 {
        outcome := EndpointsStep(target);
      } else if target == 14 {
        outcome := ControlsStep();
      } else {
        outcome := SettingsStep(target);
      }
    }

    // What a run of steps up to version `target` leaves behind.
    ghost predicate Reached(origin: Database, target: int, outcome: Outcome)
      reads store, store.endpoints, store.groups, store.controls
    {
      match outcome
      case Completed =>
        store.View() == DbAt(origin, currentDBVersion, target) && target <= End(origin, currentDBVersion)
      case WriteFailed =>
        store.writesLeft == Some(0) && Interrupted(origin, store.View(), currentDBVersion)
      case SettingsMissing =>
        && End(origin, currentDBVersion) < target
        && store.View() == DbAt(origin, currentDBVersion, End(origin, currentDBVersion))
    }

    // Every step between the version the migrator was made for and the current one, in order;
    // the new version is stored last.
    method Migrate() returns (outcome: Outcome)
      requires KeyedDb(store.View())
      requires 2 <= currentDBVersion
      modifies store, store.endpoints, store.groups, store.controls
      ensures outcome.Completed? ==>
                && End(old(store.View()), currentDBVersion) == DB_VERSION
                && store.View() == DbAt(old(store.View()), currentDBVersion, DB_VERSION).(version := DB_VERSION)
                && DatabaseMigrated(old(store.View()), store.View(), currentDBVersion) && store.version == 14
      ensures !outcome.Completed? ==> Reached(old(store.View()), DB_VERSION, outcome)
      ensures old(store.writesLeft).None? ==> !outcome.WriteFailed?
    {
      ghost var origin := store.View();
      outcome := MigrateToVersion8(origin);
      if !outcome.Completed? { return; }
      outcome := MigrateToVersion14(origin);
      if !outcome.Completed? { return; }
      var ok := store.StoreDBVersion(DB_VERSION);
      if !ok {
        UntouchedIsInStep(origin, store.View(), currentDBVersion);
        return WriteFailed;
      }
      StepsMigrate(origin, currentDBVersion);
    }

    // The first half of the sequence, and the second.
    method MigrateToVersion8(ghost origin: Database) returns (outcome: Outcome)
      requires KeyedDb(origin) && store.View() == origin
      requires 2 <= currentDBVersion
      modifies store, store.endpoints, store.groups, store.controls
      ensures Reached(origin, 8, outcome)
      ensures old(store.writesLeft).None? ==> store.writesLeft.None?
    {
      outcome := Advance(3, origin);
      if !outcome.Completed? { return; }
      outcome := Advance(4, origin);
      if !outcome.Completed? { return; }
      outcome := Advance(5, origin);
      if !outcome.Completed? { return; }
      outcome := Advance(6, origin);
      if !outcome.Completed? { return; }
      outcome := Advance(7, origin);
      if !outcome.Completed? { return; }
      outcome := Advance(8, origin);
    }

    method MigrateToVersion14(ghost origin: Database) returns (outcome: Outcome)
      requires KeyedDb(origin) && Reached(origin, 8, Completed)
      modifies store, store.endpoints, store.groups, store.controls
      ensures Reached(origin, 14, outcome)
      ensures old(store.writesLeft).None? ==> store.writesLeft.None?
    {
      outcome := Advance(9, origin);
      if !outcome.Completed? { return; }
      outcome := Advance(10, origin);
      if !outcome.Completed? { return; }
      outcome := Advance(11, origin);
      if !outcome.Completed? { return; }
      outcome := Advance(12, origin);
      if !outcome.Completed? { return; }
      outcome := Advance(13, origin);
      if !outcome.Completed? { return; }
      outcome := Advance(14, origin);
    }
  }

  // MigrateData of api/bolt/datastore.go, called on every start of the server: each run may be
  // cut short by a write that fails, and the next one starts from the stored version. However
  // often that happens, once a run completes the database is what one uninterrupted run from
  // the first version would have made of it.
  method MigrateOverRestarts(store: Store, budgets: seq<Option<nat>>) returns (done: bool)
    requires KeyedDb(store.View())
    requires 2 <= store.version < DB_VERSION
    modifies store, store.endpoints, store.groups, store.controls
    ensures done ==>
              && store.View() == DbAt(old(store.View()), old(store.version), DB_VERSION).(version := DB_VERSION)
              && DatabaseMigrated(old(store.View()), store.View(), old(store.version)) && store.version == 14
    ensures End(old(store.View()), old(store.version)) == DB_VERSION ==>
              (exists i :: 0 <= i < |budgets| && budgets[i].None?) ==> done
    ensures !done ==>
              && store.version == old(store.version)
              && DbAt(store.View(), store.version, DB_VERSION) ==
                 DbAt(old(store.View()), old(store.version), DB_VERSION)
  {
    ghost var origin := store.View();
    var from := store.version;
    done := false;
    for i := 0 to |budgets|
      invariant done ==> store.View() == DbAt(origin, from, DB_VERSION).(version := DB_VERSION)
      invariant !done ==> store.version == from && KeyedDb(store.View())
      invariant !done ==> End(store.View(), from) == End(origin, from)
      invariant !done && End(origin, from) == DB_VERSION ==> forall j :: 0 <= j < i ==> budgets[j].Some?
      invariant !done ==> DbAt(store.View(), from, DB_VERSION) == DbAt(origin, from, DB_VERSION)
    {
      store.writesLeft := budgets[i];
      if store.version < DB_VERSION {
        ghost var before := store.View();
        var migrator := new Migrator(store, store.version);
        var outcome := migrator.Migrate();
        if outcome.Completed? {
          StepsCompose(origin, from, DB_VERSION);
          done := true;
        } else {
          IncompleteRun(before, store.View(), from, outcome);
        }
      }
    }
    StepsMigrate(origin, from);
  }

  // A run that did not complete left a database from which the next run ends at the same state.
  lemma IncompleteRun(before: Database, now: Database, from: int, outcome: Outcome)
    requires KeyedDb(before)
    requires (outcome.WriteFailed? && Interrupted(before, now, from)) ||
             (outcome.SettingsMissing? && End(before, from) < DB_VERSION &&
              now == DbAt(before, from, End(before, from)))
    ensures KeyedDb(now) && now.version == before.version
    ensures now.settings.Some? == before.settings.Some?
    ensures DbAt(now, from, DB_VERSION) == DbAt(before, from, DB_VERSION)
  {
    if outcome.SettingsMissing? {
      CompleteIsInStep(before, from, End(before, from));
      assert InterruptedAt(before, now, from, End(before, from));
    }
    RestartReachesSameState(before, now, from, DB_VERSION);
  }

  lemma CompleteIsInStep(before: Database, from: int, k: int)
    ensures InStep(DbAt(before, from, k - 1), DbAt(before, from, k), DbAt(before, from, k))
  {
  }

  lemma UntouchedIsInStep(origin: Database, now: Database, from: int)
    requires now == DbAt(origin, from, DB_VERSION) && End(origin, from) == DB_VERSION
    ensures Interrupted(origin, now, from)
  {
    CompleteIsInStep(origin, from, DB_VERSION);
    assert InterruptedAt(origin, now, from, DB_VERSION);
  }

  // What one step, complete or not, may leave of the database.
  lemma PartialStep(target: int, before: Database, now: Database, complete: bool)
    requires now.version == before.version
    requires Rewritten(before.endpoints, now.endpoints, EndpointStepTo(target), complete)
    requires Rewritten(before.groups, now.groups, GroupStepTo(target), complete)
    requires now.settings == OptionStep(target, before.settings) || (!complete && now.settings == before.settings)
    requires forall k :: k in now.controls ==> k in before.controls && now.controls[k] == before.controls[k]
    requires forall k :: k in before.controls && ControlKept(target, before.controls[k]) ==> k in now.controls
    requires complete ==> forall k :: k in now.controls ==> ControlKept(target, now.controls[k])
    ensures InStep(before, DbStep(target, before), now)
    ensures complete ==> now == DbStep(target, before)
  {
    var after := DbStep(target, before);
    forall k | k in before.endpoints
      ensures now.endpoints[k] == after.endpoints[k] || (!complete && now.endpoints[k] == before.endpoints[k])
    {
      assert after.endpoints[k] == EndpointStep(target, before.endpoints[k]);
    }
    forall k | k in before.groups
      ensures now.groups[k] == after.groups[k] || (!complete && now.groups[k] == before.groups[k])
    {
      assert after.groups[k] == GroupStep(target, before.groups[k]);
    }
    if complete {
      assert now.endpoints == after.endpoints && now.groups == after.groups;
      SameControls(now.controls, before.controls, after.controls, target);
    }
  }

  lemma SameControls(
    now: map<int, ResourceControl>, before: map<int, ResourceControl>, after: map<int, ResourceControl>, target: int)
    requires forall k :: k in now ==> k in before && now[k] == before[k] && ControlKept(target, now[k])
    requires forall k :: k in before && ControlKept(target, before[k]) ==> k in now
    requires after == map k | k in before && ControlKept(target, before[k]) :: before[k]
    ensures now == after
  {
    forall k
      ensures (k in now <==> k in after) && (k in now ==> now[k] == after[k])
    {
    }
  }

  // A walk that has rewritten the first n keys has rewritten every key or left it alone.
  lemma EachIsAt<V>(before: map<int, V>, now: map<int, V>, n: nat, step: V -> V)
    requires WalkedTo(now, before, AllStepped(before, step), n)
    ensures Rewritten(before, now, step, n == |Ordered(before.Keys)|)
    ensures Rewritten(before, now, step, false)
  {
    forall k | k in before
      ensures now[k] == step(before[k]) || (n < |Ordered(before.Keys)| && now[k] == before[k])
    {
      var j := Position(before.Keys, k);
    }
  }
}
