// The resource control bucket (api/bolt/resourcecontrol/resourcecontrol.go) and its handlers
// (api/http/handler/resourcecontrols).
module ResourceControlApi {
  import opened Collections
  import opened Bucket
  import opened Portainer
  import opened ResourceControls

  // What every history of the handlers keeps: records under their own identifiers, and no
  // record naming a resource that an older record claims.
  ghost predicate ValidIndex(data: map<int, ResourceControl>, sequence: nat) {
    && (forall k :: k in data ==> data[k].id == k && 0 < k <= sequence)
    && (forall j, k :: j in data && k in data && j < k ==> !Claims(data[j], data[k].resourceId))
  }

  lemma ScanIsExclusive(data: map<int, ResourceControl>, sequence: nat)
    requires ValidIndex(data, sequence)
    ensures Exclusive(Scan(data))
    ensures forall i, j :: 0 <= i < j < |Scan(data)| ==> Scan(data)[i] != Scan(data)[j]
  {
  }

  // In a valid index every control is what both scans find under its own identifier.
  lemma EveryControlResolves(data: map<int, ResourceControl>, sequence: nat, k: int)
    requires ValidIndex(data, sequence) && k in data
    ensures DatabaseScan(data[k].resourceId, Scan(data)).found == Some(data[k])
    ensures GetResourceControlByResourceID(data[k].resourceId, Scan(data)) == Some(data[k])
  {
    ScanIsExclusive(data, sequence);
    var i := Position(data.Keys, k);
    OwnIdentifierResolves(Scan(data), i);
  }

  class ResourceControlService {
    const db: Bucket<ResourceControl>

    constructor ()
      ensures fresh(db) && db.data == map[] && db.sequence == 0
    {
      db := new Bucket<ResourceControl>();
    }

    method ResourceControl(id: int) returns (rc: Option<ResourceControl>)
      ensures rc == if id in db.data then Some(db.data[id]) else None
    {
      rc := db.Get(id);
    }

    // The inner break leaves the loop over sub-resources only: the walk goes on.
    method ResourceControlByResourceID(resourceId: string) returns (resourceControl: Option<ResourceControl>)
      ensures resourceControl == DatabaseScan(resourceId, Scan(db.data)).found
    {
      resourceControl := None;
      var records := db.Records();
      for c := 0 to |records|
        invariant !DatabaseScan(resourceId, records[..c]).stopped
        invariant resourceControl == DatabaseScan(resourceId, records[..c]).found
      {
        var rc := records[c];
        assert records[..c + 1][..c] == records[..c];
        if rc.resourceId == resourceId {
          resourceControl := Some(rc);
          ScanStops(resourceId, records, c + 1);
          break;
        }
        var s := 0;
        while s < |rc.subResourceIds|
          invariant 0 <= s <= |rc.subResourceIds|
          invariant forall t :: 0 <= t < s ==> rc.subResourceIds[t] != resourceId
        {
          if rc.subResourceIds[s] == resourceId {
            resourceControl := Some(rc);
            break;
          }
          s := s + 1;
        }
      }
      assert !DatabaseScan(resourceId, records).stopped ==> records[..|records|] == records;
    }

    method ResourceControls() returns (rcs: seq<ResourceControl>)
      ensures rcs == Scan(db.data)
    {
      rcs := db.Records();
    }

    method CreateResourceControl(rc: ResourceControl) returns (created: ResourceControl)
      modifies db
      ensures db.sequence == old(db.sequence) + 1
      ensures created == rc.(id := db.sequence)
      ensures db.data == old(db.data)[db.sequence := created]
    {
      var id := db.NextSequence();
      created := rc.(id := id);
      db.Put(id, created);
    }

    method UpdateResourceControl(id: int, rc: ResourceControl)
      modifies db`data
      ensures db.data == old(db.data)[id := rc]
    {
      db.Put(id, rc);
    }

    method DeleteResourceControl(id: int)
      modifies db`data
      ensures db.data == old(db.data) - {id}
    {
      db.Delete(id);
    }
  }

  // Records after the one that stopped the scan do not matter.
  lemma {:induction false} ScanStops(resourceId: string, rcs: seq<ResourceControl>, n: nat)
    requires n <= |rcs| && DatabaseScan(resourceId, rcs[..n]).stopped
    ensures DatabaseScan(resourceId, rcs) == DatabaseScan(resourceId, rcs[..n])
  {
    if n < |rcs| {
      assert rcs[..|rcs| - 1][..n] == rcs[..n];
      ScanStops(resourceId, rcs[..|rcs| - 1], n);
    } else {
      assert rcs[..n] == rcs;
    }
  }

  datatype CreatePayload = CreatePayload(
    resourceId: string, kind: string, isPublic: bool, users: seq<int>, teams: seq<int>, subResourceIds: seq<string>)

  datatype UpdatePayload = UpdatePayload(isPublic: bool, users: seq<int>, teams: seq<int>)

  datatype Response = BadRequest | Forbidden | NotFound | Conflict | NoContent | Updated(control: ResourceControl)

  function KindOf(kind: string): int {
    if kind == "container" then 1
    else if kind == "service" then 2
    else if kind == "volume" then 3
    else if kind == "network" then 4
    else if kind == "secret" then 5
    else if kind == "stack" then 6
    else if kind == "config" then 7
    else 0
  }

  predicate ValidCreate(p: CreatePayload) {
    && p.resourceId != ""
    && !(|p.users| == 0 && |p.teams| == 0 && !p.isPublic)
    && KindOf(p.kind) != 0
  }

  function UserAccesses(users: seq<int>): (accesses: seq<UserAccess>)
    ensures |accesses| == |users|
    ensures forall i :: 0 <= i < |users| ==> accesses[i] == UserAccess(users[i], 1)
  {
    seq(|users|, i requires 0 <= i < |users| => UserAccess(users[i], READ_WRITE))
  }

  function TeamAccesses(teams: seq<int>): (accesses: seq<TeamAccess>)
    ensures |accesses| == |teams|
    ensures forall i :: 0 <= i < |teams| ==> accesses[i] == TeamAccess(teams[i], 1)
  {
    seq(|teams|, i requires 0 <= i < |teams| => TeamAccess(teams[i], READ_WRITE))
  }

  // The control a creation asks for.
  function Requested(p: CreatePayload): ResourceControl {
    ResourceControl(
      0, p.resourceId, p.subResourceIds, KindOf(p.kind),
      UserAccesses(p.users), TeamAccesses(p.teams), p.isPublic, false)
  }

  // The control an update asks for: new accesses under the old identifiers.
  function Retargeted(rc: ResourceControl, p: UpdatePayload): ResourceControl {
    rc.(isPublic := p.isPublic, userAccesses := UserAccesses(p.users), teamAccesses := TeamAccesses(p.teams))
  }

  datatype Request =
    | Create(create: CreatePayload)
    | Update(id: int, update: UpdatePayload)
    | Delete(id: int)

  // The number of a kind of resource.
  predicate Numbered(kind: string, number: int) {
    || (kind == "container" && number == 1)
    || (kind == "service" && number == 2)
    || (kind == "volume" && number == 3)
    || (kind == "network" && number == 4)
    || (kind == "secret" && number == 5)
    || (kind == "stack" && number == 6)
    || (kind == "config" && number == 7)
  }

  lemma KindsMean(kind: string)
    ensures KindOf(kind) != 0 <==> kind in {"container", "service", "volume", "network", "secret", "stack", "config"}
    ensures KindOf(kind) != 0 ==> Numbered(kind, KindOf(kind))
  {
  }

  // The payload names a resource of a known kind and gives it to someone.
  predicate Complete(p: CreatePayload) {
    && p.resourceId != ""
    && p.kind in {"container", "service", "volume", "network", "secret", "stack", "config"}
    && (p.users != [] || p.teams != [] || p.isPublic)
  }

  // No control is about the resource.
  predicate Free(data: map<int, ResourceControl>, resourceId: string) {
    forall k :: k in data ==> resourceId != data[k].resourceId && resourceId !in data[k].subResourceIds
  }

  lemma FreeMeans(data: map<int, ResourceControl>, resourceId: string)
    ensures Free(data, resourceId) <==> !exists k :: k in data && Claims(data[k], resourceId)
  {
    forall k | k in data
      ensures Claims(data[k], resourceId) <==> resourceId == data[k].resourceId || resourceId in data[k].subResourceIds
    {
      ClaimsMean(data[k], resourceId);
    }
  }

  // The control is exactly what the payload says, and gives access to exactly whom it lists.
  ghost predicate MadeOf(rc: ResourceControl, id: int, p: CreatePayload) {
    && rc.id == id && rc.resourceId == p.resourceId && rc.subResourceIds == p.subResourceIds
    && Numbered(p.kind, rc.kind) && rc.isPublic == p.isPublic && !rc.administratorsOnly
    && Users(rc) == p.users && Teams(rc) == p.teams
  }

  class Handler {
    const service: ResourceControlService

    constructor ()
      ensures fresh(service) && fresh(service.db)
      ensures service.db.data == map[] && service.db.sequence == 0
    {
      service := new ResourceControlService();
    }

    ghost predicate Valid()
      reads service.db
    {
      ValidIndex(service.db.data, service.db.sequence)
    }

    method BuildAccesses(users: seq<int>, teams: seq<int>) returns (ua: seq<UserAccess>, ta: seq<TeamAccess>)
      ensures ua == UserAccesses(users) && ta == TeamAccesses(teams)
    {
      ua := [];
      for i := 0 to |users|
        invariant ua == UserAccesses(users)[..i]
      {
        ua := ua + [UserAccess(users[i], READ_WRITE)];
      }
      ta := [];
      for i := 0 to |teams|
        invariant ta == TeamAccesses(teams)[..i]
      {
        ta := ta + [TeamAccess(teams[i], READ_WRITE)];
      }
    }

    // POST /resource_controls: refused as a conflict exactly when some control, by either kind
    // of claim, already covers the resource.
    method ResourceControlCreate(payload: CreatePayload, context: SecurityContext) returns (response: Response)
      requires Valid()
      modifies service.db
      ensures Valid()
      ensures response.BadRequest? <==> !ValidCreate(payload)
      ensures response.Conflict? <==>
                && ValidCreate(payload)
                && exists k :: k in old(service.db.data) && Claims(old(service.db.data)[k], payload.resourceId)
      ensures response.Forbidden? ==> !AuthorizedResourceControlCreation(Requested(payload), context)
      ensures response.Updated? ==> AuthorizedResourceControlCreation(Requested(payload), context)
      ensures response.BadRequest? || response.Conflict? || response.Forbidden? || response.Updated?
      ensures !response.Updated? ==>
                service.db.data == old(service.db.data) && service.db.sequence == old(service.db.sequence)
      ensures response.Updated? ==>
                && service.db.sequence == old(service.db.sequence) + 1
                && response.control == Requested(payload).(id := service.db.sequence)
                && service.db.data == old(service.db.data)[service.db.sequence := response.control]
                && AuthorizedResourceControlAccess(response.control, context)
                && AuthorizedResourceControlDeletion(response.control, context)
      ensures response.Updated? <==>
                && Complete(payload)
                && Free(old(service.db.data), payload.resourceId)
                && MayCreate(payload.users, payload.teams, payload.isPublic, context)
      ensures response.Updated? ==>
                && MadeOf(response.control, service.db.sequence, payload)
                && forall other :: AuthorizedResourceControlAccess(response.control, other) <==>
                                   MayAccess(payload.users, payload.teams, payload.isPublic, other)
    {
      CreateMeans(payload, service.db.data, context);
      if payload.resourceId == "" || payload.kind == "" {
        return BadRequest;
      }
      if |payload.users| == 0 && |payload.teams| == 0 && !payload.isPublic {
        return BadRequest;
      }
      var resourceControlType := KindOf(payload.kind);
      if resourceControlType == 0 {
        return BadRequest;
      }
      var rc := service.ResourceControlByResourceID(payload.resourceId);
      FoundMeansClaimed(service.db.data, payload.resourceId);
      if rc.Some? {
        return Conflict;
      }
      var userAccesses, teamAccesses := BuildAccesses(payload.users, payload.teams);
      var resourceControl := ResourceControl(
        0, payload.resourceId, payload.subResourceIds, resourceControlType,
        userAccesses, teamAccesses, payload.isPublic, false);
      if !AuthorizedResourceControlCreation(resourceControl, context) {
        return Forbidden;
      }
      var created := service.CreateResourceControl(resourceControl);
      AuthorizedCreationKeepsAccess(created, context);
      AccessOf(created, payload.users, payload.teams);
      response := Updated(created);
    }

    // PUT /resource_controls/{id}: identifiers stay, accesses are replaced.
    method ResourceControlUpdate(id: int, payload: UpdatePayload, context: SecurityContext) returns (response: Response)
      requires Valid()
      modifies service.db
      ensures Valid()
      ensures service.db.sequence == old(service.db.sequence)
      ensures response.BadRequest? <==> |payload.users| == 0 && |payload.teams| == 0 && !payload.isPublic
      ensures response.NotFound? <==> !response.BadRequest? && id !in old(service.db.data)
      ensures response.Updated? <==>
                && !response.BadRequest?
                && id in old(service.db.data)
                && AuthorizedResourceControlAccess(old(service.db.data)[id], context)
                && AuthorizedResourceControlUpdate(Retargeted(old(service.db.data)[id], payload), context)
      ensures response.BadRequest? || response.NotFound? || response.Forbidden? || response.Updated?
      ensures !response.Updated? ==> service.db.data == old(service.db.data)
      ensures response.Updated? ==>
                && response.control == Retargeted(old(service.db.data)[id], payload)
                && service.db.data == old(service.db.data)[id := response.control]
                && AuthorizedResourceControlAccess(response.control, context)
                && AuthorizedResourceControlDeletion(response.control, context)
      ensures response.Updated? <==>
                && (payload.users != [] || payload.teams != [] || payload.isPublic)
                && id in old(service.db.data)
                && var rc := old(service.db.data)[id];
                   && MayAccess(Users(rc), Teams(rc), rc.isPublic, context)
                   && MayChange(payload.users, payload.teams, payload.isPublic, context)
      ensures response.Updated? ==>
                var rc := old(service.db.data)[id];
                && Users(response.control) == payload.users && Teams(response.control) == payload.teams
                && response.control == rc.(isPublic := payload.isPublic,
                userAccesses := response.control.userAccesses, teamAccesses := response.control.teamAccesses)
                && forall other :: AuthorizedResourceControlAccess(response.control, other) <==>
                                   MayAccess(payload.users, payload.teams, payload.isPublic, other)
    {
      if id in service.db.data {
        UpdateMeans(service.db.data[id], payload, context);
      }
      if |payload.users| == 0 && |payload.teams| == 0 && !payload.isPublic {
        return BadRequest;
      }
      var found := service.ResourceControl(id);
      if found.None? {
        return NotFound;
      }
      var resourceControl := found.value;
      if !AuthorizedResourceControlAccess(resourceControl, context) {
        return Forbidden;
      }
      resourceControl := resourceControl.(isPublic := payload.isPublic);
      var userAccesses, teamAccesses := BuildAccesses(payload.users, payload.teams);
      resourceControl := resourceControl.(userAccesses := userAccesses);
      resourceControl := resourceControl.(teamAccesses := teamAccesses);
      if !AuthorizedResourceControlUpdate(resourceControl, context) {
        return Forbidden;
      }
      service.UpdateResourceControl(resourceControl.id, resourceControl);
      AuthorizedCreationKeepsAccess(resourceControl, context);
      AccessOf(resourceControl, payload.users, payload.teams);
      response := Updated(resourceControl);
    }

    // DELETE /resource_controls/{id}
    method ResourceControlDelete(id: int, context: SecurityContext) returns (response: Response)
      requires Valid()
      modifies service.db
      ensures Valid()
      ensures service.db.sequence == old(service.db.sequence)
      ensures response.NotFound? <==> id !in old(service.db.data)
      ensures response.NoContent? <==>
                id in old(service.db.data) && AuthorizedResourceControlDeletion(old(service.db.data)[id], context)
      ensures response.NoContent? <==>
                && id in old(service.db.data)
                && var rc := old(service.db.data)[id];
                   MayAccess(Users(rc), Teams(rc), rc.isPublic, context)
      ensures response.NotFound? || response.Forbidden? || response.NoContent?
      ensures service.db.data == if response.NoContent? then old(service.db.data) - {id} else old(service.db.data)
    {
      var found := service.ResourceControl(id);
      if found.None? {
        return NotFound;
      }
      AccessMeans(found.value, context);
      if !AuthorizedResourceControlDeletion(found.value, context) {
        return Forbidden;
      }
      service.DeleteResourceControl(id);
      response := NoContent;
    }

    // Any history of requests, from any callers.
    method Serve(requests: seq<(Request, SecurityContext)>)
      requires Valid()
      modifies service.db
      ensures Valid()
      ensures forall k :: k in service.db.data ==>
                var rc := service.db.data[k];
                && DatabaseScan(rc.resourceId, Scan(service.db.data)).found == Some(rc)
                && GetResourceControlByResourceID(rc.resourceId, Scan(service.db.data)) == Some(rc)
    {
      for i := 0 to |requests|
        invariant Valid()
      {
        match requests[i].0 {
          case Create(payload) =>
            var _ := ResourceControlCreate(payload, requests[i].1);
          case Update(id, payload) =>
            var _ := ResourceControlUpdate(id, payload, requests[i].1);
          case Delete(id) =>
            var _ := ResourceControlDelete(id, requests[i].1);
        }
      }
      forall k | k in service.db.data
        ensures var rc := service.db.data[k];
                && DatabaseScan(rc.resourceId, Scan(service.db.data)).found == Some(rc)
                && GetResourceControlByResourceID(rc.resourceId, Scan(service.db.data)) == Some(rc)
      {
        EveryControlResolves(service.db.data, service.db.sequence, k);
      }
    }
  }

  lemma CreateMeans(p: CreatePayload, data: map<int, ResourceControl>, context: SecurityContext)
    ensures ValidCreate(p) <==> Complete(p)
    ensures AuthorizedResourceControlCreation(Requested(p), context) <==>
            MayCreate(p.users, p.teams, p.isPublic, context)
    ensures Free(data, p.resourceId) <==> !exists k :: k in data && Claims(data[k], p.resourceId)
    ensures ValidCreate(p) ==> forall id :: MadeOf(Requested(p).(id := id), id, p)
  {
    KindsMean(p.kind);
    FreeMeans(data, p.resourceId);
    ListedAre(Requested(p), p.users, p.teams);
    CreationMeans(Requested(p), context);
    forall id
      ensures Users(Requested(p).(id := id)) == p.users && Teams(Requested(p).(id := id)) == p.teams
    {
      ListedAre(Requested(p).(id := id), p.users, p.teams);
    }
  }

  lemma UpdateMeans(rc: ResourceControl, p: UpdatePayload, context: SecurityContext)
    ensures AuthorizedResourceControlAccess(rc, context) <==> MayAccess(Users(rc), Teams(rc), rc.isPublic, context)
    ensures AuthorizedResourceControlUpdate(Retargeted(rc, p), context) <==>
            MayChange(p.users, p.teams, p.isPublic, context)
    ensures Users(Retargeted(rc, p)) == p.users && Teams(Retargeted(rc, p)) == p.teams
  {
    AccessMeans(rc, context);
    ListedAre(Retargeted(rc, p), p.users, p.teams);
    CreationMeans(Retargeted(rc, p), context);
  }

  lemma ListedAre(rc: ResourceControl, users: seq<int>, teams: seq<int>)
    requires rc.userAccesses == UserAccesses(users) && rc.teamAccesses == TeamAccesses(teams)
    ensures Users(rc) == users && Teams(rc) == teams
  {
  }

  lemma AccessOf(rc: ResourceControl, users: seq<int>, teams: seq<int>)
    requires rc.userAccesses == UserAccesses(users) && rc.teamAccesses == TeamAccesses(teams)
    ensures forall other :: AuthorizedResourceControlAccess(rc, other) <==> MayAccess(users, teams, rc.isPublic, other)
  {
    ListedAre(rc, users, teams);
    forall other
      ensures AuthorizedResourceControlAccess(rc, other) <==> MayAccess(users, teams, rc.isPublic, other)
    {
      AccessMeans(rc, other);
    }
  }

  lemma FoundMeansClaimed(data: map<int, ResourceControl>, resourceId: string)
    ensures DatabaseScan(resourceId, Scan(data)).found.Some? <==> exists k :: k in data && Claims(data[k], resourceId)
  {
    var rcs := Scan(data);
    DatabaseScanResult(resourceId, rcs, 0);
    if k :| k in data && Claims(data[k], resourceId) {
      var i := Position(data.Keys, k);
      assert Claims(rcs[i], resourceId);
    }
    if i :| 0 <= i < |rcs| && Claims(rcs[i], resourceId) {
      assert Ordered(data.Keys)[i] in data && Claims(data[Ordered(data.Keys)[i]], resourceId);
    }
  }

  lemma ScanOfTwo(data: map<int, ResourceControl>)
    requires data.Keys == {1, 2}
    ensures Scan(data) == [data[1], data[2]]
  {
  }

  lemma SharedSubDisagrees(first: ResourceControl, second: ResourceControl)
    requires first.resourceId == "a" && second.resourceId == "b"
    requires first.subResourceIds == ["s"] && second.subResourceIds == ["s"]
    ensures DatabaseScan("s", [first, second]).found == Some(second)
    ensures GetResourceControlByResourceID("s", [first, second]) == Some(first)
  {
    var rcs := [first, second];
    assert first.subResourceIds[0] == "s" && second.subResourceIds[0] == "s";
    assert IsSub(first, "s") && IsSub(second, "s");
    assert "a"[0] == 'a' && "b"[0] == 'b' && "s"[0] == 's';
    assert LastClaim(rcs, "s", 1) && FirstClaim(rcs, "s", 0) && NoMain(rcs, "s");
    DatabaseScanResult("s", rcs, 1);
    ProxyScanResult("s", rcs, 0);
  }

  // A reachable store in which the scans disagree: two controls share a sub-resource.
  method SharedSubResource() returns (fromDatabase: Option<ResourceControl>, fromProxy: Option<ResourceControl>)
    ensures fromDatabase.Some? && fromProxy.Some?
    ensures fromDatabase.value.resourceId == "b" && fromProxy.value.resourceId == "a"
  {
    var handler := new Handler();
    var admin := SecurityContext(true, 1, []);
    var a := CreatePayload("a", "service", true, [], [], ["s"]);
    var b := CreatePayload("b", "service", true, [], [], ["s"]);
    var first := handler.ResourceControlCreate(a, admin);
    assert ValidCreate(a) && ValidCreate(b);
    assert handler.service.db.data == map[1 := first.control];
    assert "a"[0] == 'a' && "b"[0] == 'b' && "s"[0] == 's';
    assert !Claims(first.control, "b");
    var second := handler.ResourceControlCreate(b, admin);
    assert handler.service.db.data == map[1 := first.control, 2 := second.control];
    var rcs := handler.service.ResourceControls();
    fromDatabase := handler.service.ResourceControlByResourceID("s");
    fromProxy := GetResourceControlByResourceID("s", rcs);
    ScanOfTwo(handler.service.db.data);
    SharedSubDisagrees(first.control, second.control);
  }
}
