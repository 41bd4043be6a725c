// Resource controls: the index from resource identifiers to controls, who may use them, and
// the handlers that create, update and delete them.
module ResourceControls {
  import opened Collections
  import opened Portainer

  const READ_WRITE := 1

  datatype UserAccess = UserAccess(userId: int, accessLevel: int)

  datatype TeamAccess = TeamAccess(teamId: int, accessLevel: int)

  datatype ResourceControl = ResourceControl(
    id: int,
    resourceId: string,
    subResourceIds: seq<string>,
    kind: int,
    userAccesses: seq<UserAccess>,
    teamAccesses: seq<TeamAccess>,
    isPublic: bool,
    // Deprecated in database version 14.
    administratorsOnly: bool)

  // ----- Access predicates (api/http/security/authorization.go, api/http/proxy/access_control.go) -----

  predicate UserListed(rc: ResourceControl, userId: int) {
    exists i :: 0 <= i < |rc.userAccesses| && rc.userAccesses[i].userId == userId
  }

  predicate TeamListed(rc: ResourceControl, memberships: seq<Membership>) {
    exists i, j ::
      0 <= i < |rc.teamAccesses| && 0 <= j < |memberships| && memberships[j].teamId == rc.teamAccesses[i].teamId
  }

  predicate AuthorizedResourceControlDeletion(rc: ResourceControl, context: SecurityContext) {
    if context.isAdmin || rc.isPublic then true
    else if |rc.teamAccesses| > 0 && TeamListed(rc, context.memberships) then true
    else |rc.userAccesses| > 0 && UserListed(rc, context.userId)
  }

  predicate AuthorizedResourceControlAccess(rc: ResourceControl, context: SecurityContext) {
    context.isAdmin || rc.isPublic || TeamListed(rc, context.memberships) || UserListed(rc, context.userId)
  }

  predicate AuthorizedResourceControlUpdate(rc: ResourceControl, context: SecurityContext) {
    if !context.isAdmin && |rc.userAccesses| > 0 then false
    else AuthorizedResourceControlCreation(rc, context)
  }

  predicate AuthorizedResourceControlCreation(rc: ResourceControl, context: SecurityContext) {
    var users, teams := |rc.userAccesses|, |rc.teamAccesses|;
    if context.isAdmin || rc.isPublic then true
    else if users == 0 && teams == 0 then false
    else if users > 1 || (users == 1 && teams == 1) then false
    else if users == 1 && rc.userAccesses[0].userId == context.userId then true
    else teams > 0 && TeamListed(rc, context.memberships)
  }

  // The team identifiers of a user, as the proxy collects them.
  function TeamIds(memberships: seq<Membership>): (ids: seq<int>)
    ensures |ids| == |memberships|
    ensures forall i :: 0 <= i < |ids| ==> ids[i] == memberships[i].teamId
  {
    seq(|memberships|, i requires 0 <= i < |memberships| => memberships[i].teamId)
  }

  predicate CanUserAccessResource(userId: int, teamIds: seq<int>, rc: ResourceControl) {
    if UserListed(rc, userId) then true
    else if exists i, j ::
              0 <= i < |rc.teamAccesses| && 0 <= j < |teamIds| && teamIds[j] == rc.teamAccesses[i].teamId then true
    else rc.isPublic
  }

  // For anyone but administrators the four ways of asking give one answer, for any control.
  lemma AccessPredicatesCoincide(rc: ResourceControl, context: SecurityContext)
    requires !context.isAdmin
    ensures AuthorizedResourceControlAccess(rc, context) <==> AuthorizedResourceControlDeletion(rc, context)
    ensures AuthorizedResourceControlAccess(rc, context) <==>
              CanUserAccessResource(context.userId, TeamIds(context.memberships), rc)
  {
  }

  // Nobody can create or re-target a control that shuts them out of it.
  lemma AuthorizedCreationKeepsAccess(rc: ResourceControl, context: SecurityContext)
    requires AuthorizedResourceControlCreation(rc, context) || AuthorizedResourceControlUpdate(rc, context)
    ensures AuthorizedResourceControlAccess(rc, context) && AuthorizedResourceControlDeletion(rc, context)
  {
  }

  // ----- Who that is, in terms of identifiers -----

  ghost predicate BelongsToOneOf(memberships: seq<Membership>, teams: seq<int>) {
    exists m :: m in memberships && m.teamId in teams
  }

  // The users and teams of a control.
  function Users(rc: ResourceControl): (users: seq<int>)
    ensures |users| == |rc.userAccesses|
    ensures forall i :: 0 <= i < |users| ==> users[i] == rc.userAccesses[i].userId
  {
    seq(|rc.userAccesses|, i requires 0 <= i < |rc.userAccesses| => rc.userAccesses[i].userId)
  }

  function Teams(rc: ResourceControl): (teams: seq<int>)
    ensures |teams| == |rc.teamAccesses|
    ensures forall i :: 0 <= i < |teams| ==> teams[i] == rc.teamAccesses[i].teamId
  {
    seq(|rc.teamAccesses|, i requires 0 <= i < |rc.teamAccesses| => rc.teamAccesses[i].teamId)
  }

  // Administrators, everyone if the control is public, its users and the members of its teams.
  ghost predicate MayAccess(users: seq<int>, teams: seq<int>, isPublic: bool, context: SecurityContext) {
    context.isAdmin || isPublic || context.userId in users || BelongsToOneOf(context.memberships, teams)
  }

  // Whoever is not an administrator may make a control public, or keep it to themselves, or give
  // it to teams of which one is theirs; never to another user alone, and not to one user and one
  // team together.
  ghost predicate MayCreate(users: seq<int>, teams: seq<int>, isPublic: bool, context: SecurityContext) {
    || context.isAdmin
    || isPublic
    || (&& |users| <= 1
        && !(|users| == 1 && |teams| == 1)
        && (users == [context.userId] || BelongsToOneOf(context.memberships, teams)))
  }

  // A change by such a caller may list no users at all.
  ghost predicate MayChange(users: seq<int>, teams: seq<int>, isPublic: bool, context: SecurityContext) {
    context.isAdmin || (users == [] && (isPublic || BelongsToOneOf(context.memberships, teams)))
  }

  lemma TeamsMean(rc: ResourceControl, memberships: seq<Membership>)
    ensures TeamListed(rc, memberships) <==> BelongsToOneOf(memberships, Teams(rc))
  {
    if i, j :| 0 <= i < |rc.teamAccesses| && 0 <= j < |memberships| &&
               memberships[j].teamId == rc.teamAccesses[i].teamId {
      assert Teams(rc)[i] == memberships[j].teamId;
      assert memberships[j] in memberships && memberships[j].teamId in Teams(rc);
    }
    if m :| m in memberships && m.teamId in Teams(rc) {
      var j :| 0 <= j < |memberships| && memberships[j] == m;
      var i :| 0 <= i < |Teams(rc)| && Teams(rc)[i] == m.teamId;
      assert memberships[j].teamId == rc.teamAccesses[i].teamId;
    }
  }

  lemma UsersMean(rc: ResourceControl, userId: int)
    ensures UserListed(rc, userId) <==> userId in Users(rc)
  {
    if i :| 0 <= i < |rc.userAccesses| && rc.userAccesses[i].userId == userId {
      assert Users(rc)[i] == userId;
    }
    if userId in Users(rc) {
      var i :| 0 <= i < |Users(rc)| && Users(rc)[i] == userId;
      assert rc.userAccesses[i].userId == userId;
    }
  }

  lemma AccessMeans(rc: ResourceControl, context: SecurityContext)
    ensures AuthorizedResourceControlAccess(rc, context) <==> MayAccess(Users(rc), Teams(rc), rc.isPublic, context)
    ensures AuthorizedResourceControlDeletion(rc, context) <==> MayAccess(Users(rc), Teams(rc), rc.isPublic, context)
  {
    TeamsMean(rc, context.memberships);
    UsersMean(rc, context.userId);
  }

  lemma CreationMeans(rc: ResourceControl, context: SecurityContext)
    ensures AuthorizedResourceControlCreation(rc, context) <==> MayCreate(Users(rc), Teams(rc), rc.isPublic, context)
    ensures AuthorizedResourceControlUpdate(rc, context) <==> MayChange(Users(rc), Teams(rc), rc.isPublic, context)
  {
    TeamsMean(rc, context.memberships);
    if |Users(rc)| == 1 {
      assert Users(rc) == [context.userId] <==> rc.userAccesses[0].userId == context.userId;
    }
  }

  // ----- The index -----

  predicate IsMain(rc: ResourceControl, resourceId: string) {
    rc.resourceId == resourceId
  }

  predicate IsSub(rc: ResourceControl, resourceId: string) {
    exists i :: 0 <= i < |rc.subResourceIds| && rc.subResourceIds[i] == resourceId
  }

  predicate Claims(rc: ResourceControl, resourceId: string) {
    IsMain(rc, resourceId) || IsSub(rc, resourceId)
  }

  // The proxy scan: the first control that claims the identifier, by either kind of claim.
  function GetResourceControlByResourceID(resourceId: string, rcs: seq<ResourceControl>): (r: Option<ResourceControl>)
    ensures r.None? <==> forall i :: 0 <= i < |rcs| ==> !Claims(rcs[i], resourceId)
  {
    if rcs == [] then None
    else if IsMain(rcs[0], resourceId) then Some(rcs[0])
    else if IsSub(rcs[0], resourceId) then Some(rcs[0])
    else
      assert forall i :: 0 < i < |rcs| ==> rcs[i] == rcs[1..][i - 1];
      GetResourceControlByResourceID(resourceId, rcs[1..])
  }

  // A control claims its own identifier and those of its sub-resources.
  lemma ClaimsMean(rc: ResourceControl, resourceId: string)
    ensures Claims(rc, resourceId) <==> resourceId == rc.resourceId || resourceId in rc.subResourceIds
  {
    if resourceId in rc.subResourceIds {
      var i :| 0 <= i < |rc.subResourceIds| && rc.subResourceIds[i] == resourceId;
      assert IsSub(rc, resourceId);
    }
  }

  // What the database scan has found after `rcs`: a main claim ends the scan, a sub-claim is
  // overwritten by the next claim.
  datatype ScanState = ScanState(found: Option<ResourceControl>, stopped: bool)

  function DatabaseScan(resourceId: string, rcs: seq<ResourceControl>): ScanState {
    if rcs == [] then ScanState(None, false) else
      var last := rcs[|rcs| - 1];
      var before := DatabaseScan(resourceId, rcs[..|rcs| - 1]);
      if before.stopped then before
      else if IsMain(last, resourceId) then ScanState(Some(last), true)
      else if IsSub(last, resourceId) then ScanState(Some(last), false)
      else before
  }

  predicate FirstMain(rcs: seq<ResourceControl>, resourceId: string, i: int) {
    0 <= i < |rcs| && IsMain(rcs[i], resourceId) && forall j :: 0 <= j < i ==> !IsMain(rcs[j], resourceId)
  }

  predicate FirstClaim(rcs: seq<ResourceControl>, resourceId: string, i: int) {
    0 <= i < |rcs| && Claims(rcs[i], resourceId) && forall j :: 0 <= j < i ==> !Claims(rcs[j], resourceId)
  }

  predicate LastClaim(rcs: seq<ResourceControl>, resourceId: string, i: int) {
    0 <= i < |rcs| && Claims(rcs[i], resourceId) && forall j :: i < j < |rcs| ==> !Claims(rcs[j], resourceId)
  }

  predicate NoMain(rcs: seq<ResourceControl>, resourceId: string) {
    forall i :: 0 <= i < |rcs| ==> !IsMain(rcs[i], resourceId)
  }

  predicate NoClaim(rcs: seq<ResourceControl>, resourceId: string) {
    forall i :: 0 <= i < |rcs| ==> !Claims(rcs[i], resourceId)
  }

  // The database scan returns the first main claimant, or else the last sub-claimant.
  lemma {:induction false} DatabaseScanResult(resourceId: string, rcs: seq<ResourceControl>, i: int)
    ensures FirstMain(rcs, resourceId, i) ==> DatabaseScan(resourceId, rcs) == ScanState(Some(rcs[i]), true)
    ensures NoMain(rcs, resourceId) && LastClaim(rcs, resourceId, i) ==>
              DatabaseScan(resourceId, rcs) == ScanState(Some(rcs[i]), false)
    ensures NoClaim(rcs, resourceId) <==> DatabaseScan(resourceId, rcs).found.None?
    ensures NoMain(rcs, resourceId) <==> !DatabaseScan(resourceId, rcs).stopped
  {
    if rcs != [] {
      var n := |rcs| - 1;
      var init := rcs[..n];
      DatabaseScanResult(resourceId, init, i);
      assert forall j :: 0 <= j < n ==> init[j] == rcs[j];
      if i < n && FirstMain(rcs, resourceId, i) {
        assert FirstMain(init, resourceId, i);
      }
      if i < n && LastClaim(rcs, resourceId, i) && NoMain(rcs, resourceId) {
        assert LastClaim(init, resourceId, i) && NoMain(init, resourceId);
      }
      if i == n && FirstMain(rcs, resourceId, i) {
        assert NoMain(init, resourceId);
      }
      if NoMain(rcs, resourceId) {
        assert NoMain(init, resourceId);
      }
    }
  }

  lemma {:induction false} ProxyScanResult(resourceId: string, rcs: seq<ResourceControl>, i: int)
    requires FirstClaim(rcs, resourceId, i)
    ensures GetResourceControlByResourceID(resourceId, rcs) == Some(rcs[i])
  {
    if i > 0 {
      assert !Claims(rcs[0], resourceId);
      assert forall j :: 0 < j < |rcs| ==> rcs[j] == rcs[1..][j - 1];
      assert FirstClaim(rcs[1..], resourceId, i - 1);
      ProxyScanResult(resourceId, rcs[1..], i - 1);
    }
  }

  // No control takes as its own identifier one that an earlier control claims.
  predicate Exclusive(rcs: seq<ResourceControl>) {
    forall i, j :: 0 <= i < j < |rcs| ==> !Claims(rcs[i], rcs[j].resourceId)
  }

  // Under that rule both scans resolve a control's own identifier to that control.
  lemma OwnIdentifierResolves(rcs: seq<ResourceControl>, i: nat)
    requires Exclusive(rcs) && i < |rcs|
    ensures DatabaseScan(rcs[i].resourceId, rcs).found == Some(rcs[i])
    ensures GetResourceControlByResourceID(rcs[i].resourceId, rcs) == Some(rcs[i])
  {
    var id := rcs[i].resourceId;
    assert FirstMain(rcs, id, i);
    assert FirstClaim(rcs, id, i);
    DatabaseScanResult(id, rcs, i);
    ProxyScanResult(id, rcs, i);
  }

  // The identifier is some control's own, or at most one control claims it.
  predicate Unambiguous(rcs: seq<ResourceControl>, resourceId: string) {
    !NoMain(rcs, resourceId) ||
    forall i, j :: 0 <= i < j < |rcs| ==> !(Claims(rcs[i], resourceId) && Claims(rcs[j], resourceId))
  }

  // The scans agree on an identifier exactly when it is some control's own, or is claimed by
  // at most one control.
  lemma ScansAgree(rcs: seq<ResourceControl>, resourceId: string)
    requires Exclusive(rcs)
    requires forall i, j :: 0 <= i < j < |rcs| ==> rcs[i] != rcs[j]
    ensures DatabaseScan(resourceId, rcs).found == GetResourceControlByResourceID(resourceId, rcs) <==>
              Unambiguous(rcs, resourceId)
  {
    if !NoMain(rcs, resourceId) {
      var i :| 0 <= i < |rcs| && IsMain(rcs[i], resourceId);
      OwnIdentifierResolves(rcs, i);
    } else if NoClaim(rcs, resourceId) {
      DatabaseScanResult(resourceId, rcs, 0);
    } else {
      var first := FindFirstClaim(rcs, resourceId);
      var last := FindLastClaim(rcs, resourceId);
      DatabaseScanResult(resourceId, rcs, last);
      ProxyScanResult(resourceId, rcs, first);
      if first != last {
        assert rcs[first] != rcs[last];
      }
    }
  }

  lemma {:induction false} FindFirstClaim(rcs: seq<ResourceControl>, resourceId: string) returns (i: int)
    requires !NoClaim(rcs, resourceId)
    ensures FirstClaim(rcs, resourceId, i)
  {
    i := 0;
    while !Claims(rcs[i], resourceId)
      invariant 0 <= i < |rcs|
      invariant forall j :: 0 <= j < i ==> !Claims(rcs[j], resourceId)
      decreases |rcs| - i
    {
      if i == |rcs| - 1 {
        assert NoClaim(rcs, resourceId);
      }
      i := i + 1;
    }
  }

  lemma {:induction false} FindLastClaim(rcs: seq<ResourceControl>, resourceId: string) returns (i: int)
    requires !NoClaim(rcs, resourceId)
    ensures LastClaim(rcs, resourceId, i)
  {
    i := |rcs| - 1;
    while !Claims(rcs[i], resourceId)
      invariant 0 <= i < |rcs|
      invariant forall j :: i < j < |rcs| ==> !Claims(rcs[j], resourceId)
      decreases i
    {
      if i == 0 {
        assert NoClaim(rcs, resourceId);
      }
      i := i - 1;
    }
  }
}
