// Lists and inspections built on the two lookups: stacks (api/http/proxy/access_control.go,
// api/http/handler/stacks/stack_inspect.go) and containers (api/http/proxy/containers.go).
module AccessControl {
  import opened Collections
  import opened Bucket
  import opened Portainer
  import opened ResourceControls
  import opened ResourceControlApi

  datatype Stack = Stack(id: int, name: string, kind: int, endpointId: int, swarmId: string)

  const NO_CONTROL := ResourceControl(0, "", [], 0, [], [], false, false)

  datatype ExtendedStack = ExtendedStack(stack: Stack, control: ResourceControl)

  // What a lookup gives a caller: administrators see everything, others what they may access.
  function Shown(stack: Stack, found: Option<ResourceControl>, context: SecurityContext): Option<ExtendedStack> {
    match found
    case None => if context.isAdmin then Some(ExtendedStack(stack, NO_CONTROL)) else None
    case Some(rc) =>
      if AuthorizedResourceControlAccess(rc, context) then Some(ExtendedStack(stack, rc)) else None
  }

  // The shown stacks, in order.
  function Listed(stacks: seq<Stack>, rcs: seq<ResourceControl>, context: SecurityContext): seq<ExtendedStack> {
    if stacks == [] then [] else
      var last := stacks[|stacks| - 1];
      Listed(stacks[..|stacks| - 1], rcs, context) +
      match Shown(last, GetResourceControlByResourceID(last.name, rcs), context)
      case Some(e) => [e]
      case None => []
  }

  // A caller is shown a stack with the control found, if the control lets them in; without a
  // control it is for administrators only.
  lemma ShownMeans(stack: Stack, found: Option<ResourceControl>, context: SecurityContext)
    ensures found == None && context.isAdmin ==>
              Shown(stack, found, context) ==
              Some(ExtendedStack(stack, ResourceControl(0, "", [], 0, [], [], false, false)))
    ensures found == None && !context.isAdmin ==> Shown(stack, found, context) == None
    ensures found.Some? ==>
              var rc := found.value;
              Shown(stack, found, context) ==
              if MayAccess(Users(rc), Teams(rc), rc.isPublic, context) then Some(ExtendedStack(stack, rc)) else None
  {
    if found.Some? {
      AccessMeans(found.value, context);
    }
  }

  function ShownAll(stacks: seq<Stack>, rcs: seq<ResourceControl>, context: SecurityContext)
    : (shown: seq<Option<ExtendedStack>>)
    ensures |shown| == |stacks|
    ensures forall i :: 0 <= i < |stacks| ==>
              shown[i] == Shown(stacks[i], GetResourceControlByResourceID(stacks[i].name, rcs), context)
  {
    seq(|stacks|, i requires 0 <= i < |stacks| =>
      Shown(stacks[i], GetResourceControlByResourceID(stacks[i].name, rcs), context))
  }

  // The list is what the caller is shown of each stack, in order.
  lemma ListedMeans(stacks: seq<Stack>, rcs: seq<ResourceControl>, context: SecurityContext)
    ensures Listed(stacks, rcs, context) == Present(ShownAll(stacks, rcs, context), |stacks|)
  {
    ListedPrefix(stacks, rcs, context, |stacks|);
    assert stacks[..|stacks|] == stacks;
  }

  lemma {:induction false} ListedPrefix(stacks: seq<Stack>, rcs: seq<ResourceControl>, context: SecurityContext, n: nat)
    requires n <= |stacks|
    ensures Listed(stacks[..n], rcs, context) == Present(ShownAll(stacks, rcs, context), n)
  {
    if n > 0 {
      ListedPrefix(stacks, rcs, context, n - 1);
      var last := stacks[n - 1];
      assert stacks[..n][..n - 1] == stacks[..n - 1] && stacks[..n][n - 1] == last;
      var shown := Shown(last, GetResourceControlByResourceID(last.name, rcs), context);
      assert ShownAll(stacks, rcs, context)[n - 1] == shown;
    }
  }

  method CanAccessStack(stack: Stack, rc: Option<ResourceControl>, userId: int, memberships: seq<Membership>)
    returns (allowed: bool)
    ensures allowed <==>
              rc.Some? && AuthorizedResourceControlAccess(rc.value, SecurityContext(false, userId, memberships))
  {
    if rc.None? {
      return false;
    }
    var userTeamIds := CollectTeamIds(memberships);
    AccessPredicatesCoincide(rc.value, SecurityContext(false, userId, memberships));
    if CanUserAccessResource(userId, userTeamIds, rc.value) {
      return true;
    }
    return rc.value.isPublic;
  }

  method CollectTeamIds(memberships: seq<Membership>) returns (userTeamIds: seq<int>)
    ensures userTeamIds == TeamIds(memberships)
  {
    userTeamIds := [];
    for i := 0 to |memberships|
      invariant userTeamIds == TeamIds(memberships)[..i]
    {
      userTeamIds := userTeamIds + [memberships[i].teamId];
    }
  }

  method FilterStacks(stacks: seq<Stack>, rcs: seq<ResourceControl>, context: SecurityContext)
    returns (filtered: seq<ExtendedStack>)
    ensures filtered == Listed(stacks, rcs, context)
  {
    filtered := [];
    var userTeamIds := CollectTeamIds(context.memberships);
    for i := 0 to |stacks|
      invariant filtered == Listed(stacks[..i], rcs, context)
    {
      assert stacks[..i + 1][..i] == stacks[..i];
      var extendedStack := ExtendedStack(stacks[i], NO_CONTROL);
      var rc := GetResourceControlByResourceID(stacks[i].name, rcs);
      if !context.isAdmin && rc.Some? {
        AccessPredicatesCoincide(rc.value, context);
      }
      if rc.None? && context.isAdmin {
        filtered := filtered + [extendedStack];
      } else if rc.Some? && (context.isAdmin || rc.value.isPublic ||
                             CanUserAccessResource(context.userId, userTeamIds, rc.value)) {
        extendedStack := extendedStack.(control := rc.value);
        filtered := filtered + [extendedStack];
      }
    }
    assert stacks[..|stacks|] == stacks;
  }

  datatype StackResponse = StackNotFound | StackForbidden | StackShown(extended: ExtendedStack)

  class StackHandler {
    const stacks: Bucket<Stack>
    const resourceControls: ResourceControlService

    constructor (stacks: Bucket<Stack>, resourceControls: ResourceControlService)
      ensures this.stacks == stacks && this.resourceControls == resourceControls
    {
      this.stacks, this.resourceControls := stacks, resourceControls;
    }

    // GET /stacks/{id}
    method StackInspect(id: int, context: SecurityContext) returns (response: StackResponse)
      ensures response.StackNotFound? <==> id !in stacks.data
      ensures id in stacks.data ==>
                var found := DatabaseScan(stacks.data[id].name, Scan(resourceControls.db.data)).found;
                var shown := Shown(stacks.data[id], found, context);
                response == if shown.Some? then StackShown(shown.value) else StackForbidden
    {
      var found := stacks.Get(id);
      if found.None? {
        return StackNotFound;
      }
      var stack := found.value;
      var rc := resourceControls.ResourceControlByResourceID(stack.name);
      var extendedStack := ExtendedStack(stack, NO_CONTROL);
      if !context.isAdmin && rc.None? {
        return StackForbidden;
      }
      if rc.Some? {
        var allowed := CanAccessStack(stack, rc, context.userId, context.memberships);
        if context.isAdmin || allowed {
          extendedStack := extendedStack.(control := rc.value);
        } else {
          return StackForbidden;
        }
      }
      response := StackShown(extendedStack);
    }
  }

  // The list and the inspection show every caller the same stack, with the same control or
  // not at all, exactly when the name is some control's own or is claimed at most once.
  lemma ListAgreesWithInspect(stack: Stack, data: map<int, ResourceControl>, sequence: nat)
    requires ValidIndex(data, sequence)
    ensures (forall context: SecurityContext ::
               Shown(stack, GetResourceControlByResourceID(stack.name, Scan(data)), context) ==
               Shown(stack, DatabaseScan(stack.name, Scan(data)).found, context)) <==>
            Unambiguous(Scan(data), stack.name)
  {
    ScanIsExclusive(data, sequence);
    ScansAgree(Scan(data), stack.name);
    DatabaseScanResult(stack.name, Scan(data), 0);
    var listed := GetResourceControlByResourceID(stack.name, Scan(data));
    var inspected := DatabaseScan(stack.name, Scan(data)).found;
    var admin := SecurityContext(true, 0, []);
    if listed != inspected {
      assert Shown(stack, listed, admin) != Shown(stack, inspected, admin);
    }
  }

  // The stacks whose inspection succeeds, in order.
  ghost function Inspectable(
    stacks: seq<Stack>, data: map<int, ResourceControl>, context: SecurityContext): seq<ExtendedStack> {
    if stacks == [] then [] else
      var last := stacks[|stacks| - 1];
      Inspectable(stacks[..|stacks| - 1], data, context) +
      match Shown(last, DatabaseScan(last.name, Scan(data)).found, context)
      case Some(e) => [e]
      case None => []
  }

  lemma LookupsAgree(name: string, data: map<int, ResourceControl>, sequence: nat)
    requires ValidIndex(data, sequence) && Unambiguous(Scan(data), name)
    ensures GetResourceControlByResourceID(name, Scan(data)) == DatabaseScan(name, Scan(data)).found
  {
    ScanIsExclusive(data, sequence);
    ScansAgree(Scan(data), name);
  }

  // The whole list is what inspecting every stack would give, for any caller.
  lemma {:induction false} ListIsInspectable(
    stacks: seq<Stack>, data: map<int, ResourceControl>, sequence: nat, context: SecurityContext)
    requires ValidIndex(data, sequence)
    requires forall i :: 0 <= i < |stacks| ==> Unambiguous(Scan(data), stacks[i].name)
    ensures Listed(stacks, Scan(data), context) == Inspectable(stacks, data, context)
  {
    if stacks != [] {
      var n := |stacks| - 1;
      ListIsInspectable(stacks[..n], data, sequence, context);
      LookupsAgree(stacks[n].name, data, sequence);
    }
  }

  // ----- Containers -----

  const SERVICE_LABEL := "com.docker.swarm.service.id"
  const SWARM_STACK_LABEL := "com.docker.stack.namespace"
  const COMPOSE_STACK_LABEL := "com.docker.compose.project"

  datatype OperationContext = OperationContext(
    isAdmin: bool, userId: int, userTeamIds: seq<int>, resourceControls: seq<ResourceControl>)

  // A container of a list or inspect response: its identifier, its labels, and the control
  // it has been decorated with.
  class ContainerObject {
    const id: Option<string>
    const labels: Option<map<string, string>>
    var control: Option<ResourceControl>

    constructor (id: Option<string>, labels: Option<map<string, string>>)
      ensures this.id == id && this.labels == labels && control == None
    {
      this.id, this.labels, this.control := id, labels, None;
    }
  }

  predicate Grants(rc: ResourceControl, context: OperationContext) {
    context.isAdmin || rc.isPublic || CanUserAccessResource(context.userId, context.userTeamIds, rc)
  }

  // An identifier lets a caller in when its control grants access; without a control only
  // administrators get in.
  predicate Admits(identifier: string, context: OperationContext) {
    var rc := GetResourceControlByResourceID(identifier, context.resourceControls);
    if rc.None? then context.isAdmin else Grants(rc.value, context)
  }

  predicate LabelAdmits(labels: Option<map<string, string>>, name: string, context: OperationContext) {
    labels.Some? && name in labels.value && Admits(labels.value[name], context)
  }

  // A container is accessible through its own identifier or through any of three labels.
  predicate Accessible(id: string, labels: Option<map<string, string>>, context: OperationContext) {
    || Admits(id, context)
    || LabelAdmits(labels, SERVICE_LABEL, context)
    || LabelAdmits(labels, SWARM_STACK_LABEL, context)
    || LabelAdmits(labels, COMPOSE_STACK_LABEL, context)
  }

  // Which callers an identifier lets in: if some control claims it, those that the first such
  // control is public for, lists, or lists a team of, and administrators; else administrators.
  lemma AdmitsMeans(identifier: string, context: OperationContext, i: int)
    ensures NoClaim(context.resourceControls, identifier) ==> (Admits(identifier, context) <==> context.isAdmin)
    ensures FirstClaim(context.resourceControls, identifier, i) ==>
              var rc := context.resourceControls[i];
              Admits(identifier, context) <==>
              || context.isAdmin || rc.isPublic || context.userId in Users(rc)
              || exists team :: team in context.userTeamIds && team in Teams(rc)
  {
    if FirstClaim(context.resourceControls, identifier, i) {
      ProxyScanResult(identifier, context.resourceControls, i);
      ProxyAccessMeans(context.resourceControls[i], context.userId, context.userTeamIds);
    }
  }

  lemma ProxyAccessMeans(rc: ResourceControl, userId: int, teamIds: seq<int>)
    ensures CanUserAccessResource(userId, teamIds, rc) <==>
            rc.isPublic || userId in Users(rc) || exists team :: team in teamIds && team in Teams(rc)
  {
    UsersMean(rc, userId);
    if i, j :| 0 <= i < |rc.teamAccesses| && 0 <= j < |teamIds| && teamIds[j] == rc.teamAccesses[i].teamId {
      assert Teams(rc)[i] == teamIds[j];
      assert teamIds[j] in teamIds && teamIds[j] in Teams(rc);
    }
    if team :| team in teamIds && team in Teams(rc) {
      var j :| 0 <= j < |teamIds| && teamIds[j] == team;
      var i :| 0 <= i < |Teams(rc)| && Teams(rc)[i] == team;
      assert teamIds[j] == rc.teamAccesses[i].teamId;
    }
  }

  // A container is reached through its identifier or the value of one of three labels.
  lemma AccessibleMeans(id: string, labels: map<string, string>, context: OperationContext)
    ensures Accessible(id, None, context) <==> Admits(id, context)
    ensures Accessible(id, Some(labels), context) <==>
            || Admits(id, context)
            || exists name :: name in labels && Admits(labels[name], context) &&
                 name in {
                   "com.docker.swarm.service.id", "com.docker.stack.namespace", "com.docker.compose.project"}
  {
  }

  // The decoration of an accessible container: a control in force that grants the caller access.
  predicate GoodDecoration(control: Option<ResourceControl>, context: OperationContext) {
    control.Some? && Grants(control.value, context) &&
    exists i :: 0 <= i < |context.resourceControls| && context.resourceControls[i] == control.value
  }

  lemma {:induction false} FoundIsListed(identifier: string, rcs: seq<ResourceControl>)
    requires GetResourceControlByResourceID(identifier, rcs).Some?
    ensures exists i :: 0 <= i < |rcs| && rcs[i] == GetResourceControlByResourceID(identifier, rcs).value
  {
    if Claims(rcs[0], identifier) {
      assert rcs[0] == GetResourceControlByResourceID(identifier, rcs).value;
    } else {
      FoundIsListed(identifier, rcs[1..]);
      var i :| 0 <= i < |rcs[1..]| && rcs[1..][i] == GetResourceControlByResourceID(identifier, rcs[1..]).value;
      assert rcs[i + 1] == GetResourceControlByResourceID(identifier, rcs).value;
    }
  }

  // ----- Which control a container shows -----

  // What an identifier grants: nothing, access without a control, or access through a control.
  function Granted(identifier: string, context: OperationContext): (grant: Option<Option<ResourceControl>>)
    ensures grant.Some? <==> Admits(identifier, context)
  {
    var rc := GetResourceControlByResourceID(identifier, context.resourceControls);
    if rc.None? then if context.isAdmin then Some(None) else None
    else if Grants(rc.value, context) then Some(rc)
    else None
  }

  function GrantedByLabel(labels: Option<map<string, string>>, name: string, context: OperationContext)
    : (grant: Option<Option<ResourceControl>>)
    ensures grant.Some? <==> LabelAdmits(labels, name, context)
  {
    if labels.Some? && name in labels.value then Granted(labels.value[name], context) else None
  }

  function OrElse<T>(first: Option<T>, second: Option<T>): Option<T> {
    if first.Some? then first else second
  }

  // The grants in the order of the list, and in the order of an inspection.
  function ListChoice(id: string, labels: Option<map<string, string>>, context: OperationContext)
    : (grant: Option<Option<ResourceControl>>)
    ensures grant.Some? <==> Accessible(id, labels, context)
  {
    OrElse(Granted(id, context),
    OrElse(GrantedByLabel(labels, COMPOSE_STACK_LABEL, context),
    OrElse(GrantedByLabel(labels, SERVICE_LABEL, context), GrantedByLabel(labels, SWARM_STACK_LABEL, context))))
  }

  function InspectChoice(id: string, labels: Option<map<string, string>>, context: OperationContext)
    : (grant: Option<Option<ResourceControl>>)
    ensures grant.Some? <==> Accessible(id, labels, context)
  {
    OrElse(Granted(id, context),
    OrElse(GrantedByLabel(labels, SERVICE_LABEL, context),
    OrElse(GrantedByLabel(labels, SWARM_STACK_LABEL, context), GrantedByLabel(labels, COMPOSE_STACK_LABEL, context))))
  }

  // Both ask the identifier first. The list then asks the compose project, the service and the
  // swarm stack, an inspection the service, the swarm stack and the compose project.
  lemma ChoicesMean(id: string, labels: map<string, string>, context: OperationContext)
    ensures var grant := name => GrantedByLabel(Some(labels), name, context);
            var service, stack, project :=
              grant("com.docker.swarm.service.id"), grant("com.docker.stack.namespace"),
              grant("com.docker.compose.project");
            var listed, inspected := ListChoice(id, Some(labels), context), InspectChoice(id, Some(labels), context);
            && (Granted(id, context).Some? ==> listed == inspected == Granted(id, context))
            && (Granted(id, context).None? ==>
                  && (project.Some? ==> listed == project)
                  && (project.None? && service.Some? ==> listed == service)
                  && (project.None? && service.None? ==> listed == stack)
                  && (service.Some? ==> inspected == service)
                  && (service.None? && stack.Some? ==> inspected == stack)
                  && (service.None? && stack.None? ==> inspected == project))
  {
  }

  // The decoration a grant leaves on an object.
  function Decorated(control: Option<ResourceControl>, grant: Option<Option<ResourceControl>>)
    : Option<ResourceControl>
  {
    if grant.Some? && grant.value.Some? then grant.value else control
  }

  // Unless its own identifier decides, no two of its labels grant access through different
  // controls, one of them being the compose project.
  predicate OneGrant(id: string, labels: Option<map<string, string>>, context: OperationContext) {
    var swarm := OrElse(
      GrantedByLabel(labels, SERVICE_LABEL, context), GrantedByLabel(labels, SWARM_STACK_LABEL, context));
    var compose := GrantedByLabel(labels, COMPOSE_STACK_LABEL, context);
    Granted(id, context).Some? || swarm.None? || compose.None? || swarm == compose
  }

  // The list and the inspection show a container with the same control exactly in that case.
  lemma ShownAlike(id: string, labels: Option<map<string, string>>, context: OperationContext)
    ensures Decorated(None, ListChoice(id, labels, context)) == Decorated(None, InspectChoice(id, labels, context)) <==>
            OneGrant(id, labels, context)
  {
  }

  // A container of a service and of a compose project, each with a public control of its own,
  // is shown with one control in the list and with the other when inspected.
  lemma ShownDifferently(service: ResourceControl, project: ResourceControl)
    requires service.isPublic && service.resourceId == "s" && service.subResourceIds == []
    requires project.isPublic && project.resourceId == "p" && project.subResourceIds == []
    ensures var labels := Some(map[SERVICE_LABEL := "s", COMPOSE_STACK_LABEL := "p"]);
            var context := OperationContext(false, 1, [], [service, project]);
            && ListChoice("c", labels, context) == Some(Some(project))
            && InspectChoice("c", labels, context) == Some(Some(service))
  {
    assert "s"[0] == 's' && "p"[0] == 'p' && "c"[0] == 'c';
    var rcs := [service, project];
    assert rcs[1..] == [project] && rcs[1..][1..] == [];
    assert SERVICE_LABEL[|SERVICE_LABEL| - 1] == 'd' && COMPOSE_STACK_LABEL[|COMPOSE_STACK_LABEL| - 1] == 't';
    assert GetResourceControlByResourceID("c", rcs) == None;
    assert GetResourceControlByResourceID("p", rcs) == Some(project);
  }

  // What a grant decorates a container with for anyone but administrators is good.
  lemma GrantIsGood(identifier: string, context: OperationContext)
    requires !context.isAdmin && Granted(identifier, context).Some?
    ensures GoodDecoration(Granted(identifier, context).value, context)
  {
    FoundIsListed(identifier, context.resourceControls);
  }

  lemma ChoicesAreGood(id: string, labels: Option<map<string, string>>, context: OperationContext)
    requires !context.isAdmin && Accessible(id, labels, context)
    ensures GoodDecoration(ListChoice(id, labels, context).value, context)
    ensures GoodDecoration(InspectChoice(id, labels, context).value, context)
  {
    if Admits(id, context) {
      GrantIsGood(id, context);
    }
    forall name | LabelAdmits(labels, name, context)
      ensures GoodDecoration(GrantedByLabel(labels, name, context).value, context)
    {
      GrantIsGood(labels.value[name], context);
    }
  }

  method ApplyResourceAccessControl(container: ContainerObject, identifier: string, context: OperationContext)
    returns (access: bool)
    modifies container
    ensures access <==> Admits(identifier, context)
    ensures container.control == Decorated(old(container.control), Granted(identifier, context))
    ensures access && !context.isAdmin ==> GoodDecoration(container.control, context)
  {
    var rc := GetResourceControlByResourceID(identifier, context.resourceControls);
    if rc.None? {
      return context.isAdmin;
    }
    if context.isAdmin || rc.value.isPublic || CanUserAccessResource(context.userId, context.userTeamIds, rc.value) {
      FoundIsListed(identifier, context.resourceControls);
      container.control := rc;
      return true;
    }
    return false;
  }

  method ApplyResourceAccessControlFromLabel(container: ContainerObject, name: string, context: OperationContext)
    returns (access: bool)
    modifies container
    ensures access <==> LabelAdmits(container.labels, name, context)
    ensures container.control == Decorated(old(container.control), GrantedByLabel(container.labels, name, context))
    ensures access && !context.isAdmin ==> GoodDecoration(container.control, context)
  {
    if container.labels.Some? && name in container.labels.value {
      access := ApplyResourceAccessControl(container, container.labels.value[name], context);
      return;
    }
    return false;
  }

  function AccessFlags(containers: seq<ContainerObject>, context: OperationContext): (flags: seq<bool>)
    ensures |flags| == |containers|
    ensures forall i :: 0 <= i < |flags| ==>
              flags[i] == (containers[i].id.Some? && Accessible(containers[i].id.value, containers[i].labels, context))
  {
    seq(|containers|, i requires 0 <= i < |containers| =>
      containers[i].id.Some? && Accessible(containers[i].id.value, containers[i].labels, context))
  }

  ghost function Controls(containers: seq<ContainerObject>): (controls: seq<Option<ResourceControl>>)
    reads containers
    ensures |controls| == |containers|
    ensures forall i :: 0 <= i < |controls| ==> controls[i] == containers[i].control
  {
    seq(|containers|, i requires 0 <= i < |containers| reads containers => containers[i].control)
  }

  // The control a container shows after the checks of the list, and after an inspection.
  function ShownInList(container: ContainerObject, control: Option<ResourceControl>, context: OperationContext)
    : Option<ResourceControl>
  {
    if container.id.None? then control
    else Decorated(control, ListChoice(container.id.value, container.labels, context))
  }

  function ShownWhenInspected(container: ContainerObject, control: Option<ResourceControl>, context: OperationContext)
    : Option<ResourceControl>
  {
    if container.id.None? then control
    else Decorated(control, InspectChoice(container.id.value, container.labels, context))
  }

  // The controls all containers show after the checks of the list, and after inspections.
  function AllInList(
    containers: seq<ContainerObject>, before: seq<Option<ResourceControl>>, context: OperationContext)
    : (after: seq<Option<ResourceControl>>)
    requires |before| == |containers|
    ensures |after| == |containers|
    ensures forall i :: 0 <= i < |after| ==> after[i] == ShownInList(containers[i], before[i], context)
  {
    seq(|containers|, i requires 0 <= i < |containers| => ShownInList(containers[i], before[i], context))
  }

  function AllWhenInspected(
    containers: seq<ContainerObject>, before: seq<Option<ResourceControl>>, context: OperationContext)
    : (after: seq<Option<ResourceControl>>)
    requires |before| == |containers|
    ensures |after| == |containers|
    ensures forall i :: 0 <= i < |after| ==> after[i] == ShownWhenInspected(containers[i], before[i], context)
  {
    seq(|containers|, i requires 0 <= i < |containers| => ShownWhenInspected(containers[i], before[i], context))
  }

  // The first n containers show what they are to show in the end, the others what they did before.
  ghost predicate DecoratedTo(
    containers: seq<ContainerObject>, before: seq<Option<ResourceControl>>, after: seq<Option<ResourceControl>>, n: nat)
    reads containers
  {
    |containers| == |before| == |after| &&
    forall i :: 0 <= i < |containers| ==> containers[i].control == if i < n then after[i] else before[i]
  }

  // The checks of one list entry: its identifier, then the labels until one lets the caller in.
  method ApplyInTurn(container: ContainerObject, id: string, context: OperationContext) returns (access: bool)
    requires container.id == Some(id)
    modifies container
    ensures access <==> Accessible(id, container.labels, context)
    ensures container.control == ShownInList(container, old(container.control), context)
  {
    access := ApplyResourceAccessControl(container, id, context);
    if !access {
      access := ApplyResourceAccessControlFromLabel(container, COMPOSE_STACK_LABEL, context);
      if !access {
        access := ApplyResourceAccessControlFromLabel(container, SERVICE_LABEL, context);
        if !access {
          access := ApplyResourceAccessControlFromLabel(container, SWARM_STACK_LABEL, context);
        }
      }
    }
  }

  // The first n containers have identifiers.
  predicate Identified(containers: seq<ContainerObject>, n: nat) {
    forall i :: 0 <= i < n && i < |containers| ==> containers[i].id.Some?
  }

  // One round of the list.
  method FilterAt(containers: seq<ContainerObject>, i: nat, context: OperationContext,
                  ghost before: seq<Option<ResourceControl>>, ghost after: seq<Option<ResourceControl>>)
    returns (access: bool)
    requires Distinct(containers) && i < |containers| && containers[i].id.Some?
    requires DecoratedTo(containers, before, after, i)
    requires after[i] == ShownInList(containers[i], before[i], context)
    modifies containers[i]
    ensures access == AccessFlags(containers, context)[i]
    ensures DecoratedTo(containers, before, after, i + 1)
  {
    access := ApplyInTurn(containers[i], containers[i].id.value, context);
  }

  // The accessible containers, in order, or None when one of them has no identifier. Each shows
  // the control through which it was let in: a good one, except for administrators, who need none.
  method FilterContainerList(containers: seq<ContainerObject>, context: OperationContext)
    returns (filtered: Option<seq<ContainerObject>>)
    requires Distinct(containers)
    modifies containers
    ensures filtered.None? <==> exists i :: 0 <= i < |containers| && containers[i].id.None?
    ensures filtered.Some? ==> filtered.value == Pick(containers, AccessFlags(containers, context))
    ensures filtered.Some? ==>
              Controls(containers) == AllInList(containers, old(Controls(containers)), context)
    ensures filtered.Some? && !context.isAdmin ==> WellDecorated(containers, context)
  {
    ghost var before := Controls(containers);
    ghost var after := AllInList(containers, before, context);
    filtered := FilterEach(containers, context, AccessFlags(containers, context), before, after);
    if filtered.Some? {
      assert Controls(containers) == after;
      ListedAreGood(containers, before, context);
    }
  }

  method FilterEach(containers: seq<ContainerObject>, context: OperationContext, ghost flags: seq<bool>,
                    ghost before: seq<Option<ResourceControl>>, ghost after: seq<Option<ResourceControl>>)
    returns (filtered: Option<seq<ContainerObject>>)
    requires Distinct(containers) && flags == AccessFlags(containers, context)
    requires DecoratedTo(containers, before, after, 0)
    requires forall i :: 0 <= i < |after| ==> after[i] == ShownInList(containers[i], before[i], context)
    modifies containers
    ensures filtered.Some? <==> Identified(containers, |containers|)
    ensures filtered.Some? ==> filtered.value == Pick(containers, flags)
    ensures filtered.Some? ==> DecoratedTo(containers, before, after, |containers|)
  {
    var kept := [];
    for i := 0 to |containers|
      invariant kept == PickTo(containers, flags, i)
      invariant Identified(containers, i)
      invariant DecoratedTo(containers, before, after, i)
    {
      var container := containers[i];
      if container.id.None? {
        return None;
      }
      var access := FilterAt(containers, i, context, before, after);
      kept := Keep(containers, flags, i, kept, access);
    }
    filtered := Some(kept);
  }

  method Keep(
    containers: seq<ContainerObject>, ghost flags: seq<bool>, i: nat, kept: seq<ContainerObject>, access: bool)
    returns (more: seq<ContainerObject>)
    requires i < |containers| == |flags| && kept == PickTo(containers, flags, i) && access == flags[i]
    ensures more == PickTo(containers, flags, i + 1)
  {
    more := kept;
    if access {
      more := more + [containers[i]];
    }
  }

  // Every accessible container shows a good control.
  ghost predicate WellDecorated(containers: seq<ContainerObject>, context: OperationContext)
    reads containers
  {
    forall i :: 0 <= i < |containers| && AccessFlags(containers, context)[i] ==>
      GoodDecoration(containers[i].control, context)
  }

  lemma ListedAreGood(containers: seq<ContainerObject>, before: seq<Option<ResourceControl>>, context: OperationContext)
    requires |before| == |containers| && Controls(containers) == AllInList(containers, before, context)
    ensures !context.isAdmin ==> WellDecorated(containers, context)
  {
    forall i | 0 <= i < |containers| && !context.isAdmin && AccessFlags(containers, context)[i]
      ensures GoodDecoration(containers[i].control, context)
    {
      assert Controls(containers)[i] == ShownInList(containers[i], before[i], context);
      ChoicesAreGood(containers[i].id.value, containers[i].labels, context);
    }
  }

  datatype InspectStatus = IdentifierNotFound | Ok | AccessDenied

  // The labels are tried in another order than in the list.
  method ContainerInspectOperation(container: ContainerObject, context: OperationContext)
    returns (status: InspectStatus)
    modifies container
    ensures status.IdentifierNotFound? <==> container.id.None?
    ensures status.Ok? <==> container.id.Some? && Accessible(container.id.value, container.labels, context)
    ensures container.control == ShownWhenInspected(container, old(container.control), context)
    ensures status.Ok? && !context.isAdmin ==> GoodDecoration(container.control, context)
    ensures !status.Ok? ==> container.control == old(container.control)
  {
    if container.id.None? {
      return IdentifierNotFound;
    }
    var access := ApplyResourceAccessControl(container, container.id.value, context);
    if access {
      return Ok;
    }
    access := ApplyResourceAccessControlFromLabel(container, SERVICE_LABEL, context);
    if access {
      return Ok;
    }
    access := ApplyResourceAccessControlFromLabel(container, SWARM_STACK_LABEL, context);
    if access {
      return Ok;
    }
    access := ApplyResourceAccessControlFromLabel(container, COMPOSE_STACK_LABEL, context);
    if access {
      return Ok;
    }
    return AccessDenied;
  }

  function Succeeded(statuses: seq<InspectStatus>): (flags: seq<bool>)
    ensures |flags| == |statuses|
    ensures forall i :: 0 <= i < |flags| ==> flags[i] == statuses[i].Ok?
  {
    seq(|statuses|, i requires 0 <= i < |statuses| => statuses[i].Ok?)
  }

  // The containers of two responses are objects apart, none of them decorated.
  ghost predicate FreshResponses(listed: seq<ContainerObject>, inspected: seq<ContainerObject>)
    reads listed, inspected
  {
    && Distinct(inspected)
    && (forall i, j :: 0 <= i < |listed| && 0 <= j < |inspected| ==> listed[i] != inspected[j])
    && (forall i :: 0 <= i < |listed| ==> listed[i].control == None)
    && (forall j :: 0 <= j < |inspected| ==> inspected[j].control == None)
  }

  // The same containers in a list and inspected one by one: the list fails exactly when some
  // inspection finds no identifier, and otherwise keeps, in order, exactly those whose
  // inspection succeeds. Both show the same control exactly where one grant decides.
  method ListThenInspect(listed: seq<ContainerObject>, inspected: seq<ContainerObject>, context: OperationContext)
    returns (filtered: Option<seq<ContainerObject>>, statuses: seq<InspectStatus>)
    requires Distinct(listed) && |inspected| == |listed|
    requires forall i :: 0 <= i < |listed| ==>
               inspected[i].id == listed[i].id && inspected[i].labels == listed[i].labels
    modifies listed, inspected
    ensures |statuses| == |listed|
    ensures filtered.None? <==> exists i :: 0 <= i < |statuses| && statuses[i].IdentifierNotFound?
    ensures filtered.Some? ==> filtered.value == Pick(listed, Succeeded(statuses))
    ensures filtered.Some? ==> forall i :: 0 <= i < |listed| ==> (listed[i] in filtered.value <==> statuses[i].Ok?)
    ensures filtered.Some? ==> forall i :: 0 <= i < |listed| ==> listed[i].id.Some?
    ensures filtered.Some? && old(FreshResponses(listed, inspected)) ==>
              forall i :: 0 <= i < |listed| ==>
                (listed[i].control == inspected[i].control <==> OneGrant(listed[i].id.value, listed[i].labels, context))
  {
    ghost var apart, unseen := FreshResponses(listed, inspected), Controls(inspected);
    filtered := FilterContainerList(listed, context);
    statuses := InspectEach(inspected, context);
    if filtered.Some? {
      assert Succeeded(statuses) == AccessFlags(listed, context);
      forall i | 0 <= i < |listed|
        ensures listed[i] in filtered.value <==> statuses[i].Ok?
      {
        PickMembers(listed, Succeeded(statuses), i);
      }
      if apart {
        assert Controls(inspected) == AllWhenInspected(inspected, unseen, context);
        AllShownAlike(listed, inspected, context);
      }
    } else {
      var i :| 0 <= i < |listed| && listed[i].id.None?;
      assert statuses[i].IdentifierNotFound?;
    }
  }

  lemma AllShownAlike(listed: seq<ContainerObject>, inspected: seq<ContainerObject>, context: OperationContext)
    requires |inspected| == |listed|
    requires forall i :: 0 <= i < |listed| ==>
               listed[i].id.Some? && inspected[i].id == listed[i].id && inspected[i].labels == listed[i].labels
    requires forall i :: 0 <= i < |listed| ==> listed[i].control == ShownInList(listed[i], None, context)
    requires forall i :: 0 <= i < |listed| ==> inspected[i].control == ShownWhenInspected(inspected[i], None, context)
    ensures forall i :: 0 <= i < |listed| ==>
              (listed[i].control == inspected[i].control <==> OneGrant(listed[i].id.value, listed[i].labels, context))
  {
    forall i | 0 <= i < |listed|
      ensures listed[i].control == inspected[i].control <==>
              OneGrant(listed[i].id.value, listed[i].labels, context)
    {
      ShownAlike(listed[i].id.value, listed[i].labels, context);
    }
  }

  method InspectEach(inspected: seq<ContainerObject>, context: OperationContext) returns (statuses: seq<InspectStatus>)
    modifies inspected
    ensures |statuses| == |inspected|
    ensures forall i :: 0 <= i < |statuses| ==> (statuses[i].IdentifierNotFound? <==> inspected[i].id.None?)
    ensures forall i :: 0 <= i < |statuses| ==> (statuses[i].Ok? <==> AccessFlags(inspected, context)[i])
    ensures Distinct(inspected) ==>
              Controls(inspected) == AllWhenInspected(inspected, old(Controls(inspected)), context)
  {
    ghost var before := Controls(inspected);
    ghost var after := AllWhenInspected(inspected, before, context);
    ghost var apart := Distinct(inspected);
    statuses := [];
    for i := 0 to |inspected|
      invariant |statuses| == i
      invariant forall j :: 0 <= j < i ==> (statuses[j].IdentifierNotFound? <==> inspected[j].id.None?)
      invariant forall j :: 0 <= j < i ==> (statuses[j].Ok? <==> AccessFlags(inspected, context)[j])
      invariant apart ==> DecoratedTo(inspected, before, after, i)
    {
      var status := InspectAt(inspected, i, context, apart, before, after);
      statuses := statuses + [status];
    }
    assert apart ==> Controls(inspected) == after;
  }

  method InspectAt(
    inspected: seq<ContainerObject>, i: nat, context: OperationContext,
    ghost apart: bool, ghost before: seq<Option<ResourceControl>>, ghost after: seq<Option<ResourceControl>>)
    returns (status: InspectStatus)
    requires i < |inspected|
    requires apart ==> Distinct(inspected) && DecoratedTo(inspected, before, after, i)
    requires apart ==> after[i] == ShownWhenInspected(inspected[i], before[i], context)
    modifies inspected[i]
    ensures status.IdentifierNotFound? <==> inspected[i].id.None?
    ensures status.Ok? <==> AccessFlags(inspected, context)[i]
    ensures apart ==> DecoratedTo(inspected, before, after, i + 1)
  {
    status := ContainerInspectOperation(inspected[i], context);
  }

  // Of distinct elements exactly the flagged ones are picked.
  lemma PickMembers<T>(xs: seq<T>, flags: seq<bool>, i: nat)
    requires i < |xs| == |flags| && Distinct(xs)
    ensures xs[i] in Pick(xs, flags) <==> flags[i]
  {
    if flags[i] {
      var p := PickTarget(xs, flags, |xs|, i);
    }
    if xs[i] in Pick(xs, flags) {
      var p :| 0 <= p < |Pick(xs, flags)| && Pick(xs, flags)[p] == xs[i];
      var j := PickSource(xs, flags, |xs|, p);
      assert j == i;
    }
  }
}
