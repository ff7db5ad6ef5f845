/**
 * Workspace provisioning and member admission, workspace_service.go. The IDs that
 * idgen generates are parameters; the stores are the in-memory ones.
 */
module WorkspaceService {
  import opened Wrappers
  import opened Webx
  import Capability
  import WorkspaceMemory
  import RoleMemory
  import MembershipMemory

  /** The service's errors: the two quota sentinels, or a store error wrapped with the failing step. */
  datatype ServiceError =
    | WorkspaceLimitReached
    | MemberLimitReached
    | Wrapped(step: string, cause: StoreError)

  /** `CreateWorkspaceInput`; `limits` is None for a nil `*PlanLimits`. */
  datatype CreateWorkspaceInput = CreateWorkspaceInput(name: string, ownerId: string, tier: PlanTier,
                                                       limits: Option<PlanLimits>, providerId: string, regionId: string)

  /** `CreateWorkspaceResult`: the three records written. */
  datatype CreateWorkspaceResult = CreateWorkspaceResult(workspace: Workspace, ownerRole: Role, membership: Membership)

  /** `AddMemberInput`; `limits` is None for a nil `*PlanLimits`. */
  datatype AddMemberInput = AddMemberInput(workspaceId: string, userId: string, roleId: string, limits: Option<PlanLimits>)

  /** The three IDs `idgen.Generate` hands out during one `CreateWorkspace`. */
  datatype GeneratedIds = GeneratedIds(workspace: string, role: string, membership: string)

  /** The workspace quota applies (limits given, `MaxWorkspaces > 0`) and `owned` has reached it. */
  predicate WorkspaceQuotaReached(limits: Option<PlanLimits>, owned: nat)
  {
    limits.Some? && limits.value.maxWorkspaces > 0 && owned >= limits.value.maxWorkspaces
  }

  /** The member quota applies (limits given, `MaxMembers > 0`) and `members` has reached it. */
  predicate MemberQuotaReached(limits: Option<PlanLimits>, members: nat)
  {
    limits.Some? && limits.value.maxMembers > 0 && members >= limits.value.maxMembers
  }

  /** The workspace record `CreateWorkspace` writes. */
  function NewWorkspace(input: CreateWorkspaceInput, id: string): Workspace
  {
    Workspace(id, input.name, input.tier, input.providerId, input.regionId)
  }

  /** The system owner role `CreateWorkspace` writes: named "owner", capabilities `["*"]`. */
  function NewOwnerRole(id: string, workspaceId: string): Role
  {
    Role(id, workspaceId, "owner", ["*"], true)
  }

  /** The membership binding `userId` to `roleId` in `workspaceId`. */
  function NewMembership(id: string, workspaceId: string, userId: string, roleId: string): Membership
  {
    Membership(id, workspaceId, userId, roleId)
  }

  /** The owner invariant: some membership of the workspace has a stored role holding `"*"`. */
  ghost predicate HasOwner(workspaceId: string, roles: map<string, Role>, memberships: map<string, Membership>)
  {
    exists id :: id in memberships && memberships[id].workspaceId == workspaceId
      && memberships[id].roleId in roles && "*" in roles[memberships[id].roleId].capabilities
  }

  /** Under the owner invariant some member of the workspace is granted every capability. */
  lemma OwnerGrantsEverything(workspaceId: string, roles: map<string, Role>, memberships: map<string, Membership>, required: string)
    requires HasOwner(workspaceId, roles, memberships)
    ensures exists id :: (id in memberships && memberships[id].workspaceId == workspaceId
      && memberships[id].roleId in roles && Capability.Can(roles[memberships[id].roleId].capabilities, required))
  {
    var id :| id in memberships && memberships[id].workspaceId == workspaceId
      && memberships[id].roleId in roles && "*" in roles[memberships[id].roleId].capabilities;
    Capability.SuperadminGrantsAll(roles[memberships[id].roleId].capabilities, required);
  }

  /**
   * `CreateWorkspace`: an optional quota check, then the workspace, the owner role and the
   * owner membership, written in that order. A failing write returns the wrapped store error
   * and keeps every earlier write: there is no rollback.
   */
  method CreateWorkspace(workspaces: WorkspaceMemory.Store, roles: RoleMemory.Store, memberships: MembershipMemory.Store,
                         input: CreateWorkspaceInput, ids: GeneratedIds)
    returns (r: Result<CreateWorkspaceResult, ServiceError>)
    requires workspaces.Valid() && roles.Valid() && memberships.Valid()
    modifies workspaces, roles, memberships
    ensures workspaces.Valid() && roles.Valid() && memberships.Valid()
    // The quota refusal performs no writes.
    ensures WorkspaceQuotaReached(input.limits, |old(memberships.UserIds(input.ownerId))|) ==>
      && r == Failure(WorkspaceLimitReached)
      && workspaces.data == old(workspaces.data) && roles.data == old(roles.data) && memberships.data == old(memberships.data)
    // Step 1: the workspace.
    ensures !WorkspaceQuotaReached(input.limits, |old(memberships.UserIds(input.ownerId))|) && ids.workspace in old(workspaces.data) ==>
      && r == Failure(Wrapped("creating workspace", AlreadyExists("workspace", ids.workspace)))
      && workspaces.data == old(workspaces.data) && roles.data == old(roles.data) && memberships.data == old(memberships.data)
    ensures !WorkspaceQuotaReached(input.limits, |old(memberships.UserIds(input.ownerId))|) && ids.workspace !in old(workspaces.data) ==>
      workspaces.data == old(workspaces.data)[ids.workspace := NewWorkspace(input, ids.workspace)]
    // Step 2: the owner role, after the workspace is stored.
    ensures (!WorkspaceQuotaReached(input.limits, |old(memberships.UserIds(input.ownerId))|) && ids.workspace !in old(workspaces.data)
      && ids.role in old(roles.data)) ==>
      && r == Failure(Wrapped("creating owner role", AlreadyExists("role", ids.role)))
      && roles.data == old(roles.data) && memberships.data == old(memberships.data)
    ensures (!WorkspaceQuotaReached(input.limits, |old(memberships.UserIds(input.ownerId))|) && ids.workspace !in old(workspaces.data)
      && ids.role !in old(roles.data)) ==>
      roles.data == old(roles.data)[ids.role := NewOwnerRole(ids.role, ids.workspace)]
    // Step 3: the owner membership, after the workspace and the role are stored.
    ensures (!WorkspaceQuotaReached(input.limits, |old(memberships.UserIds(input.ownerId))|) && ids.workspace !in old(workspaces.data)
      && ids.role !in old(roles.data) && ids.membership in old(memberships.data)) ==>
      && r == Failure(Wrapped("creating owner membership", AlreadyExists("membership", ids.membership)))
      && memberships.data == old(memberships.data)
    ensures (!WorkspaceQuotaReached(input.limits, |old(memberships.UserIds(input.ownerId))|) && ids.workspace !in old(workspaces.data)
      && ids.role !in old(roles.data) && ids.membership !in old(memberships.data)) ==>
      && memberships.data == old(memberships.data)[ids.membership := NewMembership(ids.membership, ids.workspace, input.ownerId, ids.role)]
      && r == Success(CreateWorkspaceResult(NewWorkspace(input, ids.workspace), NewOwnerRole(ids.role, ids.workspace),
                                            NewMembership(ids.membership, ids.workspace, input.ownerId, ids.role)))
    // What success guarantees.
    ensures r.Success? ==>
      && r.value.workspace.name == input.name && r.value.workspace.planTier == input.tier
      && r.value.workspace.providerId == input.providerId && r.value.workspace.regionId == input.regionId
      && workspaces.Get(r.value.workspace.id) == Some(r.value.workspace)
      && r.value.ownerRole.workspaceId == r.value.workspace.id && r.value.ownerRole.name == "owner"
      && r.value.ownerRole.capabilities == ["*"] && r.value.ownerRole.system
      && r.value.membership.workspaceId == r.value.workspace.id && r.value.membership.userId == input.ownerId
      && r.value.membership.roleId == r.value.ownerRole.id
      && roles.Get(r.value.ownerRole.id) == Some(r.value.ownerRole)
      && memberships.Get(r.value.membership.id) == Some(r.value.membership)
      && HasOwner(r.value.workspace.id, roles.data, memberships.data)
    // A workspace ID no earlier membership mentions ends up with exactly the owner membership.
    ensures r.Success? && (forall id :: id in old(memberships.data) ==> old(memberships.data)[id].workspaceId != ids.workspace) ==>
      memberships.WorkspaceIds(ids.workspace) == {ids.membership}
  {
    if input.limits.Some? && input.limits.value.maxWorkspaces > 0 {
      var existing := memberships.ListByUser(input.ownerId);
      if |existing| >= input.limits.value.maxWorkspaces {
        return Failure(WorkspaceLimitReached);
      }
    }

    var ws := NewWorkspace(input, ids.workspace);
    var o := workspaces.Create(ws);
    if o.Fail? {
      return Failure(Wrapped("creating workspace", o.error));
    }

    var ownerRole := NewOwnerRole(ids.role, ws.id);
    o := roles.Create(ownerRole);
    if o.Fail? {
      return Failure(Wrapped("creating owner role", o.error));
    }

    var mbr := NewMembership(ids.membership, ws.id, input.ownerId, ownerRole.id);
    o := memberships.Create(mbr);
    if o.Fail? {
      return Failure(Wrapped("creating owner membership", o.error));
    }

    assert memberships.data[mbr.id] == mbr && roles.data[ownerRole.id] == ownerRole;
    r := Success(CreateWorkspaceResult(ws, ownerRole, mbr));
  }

  /** `len(ListByWorkspace(workspaceId))`: the number of memberships of the workspace. */
  method MemberCount(memberships: MembershipMemory.Store, workspaceId: string) returns (n: nat)
    requires memberships.Valid()
    ensures n == |memberships.WorkspaceIds(workspaceId)|
  {
    var existing := memberships.ListByWorkspace(workspaceId);
    n := |existing|;
  }

  /**
   * `AddMember`: an optional member-quota check, then one membership written with the
   * input's workspace, user and role.
   */
  method AddMember(memberships: MembershipMemory.Store, input: AddMemberInput, id: string)
    returns (r: Result<Membership, ServiceError>)
    requires memberships.Valid()
    modifies memberships
    ensures memberships.Valid()
    ensures MemberQuotaReached(input.limits, |old(memberships.WorkspaceIds(input.workspaceId))|) ==>
      r == Failure(MemberLimitReached) && memberships.data == old(memberships.data)
    ensures !MemberQuotaReached(input.limits, |old(memberships.WorkspaceIds(input.workspaceId))|) && id in old(memberships.data) ==>
      r == Failure(Wrapped("creating membership", AlreadyExists("membership", id))) && memberships.data == old(memberships.data)
    ensures !MemberQuotaReached(input.limits, |old(memberships.WorkspaceIds(input.workspaceId))|) && id !in old(memberships.data) ==>
      && r == Success(NewMembership(id, input.workspaceId, input.userId, input.roleId))
      && memberships.data == old(memberships.data)[id := r.value]
    ensures r.Success? ==>
      memberships.WorkspaceIds(input.workspaceId) == old(memberships.WorkspaceIds(input.workspaceId)) + {id}
      && |memberships.WorkspaceIds(input.workspaceId)| == |old(memberships.WorkspaceIds(input.workspaceId))| + 1
  {
    ghost var before := memberships.WorkspaceIds(input.workspaceId);
    if input.limits.Some? && input.limits.value.maxMembers > 0 {
      var count := MemberCount(memberships, input.workspaceId);
      if count >= input.limits.value.maxMembers {
        return Failure(MemberLimitReached);
      }
    }
    assert !MemberQuotaReached(input.limits, |before|);

    var mbr := NewMembership(id, input.workspaceId, input.userId, input.roleId);
    var o := memberships.Create(mbr);
    if o.Fail? {
      return Failure(Wrapped("creating membership", o.error));
    }
    assert id !in before;
    assert memberships.data == old(memberships.data)[id := mbr];
    forall x | x in memberships.WorkspaceIds(input.workspaceId) ensures x in before + {id} { }
    forall x | x in before + {id} ensures x in memberships.WorkspaceIds(input.workspaceId) { }
    assert memberships.WorkspaceIds(input.workspaceId) == before + {id};
    r := Success(mbr);
  }
}
