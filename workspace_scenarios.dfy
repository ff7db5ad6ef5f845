/** Concrete runs of the provisioning service against fresh in-memory stores. */
module WorkspaceScenarios {
  import opened Wrappers
  import opened Webx
  import opened WorkspaceService
  import PlanUsage
  import DashboardPlans
  import WorkspaceMemory
  import RoleMemory
  import MembershipMemory

  /** The service's quota refusal is exactly the point where the usage check reports nothing remaining. */
  lemma QuotaAgreesWithUsage(limits: PlanLimits, owned: nat, members: nat)
    ensures WorkspaceQuotaReached(Some(limits), owned) <==> PlanUsage.StatusOf(limits.maxWorkspaces, owned).remaining == 0
    ensures MemberQuotaReached(Some(limits), members) <==> PlanUsage.StatusOf(limits.maxMembers, members).remaining == 0
  {
  }

  /**
   * On the free tier (one workspace) the owner's first workspace is created and the second
   * is refused without touching any store.
   */
  method FreeTierSecondWorkspaceRefused() returns (first: Result<CreateWorkspaceResult, ServiceError>,
                                                   second: Result<CreateWorkspaceResult, ServiceError>,
                                                   workspaceCount: nat, roleCount: nat, membershipCount: nat)
    ensures first.Success? && first.value.workspace.id == "ws_1"
    ensures second == Failure(WorkspaceLimitReached)
    ensures workspaceCount == 1 && roleCount == 1 && membershipCount == 1
  {
    var workspaces := new WorkspaceMemory.Store();
    var roles := new RoleMemory.Store();
    var memberships := new MembershipMemory.Store();
    var input := CreateWorkspaceInput("Acme", "usr_1", DashboardPlans.PlanFree, Some(DashboardPlans.FreeLimits), "prv_1", DashboardPlans.DefaultRegionId);

    first := CreateWorkspace(workspaces, roles, memberships, input, GeneratedIds("ws_1", "role_1", "mbr_1"));
    assert memberships.UserIds("usr_1") == {"mbr_1"};
    second := CreateWorkspace(workspaces, roles, memberships, input, GeneratedIds("ws_2", "role_2", "mbr_2"));
    workspaceCount, roleCount, membershipCount := |workspaces.data|, |roles.data|, |memberships.data|;
  }

  /** With `MaxMembers` 2, two members are admitted, the third is refused, and two memberships remain. */
  method TwoMemberQuota() returns (first: Result<Membership, ServiceError>, second: Result<Membership, ServiceError>,
                                   third: Result<Membership, ServiceError>, members: nat)
    ensures first.Success? && second.Success?
    ensures third == Failure(MemberLimitReached)
    ensures members == 2
  {
    var memberships := new MembershipMemory.Store();
    var limits := PlanLimits(1, 2, 0, 0, false, []);
    first := AddMember(memberships, AddMemberInput("ws_1", "usr_1", "role_1", Some(limits)), "mbr_1");
    second := AddMember(memberships, AddMemberInput("ws_1", "usr_2", "role_1", Some(limits)), "mbr_2");
    third := AddMember(memberships, AddMemberInput("ws_1", "usr_3", "role_1", Some(limits)), "mbr_3");
    members := |memberships.WorkspaceIds("ws_1")|;
  }
}
