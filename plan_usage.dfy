/** Usage against a quota, plan_usage.go. */
module PlanUsage {
  import opened Webx
  import MembershipMemory

  /** `LimitStatus`: a limit of 0 is unlimited and is reported with `remaining == -1`. */
  datatype LimitStatus = LimitStatus(limit: int, used: int, remaining: int)

  /** The status of `used` units against `limit`. */
  function StatusOf(limit: int, used: nat): (s: LimitStatus)
    ensures s.limit == limit && s.used == used
    ensures limit <= 0 ==> s.remaining == -1
    ensures limit > 0 ==> s.remaining >= 0 && s.remaining + used >= limit
    ensures limit > 0 && used <= limit ==> s.remaining == limit - used
    ensures limit > 0 ==> (s.remaining == 0 <==> used >= limit)
  {
    var remaining := if limit > 0 then (if limit - used > 0 then limit - used else 0) else -1;
    LimitStatus(limit, used, remaining)
  }

  /** `remaining` is never below the unlimited sentinel, and never negative for a real limit. */
  lemma RemainingNeverNegative(limit: int, used: nat)
    ensures StatusOf(limit, used).remaining >= -1
    ensures StatusOf(limit, used).remaining == -1 <==> limit <= 0
  {
  }

  /** `CheckWorkspaceLimit`: the user's memberships, counted across all workspaces, against `MaxWorkspaces`. */
  method CheckWorkspaceLimit(memberships: MembershipMemory.Store, userId: string, limits: PlanLimits)
    returns (status: LimitStatus)
    requires memberships.Valid()
    ensures status.used == |memberships.UserIds(userId)|
    ensures status == StatusOf(limits.maxWorkspaces, |memberships.UserIds(userId)|)
  {
    var mbs := memberships.ListByUser(userId);
    status := StatusOf(limits.maxWorkspaces, |mbs|);
  }

  /** `CheckMemberLimit`: the same over the workspace's memberships and `MaxMembers`. */
  method CheckMemberLimit(memberships: MembershipMemory.Store, workspaceId: string, limits: PlanLimits)
    returns (status: LimitStatus)
    requires memberships.Valid()
    ensures status.used == |memberships.WorkspaceIds(workspaceId)|
    ensures status == StatusOf(limits.maxMembers, |memberships.WorkspaceIds(workspaceId)|)
  {
    var mbs := memberships.ListByWorkspace(workspaceId);
    status := StatusOf(limits.maxMembers, |mbs|);
  }
}
