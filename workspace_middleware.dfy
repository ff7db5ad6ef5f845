/**
 * The request gate of workspace_middleware.go. `WorkspaceMiddleware` becomes the function
 * `Resolve`, which takes the URL's `wsID`, the user ID `getUserID` extracted and the three
 * store lookups, and answers either the context handed to the next handler or the HTTP
 * error written instead.
 */
module WorkspaceMiddleware {
  import opened Wrappers
  import opened Webx
  import Capability

  /** One store lookup: a record, Go's `nil, nil` (Absent), or a non-nil error (Failed). */
  datatype Lookup<T> = Found(value: T) | Absent | Failed

  /** `WorkspaceContext`: what the gate attaches to the request. */
  datatype WorkspaceContext = WorkspaceContext(workspace: Workspace, membership: Membership, role: Role,
                                               capabilities: seq<string>)

  /** Either `next` runs with this context, or `http.Error` writes this status and message. */
  datatype Response = Proceed(ctx: WorkspaceContext) | HttpError(status: int, message: string)

  const StatusUnauthorized := 401
  const StatusForbidden := 403
  const StatusNotFound := 404
  const StatusInternalServerError := 500

  /**
   * The gate: the workspace, then the user, then the user's membership of the workspace
   * found (looked up by the record's own ID), then the membership's role. Each missing
   * piece and each lookup error has its own status.
   */
  function Resolve(wsId: string, userId: string,
                   getWorkspace: string -> Lookup<Workspace>,
                   getMembership: (string, string) -> Lookup<Membership>,
                   getRole: string -> Lookup<Role>): (r: Response)
    ensures r.Proceed? <==>
      && wsId != "" && getWorkspace(wsId).Found? && userId != ""
      && getMembership(userId, getWorkspace(wsId).value.id).Found?
      && getRole(getMembership(userId, getWorkspace(wsId).value.id).value.roleId).Found?
    ensures r.Proceed? ==>
      && r.ctx.workspace == getWorkspace(wsId).value
      && r.ctx.membership == getMembership(userId, r.ctx.workspace.id).value
      && r.ctx.role == getRole(r.ctx.membership.roleId).value
      && r.ctx.capabilities == r.ctx.role.capabilities
    ensures r.HttpError? ==> r.status in {StatusUnauthorized, StatusForbidden, StatusNotFound, StatusInternalServerError}
    ensures r == HttpError(StatusNotFound, "workspace not found") <==> wsId == "" || getWorkspace(wsId).Absent?
    ensures (r.HttpError? && r.status == StatusNotFound) <==> wsId == "" || getWorkspace(wsId).Absent?
    ensures (r.HttpError? && r.status == StatusInternalServerError) <==>
      && wsId != ""
      && (|| getWorkspace(wsId).Failed?
          || (&& getWorkspace(wsId).Found? && userId != ""
              && (|| getMembership(userId, getWorkspace(wsId).value.id).Failed?
                  || (&& getMembership(userId, getWorkspace(wsId).value.id).Found?
                      && !getRole(getMembership(userId, getWorkspace(wsId).value.id).value.roleId).Found?))))
    ensures (wsId != "" && getWorkspace(wsId).Failed?) ==> r == HttpError(StatusInternalServerError, "workspace lookup error")
    ensures (wsId != "" && getWorkspace(wsId).Found? && userId == "") ==> r == HttpError(StatusUnauthorized, "unauthorized")
    ensures (wsId != "" && getWorkspace(wsId).Found? && userId != "" && getMembership(userId, getWorkspace(wsId).value.id).Failed?)
      ==> r == HttpError(StatusInternalServerError, "membership lookup error")
    ensures (wsId != "" && getWorkspace(wsId).Found? && userId != "" && getMembership(userId, getWorkspace(wsId).value.id).Absent?)
      ==> r == HttpError(StatusForbidden, "forbidden")
    ensures (&& wsId != "" && getWorkspace(wsId).Found? && userId != ""
             && getMembership(userId, getWorkspace(wsId).value.id).Found?
             && getRole(getMembership(userId, getWorkspace(wsId).value.id).value.roleId).Failed?)
      ==> r == HttpError(StatusInternalServerError, "role lookup error")
    ensures (&& wsId != "" && getWorkspace(wsId).Found? && userId != ""
             && getMembership(userId, getWorkspace(wsId).value.id).Found?
             && getRole(getMembership(userId, getWorkspace(wsId).value.id).value.roleId).Absent?)
      ==> r == HttpError(StatusInternalServerError, "role not found")
    ensures (r.HttpError? && r.status == StatusUnauthorized) <==>
      wsId != "" && getWorkspace(wsId).Found? && userId == ""
    ensures (r.HttpError? && r.status == StatusForbidden) <==>
      && wsId != "" && getWorkspace(wsId).Found? && userId != ""
      && getMembership(userId, getWorkspace(wsId).value.id).Absent?
  {
    if wsId == "" then HttpError(StatusNotFound, "workspace not found")
    else match getWorkspace(wsId)
      case Failed => HttpError(StatusInternalServerError, "workspace lookup error")
      case Absent => HttpError(StatusNotFound, "workspace not found")
      case Found(ws) =>
        if userId == "" then HttpError(StatusUnauthorized, "unauthorized")
        else match getMembership(userId, ws.id)
          case Failed => HttpError(StatusInternalServerError, "membership lookup error")
          case Absent => HttpError(StatusForbidden, "forbidden")
          case Found(mbr) =>
            match getRole(mbr.roleId)
              case Failed => HttpError(StatusInternalServerError, "role lookup error")
              case Absent => HttpError(StatusInternalServerError, "role not found")
              case Found(role) => Proceed(WorkspaceContext(ws, mbr, role, role.capabilities))
  }

  /** `RequireCapability`: the request goes on only with a context whose capabilities grant `required`. */
  function RequireCapability(required: string, ctx: Option<WorkspaceContext>): (r: Response)
    ensures r.Proceed? <==> ctx.Some? && Capability.Can(ctx.value.capabilities, required)
    ensures r.Proceed? ==> r.ctx == ctx.value
    ensures r.HttpError? ==> r == HttpError(StatusForbidden, "forbidden")
  {
    if ctx.None? || !Capability.Can(ctx.value.capabilities, required) then HttpError(StatusForbidden, "forbidden")
    else Proceed(ctx.value)
  }

  /** The lookup an in-memory workspace or role store answers: its `Get`, which never fails. */
  function FromMap<T>(data: map<string, T>): string -> Lookup<T>
  {
    id => if id in data then Found(data[id]) else Absent
  }

  /**
   * `get` answers as the in-memory membership store's `GetByUserAndWorkspace` promises:
   * never an error, a matching stored membership when there is one, Absent otherwise.
   */
  ghost predicate MembershipLookupOf(get: (string, string) -> Lookup<Membership>, data: map<string, Membership>)
  {
    forall u, w :: !get(u, w).Failed? &&
      (get(u, w).Found? ==> (get(u, w).value.id in data && data[get(u, w).value.id] == get(u, w).value
                             && get(u, w).value.userId == u && get(u, w).value.workspaceId == w)) &&
      (get(u, w).Absent? ==> forall id :: id in data ==> !(data[id].userId == u && data[id].workspaceId == w))
  }

  /**
   * Over in-memory stores the gate never reports a lookup error; it answers 404 exactly for
   * an unknown workspace, 403 exactly for a non-member, and otherwise hands on the stored
   * workspace, one of the user's memberships of it and that membership's stored role.
   */
  lemma InMemoryResolve(wsId: string, userId: string, workspaces: map<string, Workspace>,
                        getMembership: (string, string) -> Lookup<Membership>, memberships: map<string, Membership>,
                        roles: map<string, Role>)
    requires forall id :: id in workspaces ==> workspaces[id].id == id
    requires MembershipLookupOf(getMembership, memberships)
    ensures var r := Resolve(wsId, userId, FromMap(workspaces), getMembership, FromMap(roles));
      && (r == HttpError(StatusNotFound, "workspace not found") <==> wsId == "" || wsId !in workspaces)
      && (r.HttpError? && r.status == StatusForbidden <==>
            wsId in workspaces && wsId != "" && userId != ""
            && forall id :: id in memberships ==> !(memberships[id].userId == userId && memberships[id].workspaceId == wsId))
      && (r.HttpError? && r.status == StatusInternalServerError ==> r.message == "role not found")
      && (r.Proceed? ==>
            && r.ctx.workspace == workspaces[wsId]
            && r.ctx.membership.id in memberships && memberships[r.ctx.membership.id] == r.ctx.membership
            && r.ctx.membership.userId == userId && r.ctx.membership.workspaceId == wsId
            && r.ctx.role == roles[r.ctx.membership.roleId])
  {
    if wsId != "" && wsId in workspaces {
      assert workspaces[wsId].id == wsId;
      var m := getMembership(userId, wsId);
      assert !m.Failed?;
    }
  }

  /**
   * After `CreateWorkspace`, with the owner membership the only membership of the new
   * workspace, the owner passes the gate and then every `RequireCapability`.
   */
  lemma OwnerPassesEveryGate(ws: Workspace, ownerRole: Role, owner: Membership,
                             workspaces: map<string, Workspace>,
                             getMembership: (string, string) -> Lookup<Membership>, memberships: map<string, Membership>,
                             roles: map<string, Role>, required: string)
    requires ws.id != "" && owner.userId != ""
    requires ws.id in workspaces && workspaces[ws.id] == ws
    requires owner.id in memberships && memberships[owner.id] == owner
    requires owner.workspaceId == ws.id && owner.roleId == ownerRole.id
    requires ownerRole.id in roles && roles[ownerRole.id] == ownerRole && ownerRole.capabilities == ["*"]
    requires forall id :: id in memberships && memberships[id].workspaceId == ws.id ==> id == owner.id
    requires MembershipLookupOf(getMembership, memberships)
    ensures var r := Resolve(ws.id, owner.userId, FromMap(workspaces), getMembership, FromMap(roles));
      && r.Proceed? && r.ctx.role == ownerRole
      && RequireCapability(required, Some(r.ctx)) == Proceed(r.ctx)
  {
    var found := getMembership(owner.userId, ws.id);
    assert !found.Failed?;
    assert found.Found?;
    assert found.value.id == owner.id;
    Capability.SuperadminGrantsAll(ownerRole.capabilities, required);
  }
}
