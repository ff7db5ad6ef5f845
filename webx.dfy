/**
 * The records of the root package (workspace.go, plan.go, provider.go, subscription.go).
 * `CreatedAt` timestamps are dropped; `PairedAt` is kept as an opaque instant.
 */
module Webx {
  import opened Wrappers

  /** A pricing tier name such as "free"; applications define their own. */
  type PlanTier = string

  /** A provider kind such as "managed" or "selfhosted"; applications define their own. */
  type ProviderType = string

  /** A logical tenant. */
  datatype Workspace = Workspace(id: string, name: string, planTier: PlanTier, providerId: string, regionId: string)

  /** Binds a user to a workspace with one role. */
  datatype Membership = Membership(id: string, workspaceId: string, userId: string, roleId: string)

  /** A named capability list; an empty workspace ID is a global role; system roles cannot be deleted. */
  datatype Role = Role(id: string, workspaceId: string, name: string, capabilities: seq<string>, system: bool)

  /** Quotas of a tier; a numeric 0 means unlimited, an empty region list means every region. */
  datatype PlanLimits = PlanLimits(
    maxWorkspaces: int,
    maxMembers: int,
    maxStorageBytes: int,
    maxTokens: int,
    allowSelfHost: bool,
    allowedRegions: seq<string>)

  /** A deployment target; `pairedAt` is None while a self-hosted provider awaits pairing. */
  datatype Provider = Provider(id: string, name: string, providerType: ProviderType, ownerId: string,
                               pairingCode: string, pairedAt: Option<int>)

  /** A deployment region within a provider (`labelText` is the Go field `Label`). */
  datatype Region = Region(id: string, providerId: string, name: string, labelText: string)

  /** A workspace's billing subscription. */
  datatype Subscription = Subscription(id: string, workspaceId: string, customerId: string,
                                       subscriptionId: string, tier: PlanTier, active: bool)

  /** The errors the in-memory stores return: a duplicate ID, a missing ID, a protected system role. */
  datatype StoreError =
    | AlreadyExists(entity: string, id: string)
    | NotFound(entity: string, id: string)
    | SystemRoleProtected(id: string)
}
