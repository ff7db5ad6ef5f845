/** The dashboard's tier table, cmd/dashboard/internal/plans.go. */
module DashboardPlans {
  import opened Webx

  const PlanFree: PlanTier := "free"
  const PlanPro: PlanTier := "pro"
  const PlanEnterprise: PlanTier := "enterprise"

  const ProviderManaged: ProviderType := "managed"
  const ProviderSelfHosted: ProviderType := "selfhosted"

  /** The region used when none is specified. */
  const DefaultRegionId: string := "reg_aws_use1"

  const GiB: int := 1073741824

  const FreeLimits: PlanLimits := PlanLimits(1, 5, GiB, 100, false, ["reg_aws_use1"])
  const ProLimits: PlanLimits := PlanLimits(5, 25, 10 * GiB, 1000, false, ["reg_aws_use1", "reg_aws_euw1", "reg_gcp_usc1"])
  /** Every numeric limit 0 (unlimited); no region list, so every region. */
  const EnterpriseLimits: PlanLimits := PlanLimits(0, 0, 0, 0, true, [])

  /** `PlanLimits`: the limits of each known tier. */
  const PlanLimitsTable: map<PlanTier, PlanLimits> :=
    map[PlanFree := FreeLimits, PlanPro := ProLimits, PlanEnterprise := EnterpriseLimits]

  /** Every numeric quota of `l` is 0, i.e. unlimited. */
  predicate Unlimited(l: PlanLimits) {
    l.maxWorkspaces == 0 && l.maxMembers == 0 && l.maxStorageBytes == 0 && l.maxTokens == 0
  }

  /** The table entry of a known tier; every other tier gets the free limits. */
  function LimitsForTier(tier: PlanTier): (l: PlanLimits)
    ensures tier in PlanLimitsTable ==> l == PlanLimitsTable[tier]
    ensures tier != PlanPro && tier != PlanEnterprise ==> l == FreeLimits
    ensures l.allowSelfHost <==> tier == PlanEnterprise
    ensures Unlimited(l) <==> tier == PlanEnterprise
  {
    if tier in PlanLimitsTable then PlanLimitsTable[tier] else PlanLimitsTable[PlanFree]
  }

  /**
   * Free allows one workspace, five members, 1 GiB and 100 tokens in one region; pro five
   * workspaces, 25 members, 10 GiB and 1000 tokens in three regions; enterprise sets every
   * quota to 0 (unlimited), allows self-hosting and lists no region (every region).
   */
  lemma TierQuotas()
    ensures LimitsForTier(PlanFree).maxWorkspaces == 1 && LimitsForTier(PlanFree).maxMembers == 5
    ensures LimitsForTier(PlanPro).maxWorkspaces == 5 && LimitsForTier(PlanPro).maxMembers == 25
    ensures LimitsForTier(PlanFree).maxStorageBytes == 1073741824
    ensures LimitsForTier(PlanPro).maxStorageBytes == 10737418240
    ensures LimitsForTier(PlanFree).maxTokens == 100 && LimitsForTier(PlanPro).maxTokens == 1000
    ensures !LimitsForTier(PlanFree).allowSelfHost && !LimitsForTier(PlanPro).allowSelfHost
    ensures LimitsForTier(PlanFree).allowedRegions == [DefaultRegionId]
    ensures LimitsForTier(PlanPro).allowedRegions == [DefaultRegionId, "reg_aws_euw1", "reg_gcp_usc1"]
    ensures LimitsForTier(PlanEnterprise) == PlanLimits(0, 0, 0, 0, true, [])
  {
  }
}
