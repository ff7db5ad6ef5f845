# webx workspace core, modelled in Dafny

This project models the multi-tenant workspace core of the webx Go library, and the small
stateful helpers around it. It covers:

- the capability matcher (`capability.Set`: superadmin `*`, exact entries and `resource:*` wildcards);
- workspace provisioning (`CreateWorkspace`, `AddMember`) with plan quotas;
- the usage checks of `plan_usage.go`;
- the request gate `WorkspaceMiddleware` and `RequireCapability`;
- the dashboard's plan table;
- the in-memory stores for memberships, roles, workspaces, providers, regions, subscriptions and key/value sessions;
- the dashboard's session provider;
- the file-upload store and its two HTTP handlers;
- the Datastar attribute helpers (`ds`);
- the expression, data-class and signal string builders (`utils`);
- the branding defaults.

Each Go file becomes one module. A store becomes a `class` whose `data` field is the Go map.
Its mutating methods are `modifies` methods whose `ensures` give the whole new map,
and its reads are functions or read-only methods. A Go `for … range` over a map visits
keys in no fixed order. The loops in `mapscan.dfy`, which the filtered list operations use,
model this by picking the next key nondeterministically.

Some inputs become parameters:

- the IDs that `idgen.Generate`, `randomID` and `utils.RandomID` would produce;
- the URL's `wsID`, and the user ID that `getUserID` returns;
- the session ID of the request context;
- the already-parsed multipart parts.

The HTTP gate is the function `WorkspaceMiddleware.Resolve`. It has one branch per
`http.Error` in the source, including the three store-error branches. The lemmas ending in
`InMemory…` and `Owner…` connect it to the in-memory stores.

Two behaviours of the source are worth knowing. Both follow from the proofs, and the
model does not change either one:

- `CreateWorkspace` accepts an empty `OwnerID`. The gate then answers 401 for that owner
  (`WorkspaceMiddleware.Resolve`).
- The session store joins slots as `sessionID + ":" + key`. So `Delete("a")` also removes
  every slot of session `"a:b"` (`SessionMemory.DeleteReachesNestedSession`).

## Model

| member | source | states |
|---|---|---|
| Capability.BeforeColon | capability/capability.go:16 | `strings.Cut` on ":": None exactly when there is no colon; otherwise a colon-free prefix that is followed by a colon |
| Capability.WildcardResource | capability/capability.go:15 | `strings.CutSuffix(c, ":*")`: Some exactly when `c` ends in ":*", and then `c` is the resource plus ":*" |
| Capability.Can | capability/capability.go:10-22 | the set grants `required` iff some single entry does (superadmin, verbatim, or a matching `resource:*`) |
| Capability.CanAny | capability/capability.go:25-32 | true iff some required capability is granted; false for none |
| Capability.CanAll | capability/capability.go:35-42 | true iff every required capability is granted; true for none |
| Capability.SetCan | capability/capability.go:10-22 | the first-match loop answers exactly `Can` |
| Capability.SetCanAny | capability/capability.go:25-32 | the early-true loop answers exactly `CanAny` |
| Capability.SetCanAll | capability/capability.go:35-42 | the early-false loop answers exactly `CanAll` |
| Capability.BeforeColonIff | capability/capability.go:16 | the resource of `r` is `p` iff `p` has no colon and `r` is `p + ":" + rest` |
| Capability.SuperadminGrantsAll | capability/capability.go:12 | a set holding "*" grants every string, "" included |
| Capability.ExactEntryGrants | capability/capability.go:12-13 | a set holding `required` verbatim grants it |
| Capability.WildcardEntryGrants | capability/capability.go:15-18 | `p:*` grants `required` iff `required` has a colon and its text before the first colon is `p` |
| Capability.ColonFreeNeedsExactOrSuperadmin | capability/capability.go:12-18 | a colon-free `required` is granted by an entry only when the entry is "*" or `required` itself |
| Capability.WildcardDoesNotMatchBareResource | capability/capability.go:16 | `["invoices:*"]` does not grant "invoices" |
| Capability.EmptySetGrantsNothing | capability/capability.go:11-21 | the empty (or nil) set grants nothing |
| Capability.EmptyRequired | capability/capability.go:11-21 | "" is granted only by "*" or a literal "" entry |
| Capability.CanDependsOnlyOnEntries | capability/capability.go:11-21 | two sets with the same entries grant the same things: order and duplicates do not matter |
| Capability.CanMonotonic | capability/capability.go:11-21 | adding entries never withdraws a grant |
| Capability.NoRequirements | capability/capability.go:25-42 | `CanAny()` is false and `CanAll()` is true |
| Capability.NotWildcard | capability/capability.go:15 | an entry not ending in '*' is never a wildcard |
| Capability.ReaderGrantsExactly | capability/capability.go:10-22 | a set of two plain entries grants exactly those two strings and nothing else |
| Capability.PlainEntriesGrantExactly | capability/capability.go:10-22 | a set with no wildcard entry (none ends in '*') grants exactly its own entries |
| Capability.NoEntryGrants | capability/capability.go:10-22 | plain entries that all differ from the required string in its first character grant nothing |
| Capability.ExactMatchScenario | capability/capability_test.go:9-21 | {"invoices:read", "users:write"} grants both entries and refuses "invoices:write" |
| Capability.CanAnyScenario | capability/capability_test.go:87-96 | {"invoices:read", "reports:read"} grants `CanAny("invoices:read", "users:write")` and refuses `CanAny("users:write", "billing:read")` |
| Capability.CanAllScenario | capability/capability_test.go:98-107 | {"invoices:read", "reports:read", "users:write"} grants `CanAll("invoices:read", "reports:read")` and refuses `CanAll("invoices:read", "billing:read")` |
| Capability.ReaderScenario | capability/capability.go:10-42 | the read-only role {"invoices:read", "reports:read"} grants "invoices:read", refuses "invoices:write", grants `CanAny` of a list holding "reports:read", grants `CanAll` of its own two entries, and refuses `CanAll` once "billing:read" is required |
| Capability.InvoicesWildcard | capability/capability.go:15 | "invoices:*" is the wildcard for the "invoices" resource |
| Capability.ResourceWildcardGrants | capability/capability.go:15-18 | `["invoices:*"]` grants "invoices:read" |
| Capability.WildcardRefusesOtherResource | capability/capability.go:15-18 | `p:*` grants no action on another colon-free resource `q` |
| Capability.ResourceWildcardRefuses | capability/capability.go:15-18 | `["invoices:*"]` refuses "users:read" |
| WorkspaceService.OwnerGrantsEverything | workspace_service.go:72-93 | under the owner invariant some member of the workspace is granted every capability |
| WorkspaceService.CreateWorkspace | workspace_service.go:42-100 | quota reached: WorkspaceLimitReached with no writes. Then workspace, role and membership are written in order. A duplicate ID stops at its step with the wrapped store error and keeps the earlier writes. On success: input fields carried over, owner role "owner"/["*"]/system, owner membership, the owner invariant, and exactly one membership for a fresh workspace ID |
| WorkspaceService.MemberCount | workspace_service.go:117 | the length of `ListByWorkspace` is the number of the workspace's memberships |
| WorkspaceService.AddMember | workspace_service.go:112-138 | quota reached: MemberLimitReached and nothing written; a duplicate ID: wrapped error, nothing written; otherwise exactly one membership with the input's fields is added and the workspace's count rises by one |
| WorkspaceScenarios.QuotaAgreesWithUsage | workspace_service.go:48-56 | the service refuses exactly where the usage check reports 0 remaining (both quotas) |
| WorkspaceScenarios.FreeTierSecondWorkspaceRefused | workspace_service.go:48-56 | on the free tier the first creation succeeds; the second is refused and leaves one workspace, one role and one membership |
| WorkspaceScenarios.TwoMemberQuota | workspace_service.go:116-124 | with `MaxMembers` 2, two additions succeed, the third is refused, and two memberships remain |
| PlanUsage.StatusOf | plan_usage.go:19-30 | `limit <= 0`: remaining -1; otherwise remaining is never negative, is exact while under the limit, and is 0 iff usage has reached the limit |
| PlanUsage.RemainingNeverNegative | plan_usage.go:21-24 | remaining is at least -1, and -1 exactly for an unlimited quota |
| PlanUsage.CheckWorkspaceLimit | plan_usage.go:13-31 | `used` is the number of the user's memberships, and the status is `StatusOf(MaxWorkspaces, used)`; nothing is written |
| PlanUsage.CheckMemberLimit | plan_usage.go:34-52 | the same over the workspace's memberships and `MaxMembers` |
| WorkspaceMiddleware.Resolve | workspace_middleware.go:16-77 | proceeds iff each of the workspace, user, membership and role steps succeeds. Status 404 iff `wsID` is empty or the workspace is absent; 500 iff a workspace, membership or role lookup fails or the role is absent, each with its own message ("workspace lookup error", "membership lookup error", "role lookup error", "role not found"); 401 iff the workspace exists and the user ID is empty; 403 iff the user has no membership. On success the context holds the looked-up records and the role's capabilities |
| WorkspaceMiddleware.RequireCapability | workspace_middleware.go:81-92 | the request goes on iff a context is present and grants `required`; otherwise 403 "forbidden" |
| WorkspaceMiddleware.InMemoryResolve | workspace_middleware.go:25-64 | over in-memory stores: 404 exactly for an unknown workspace, 403 exactly for a non-member (not 404), no lookup-error 500s; the context holds stored records matching user and workspace |
| WorkspaceMiddleware.OwnerPassesEveryGate | workspace_middleware.go:46-92 | after provisioning, the owner passes the gate with the owner role and then every `RequireCapability` |
| DashboardPlans.LimitsForTier | cmd/dashboard/internal/plans.go:51-56 | a known tier gets its table entry, every other tier the free limits; only enterprise allows self-hosting and is unlimited |
| DashboardPlans.TierQuotas | cmd/dashboard/internal/plans.go:22-47 | the whole table. Free: 1 workspace, 5 members, 1 GiB, 100 tokens, no self-hosting, the default region only. Pro: 5, 25, 10 GiB, 1000 tokens, no self-hosting, three regions. Enterprise: every quota 0 (unlimited), self-hosting allowed, no region list |
| MembershipMemory.Store.constructor | providers/membership/memory/memory.go:19-21 | a new store is empty |
| MembershipMemory.Store.Create | providers/membership/memory/memory.go:23-32 | a duplicate ID fails and changes nothing; otherwise exactly that membership is added |
| MembershipMemory.Store.Get | providers/membership/memory/memory.go:34-43 | a missing ID yields None (not an error); otherwise the stored record |
| MembershipMemory.Store.GetByUserAndWorkspace | providers/membership/memory/memory.go:45-55 | a stored membership matching user and workspace, or None iff there is none |
| MembershipMemory.Store.ListByWorkspace | providers/membership/memory/memory.go:57-68 | exactly the workspace's memberships, each once |
| MembershipMemory.Store.ListByUser | providers/membership/memory/memory.go:70-81 | exactly the user's memberships, each once |
| MembershipMemory.Store.Delete | providers/membership/memory/memory.go:83-89 | removes that ID only; a missing ID is a successful no-op |
| RoleMemory.Store.constructor | providers/role/memory/memory.go:19-21 | a new store is empty |
| RoleMemory.Store.Create | providers/role/memory/memory.go:23-32 | a duplicate ID fails and changes nothing; otherwise the role is added |
| RoleMemory.Store.Get | providers/role/memory/memory.go:34-43 | a missing ID yields None; otherwise the stored record |
| RoleMemory.Store.GetByNameAndWorkspace | providers/role/memory/memory.go:45-55 | a stored role matching name and workspace, or None iff there is none |
| RoleMemory.Store.ListByWorkspace | providers/role/memory/memory.go:57-68 | exactly the workspace's roles, each once |
| RoleMemory.Store.Update | providers/role/memory/memory.go:70-79 | a missing ID fails and changes nothing; otherwise only that entry is replaced |
| RoleMemory.Store.Delete | providers/role/memory/memory.go:81-91 | a system role is refused and stays; any other or absent ID succeeds and is then absent |
| WorkspaceMemory.Store.constructor | providers/workspace/memory/memory.go:19-21 | a new store is empty |
| WorkspaceMemory.Store.Create | providers/workspace/memory/memory.go:23-32 | a duplicate ID fails and changes nothing; otherwise the workspace is added |
| WorkspaceMemory.Store.Get | providers/workspace/memory/memory.go:34-43 | a missing ID yields None; otherwise the stored record |
| WorkspaceMemory.Store.List | providers/workspace/memory/memory.go:45-54 | every stored workspace exactly once; as many as the map holds |
| WorkspaceMemory.Store.Update | providers/workspace/memory/memory.go:56-65 | a missing ID fails and changes nothing; otherwise only that entry is replaced |
| WorkspaceMemory.Store.Delete | providers/workspace/memory/memory.go:67-73 | removes that ID only; a missing ID is a no-op |
| ProviderMemory.Store.constructor | providers/provider/memory/memory.go:19-21 | a new store is empty |
| ProviderMemory.Store.Create | providers/provider/memory/memory.go:23-32 | a duplicate ID fails and changes nothing; otherwise the provider is added |
| ProviderMemory.Store.Get | providers/provider/memory/memory.go:34-43 | a missing ID yields None; otherwise the stored record |
| ProviderMemory.Store.List | providers/provider/memory/memory.go:45-54 | every stored provider exactly once |
| ProviderMemory.Store.ListByType | providers/provider/memory/memory.go:56-67 | exactly the providers of that type, each once |
| ProviderMemory.Store.ListByOwner | providers/provider/memory/memory.go:69-80 | exactly the providers of that owner, each once |
| ProviderMemory.Store.Update | providers/provider/memory/memory.go:82-91 | a missing ID fails; otherwise `Get` then returns the new value |
| ProviderMemory.Store.Delete | providers/provider/memory/memory.go:93-99 | afterwards `Get` of that ID is None and nothing else changed |
| RegionMemory.Store.constructor | providers/region/memory/memory.go:19-21 | a new store is empty |
| RegionMemory.Store.Create | providers/region/memory/memory.go:23-32 | a duplicate ID fails and changes nothing; otherwise the region is added |
| RegionMemory.Store.Get | providers/region/memory/memory.go:34-43 | a missing ID yields None; otherwise the stored record |
| RegionMemory.Store.ListByProvider | providers/region/memory/memory.go:45-56 | exactly the provider's regions, each once (none for an unknown provider) |
| RegionMemory.Store.Delete | providers/region/memory/memory.go:58-64 | afterwards `Get` of that ID is None and other regions are untouched |
| SubscriptionMemory.Store.constructor | providers/subscription/memory/memory.go:19-21 | a new store is empty |
| SubscriptionMemory.Store.Create | providers/subscription/memory/memory.go:23-32 | a duplicate ID fails and changes nothing; otherwise the subscription is added |
| SubscriptionMemory.Store.Get | providers/subscription/memory/memory.go:34-43 | a missing ID yields None; otherwise the stored record |
| SubscriptionMemory.Store.GetByWorkspace | providers/subscription/memory/memory.go:45-55 | a stored subscription of that workspace, or None iff there is none |
| SubscriptionMemory.Store.Update | providers/subscription/memory/memory.go:57-66 | a missing ID fails and changes nothing; otherwise that entry is replaced |
| SubscriptionMemory.Store.Delete | providers/subscription/memory/memory.go:68-74 | removes that ID only; a missing ID is a no-op |
| SessionMemory.SessionKey | providers/session/memory/memory.go:27-29 | the slot is the session ID, one ':' and the key, and both parts can be read back from it |
| SessionMemory.SlotsCollide | providers/session/memory/memory.go:27-29 | the joined slot of ("a", "b:c") is the slot of ("a:b", "c") |
| SessionMemory.SlotHasSessionPrefix | providers/session/memory/memory.go:27-53 | every slot of a session starts with the prefix `Delete` sweeps |
| SessionMemory.Store.constructor | providers/session/memory/memory.go:18-22 | a new store is empty |
| SessionMemory.Store.Get | providers/session/memory/memory.go:31-39 | an unset slot reads as ""; otherwise the stored value |
| SessionMemory.Store.Set | providers/session/memory/memory.go:41-46 | only that slot changes, and `Get` then returns the value |
| SessionMemory.Store.Delete | providers/session/memory/memory.go:48-58 | exactly the slots starting with `sessionID + ":"` are removed; every key of the session then reads "" |
| SessionMemory.DeleteReachesNestedSession | providers/session/memory/memory.go:48-58 | slots of session "a:b" carry the prefix that `Delete("a")` sweeps |
| DashboardSession.MemSessionProvider.constructor | cmd/dashboard/internal/session/mem_session_provider.go:15-19 | a new provider is empty |
| DashboardSession.MemSessionProvider.Create | cmd/dashboard/internal/session/mem_session_provider.go:21-32 | a failed ID generation changes nothing; otherwise the data is stored under the new ID and `Get` of it returns it |
| DashboardSession.MemSessionProvider.Get | cmd/dashboard/internal/session/mem_session_provider.go:34-43 | a missing ID yields None; otherwise the stored session |
| DashboardSession.MemSessionProvider.Update | cmd/dashboard/internal/session/mem_session_provider.go:45-54 | a missing ID fails and changes nothing; otherwise only that entry is replaced |
| DashboardSession.MemSessionProvider.Delete | cmd/dashboard/internal/session/mem_session_provider.go:56-62 | removes that ID only |
| DashboardSession.MemSessionProvider.DeleteByEmail | cmd/dashboard/internal/session/mem_session_provider.go:64-76 | exactly the sessions with that email are removed, and the count is how many there were |
| DashboardSession.MemSessionProvider.ListAll | cmd/dashboard/internal/session/mem_session_provider.go:78-87 | the copy equals the current contents |
| FileUploadStore.FirstIndex | ui/fileupload/store.go:37-42 | the position of the first file with that ID, or None iff no file has it |
| FileUploadStore.RemoveFirst | ui/fileupload/store.go:33-43 | an absent ID leaves the list as it is; otherwise the first file with that ID is cut out, the files before it (none of which has the ID) keep their places and the files after it move up by one |
| FileUploadStore.RemoveFirstRemovesOne | ui/fileupload/store.go:33-43 | removal takes out exactly one occurrence of a present ID and keeps the rest; an absent ID changes nothing |
| FileUploadStore.AddThenRemove | ui/fileupload/store.go:26-43 | appending a file with a fresh ID and removing that ID restores the list |
| FileUploadStore.Store.constructor | ui/fileupload/store.go:21-23 | a new store holds nothing |
| FileUploadStore.Store.List | ui/fileupload/store.go:46-52 | an unknown key lists nothing; otherwise the key's list |
| FileUploadStore.Store.Add | ui/fileupload/store.go:26-30 | the file goes at the end of the key's list; other keys are unchanged |
| FileUploadStore.Store.Remove | ui/fileupload/store.go:33-43 | only the first file with that ID leaves, order kept; an absent ID leaves the store unchanged |
| FileUploadStore.Store.Clear | ui/fileupload/store.go:55-59 | the key then lists nothing; other keys are unchanged |
| FileUploadHandler.Apply | ui/fileupload/handler.go:22-36 | each option sets its own field and leaves the other two unchanged |
| FileUploadHandler.ApplyAll | ui/fileupload/handler.go:49-55 | the options applied in order, starting from `DefaultConfig` (10 MiB, every type, 10 files); each field is its starting value or the value of some option of its kind |
| FileUploadHandler.ApplyAllSplit | ui/fileupload/handler.go:53-55 | applying `front + back` is applying `front`, then `back` |
| FileUploadHandler.UnnamedFieldsKept | ui/fileupload/handler.go:22-55 | a field no option names keeps its starting value, for each of the three fields |
| FileUploadHandler.AtLastOption | ui/fileupload/handler.go:22-55 | an option with no later option of its kind decides its field |
| FileUploadHandler.LastOptionWins | ui/fileupload/handler.go:22-55 | for `maxFileSize`, `allowedTypes` and `maxFiles` alike: unchanged when no option of that kind appears, otherwise the value of the last such option |
| FileUploadHandler.StoreKey | ui/fileupload/handler.go:38-40 | the key is the session ID, one ':' and the component ID |
| FileUploadHandler.TypeAllowed | ui/fileupload/handler.go:92-105 | the type check's meaning: an empty list, an entry "" or an exact match admits a type; an empty content type is admitted only by an empty list or an entry "" |
| FileUploadHandler.CheckType | ui/fileupload/handler.go:92-105 | the prefix loop admits a content type iff the list is empty or some prefix matches |
| FileUploadHandler.Process | ui/fileupload/handler.go:78-115 | the validation scan from part `i`: at most one kept file or refusal per remaining part, and nothing at all exactly when no part remains |
| FileUploadHandler.AcceptedWithinLimits | ui/fileupload/handler.go:78-115 | kept files never push the count past `max(initial, maxFiles)`, and each is within the size limit and of an admitted type |
| FileUploadHandler.TooManyIsLast | ui/fileupload/handler.go:80-83 | the "maximum of N files allowed" refusal appears at most once, as the last refusal, naming `maxFiles` |
| FileUploadHandler.EverythingFitsIsKept | ui/fileupload/handler.go:78-115 | parts that all fit in number, size and type are all kept, in order, under their minted IDs, with no refusal |
| FileUploadHandler.KeptIdsMinted | ui/fileupload/handler.go:107-113 | every kept file carries the ID minted for one of the scanned parts, with that part's name, size and type |
| FileUploadHandler.Admitted | ui/fileupload/handler.go:86-105 | the parts passing the size and type checks, in order, under their minted IDs: at most one per part |
| FileUploadHandler.KeptAreFirstAdmitted | ui/fileupload/handler.go:78-115 | the kept files are exactly the admitted parts in order, cut to the room left under the key (`maxFiles` minus what it holds, at least 0); a too-large or refused part is skipped and the scan goes on |
| FileUploadHandler.FullStep | ui/fileupload/handler.go:80-83 | at a full key the scan stops with one "maximum" refusal after what was kept so far |
| FileUploadHandler.RefuseStep | ui/fileupload/handler.go:86-105 | a too-large or refused part adds one refusal and the scan goes on with the next part |
| FileUploadHandler.KeepStep | ui/fileupload/handler.go:107-114 | an admitted part becomes the next kept file under its minted ID, and the key holds one more file |
| FileUploadHandler.AddKept | ui/fileupload/handler.go:107-114 | the kept file is appended to the running list and the store's list under the key becomes that list; other keys are untouched |
| FileUploadHandler.ErrorsHtml | ui/fileupload/handler.go:126-138 | the errors patch is empty exactly when there is no refusal |
| FileUploadHandler.MessagesOf | ui/fileupload/handler.go:78-128 | one message per refusal, in order |
| FileUploadHandler.ProcessUploads | ui/fileupload/handler.go:74-115 | the loop leaves the running list and the store equal to `Process`'s kept files, and reports `Process`'s refusals |
| FileUploadHandler.UploadHandler | ui/fileupload/handler.go:48-140 | a missing `id` or a form that fails to parse is a 400 that touches nothing; otherwise the reply lists the key's files after the kept ones are added, other keys unchanged |
| FileUploadHandler.RemoveHandler | ui/fileupload/handler.go:148-171 | a missing `id` or `fileId` is a 400 that touches nothing; otherwise the first matching file leaves and the reply lists what remains |
| Strings.IntToStringRoundTrip | ui/fileupload/handler.go:81 | the decimal text of the "maximum of %d" message reads back as the number |
| Ds.ParameterizedKeyShape | ds/ds.go:15-57 | a `data-<plugin>:<name>` key starts with "data-", has a colon after it, and the plugin is the text before that colon |
| Ds.On | ds/ds.go:15-17 | exactly one entry, `data-on:<event>`, holding the expression |
| Ds.OnClick | ds/ds.go:20-22 | is `On("click", expr)`: the single entry `data-on:click` |
| Ds.Bind | ds/ds.go:25-27 | exactly one entry, `data-bind:<signal>`, holding "" |
| Ds.ClassToggle | ds/ds.go:30-32 | exactly one entry, `data-class:<name>`, holding the expression |
| Ds.Attr | ds/ds.go:35-37 | exactly one entry, `data-attr:<name>`, holding the expression |
| Ds.Style | ds/ds.go:40-42 | exactly one entry, `data-style:<prop>`, holding the expression |
| Ds.Computed | ds/ds.go:45-47 | exactly one entry, `data-computed:<name>`, holding the expression |
| Ds.Indicator | ds/ds.go:50-52 | exactly one entry, `data-indicator:<name>`, holding "" |
| Ds.Ref | ds/ds.go:55-57 | exactly one entry, `data-ref:<name>`, holding "" |
| Ds.Signals | ds/ds.go:62-64 | exactly one entry, `data-signals`, holding the argument |
| Ds.Show | ds/ds.go:67-69 | exactly one entry, `data-show`, holding the argument |
| Ds.Text | ds/ds.go:72-74 | exactly one entry, `data-text`, holding the argument |
| Ds.Class | ds/ds.go:77-79 | exactly one entry, `data-class`, holding the argument |
| Ds.Init | ds/ds.go:82-84 | exactly one entry, `data-init`, holding the argument |
| Ds.Effect | ds/ds.go:87-89 | exactly one entry, `data-effect`, holding the argument |
| Ds.ParameterizedHelpersAreColonSeparated | ds/ds.go:15-57 | no parameterised helper produces a key without the colon separator |
| Ds.StandaloneNames | ds/ds.go:61-89 | every key a standalone helper writes starts with `data-` and has no colon |
| Ds.StandaloneHelpers | ds/ds.go:61-89 | each standalone helper maps one colon-free `data-` key to its argument |
| Ds.MergeAll | ds/ds.go:95-103 | the last argument's entries all survive, with the last argument's values |
| Ds.MergeKeys | ds/ds.go:95-103 | the merged keys are the union of the arguments' keys |
| Ds.MergeLastWins | ds/ds.go:97-101 | a key keeps the value of the last argument that has it |
| Ds.MergeEmptyAndSingle | ds/ds.go:95-103 | `Merge()` is empty and `Merge(a)` is `a` |
| Ds.Merge | ds/ds.go:95-103 | the nested loop yields the in-order fold, whatever order each map is visited in |
| UtilsExpressions.BuildConditional | utils/expressions.go:50-55 | `c ? t : f`, with "null" for an empty false branch |
| UtilsExpressions.Assignment | utils/expressions.go:29-31 | the statement starts with '$' and the signal name |
| UtilsExpressions.Expression.constructor | utils/expressions.go:14-18 | a new builder holds no statement |
| UtilsExpressions.Expression.Statement | utils/expressions.go:21-26 | an empty statement changes nothing; otherwise it goes at the end, the built text gains "; " and it, and the same builder is returned |
| UtilsExpressions.Expression.SetSignal | utils/expressions.go:29-31 | appends `$signal = value` |
| UtilsExpressions.Expression.Conditional | utils/expressions.go:34-39 | appends the same ternary `BuildConditional` writes |
| UtilsExpressions.Expression.Build | utils/expressions.go:42-47 | "" for no statements; a single statement is returned as is; otherwise the statements joined by "; " |
| UtilsDataClass.Properties | utils/data_class.go:37-39 | one `'class': condition` part per entry, in order |
| UtilsDataClass.ObjectText | utils/data_class.go:31-42 | "{}" without entries; always braced |
| UtilsDataClass.ObjectTextAppend | utils/data_class.go:25-42 | one more `Add` inserts ", " and its part before the closing brace |
| UtilsDataClass.DataClass.constructor | utils/data_class.go:20-22 | a new builder has no entries |
| UtilsDataClass.DataClass.Add | utils/data_class.go:25-28 | one entry at the end, duplicates kept, same builder returned |
| UtilsDataClass.DataClass.Build | utils/data_class.go:31-42 | the slice-filling loop yields the object text and leaves the entries unchanged |
| UtilsSignals.Sanitize | utils/signals.go:22 | same length, every '-' becomes '_', everything else kept, no '-' left |
| UtilsSignals.SanitizeIdempotent | utils/signals.go:22 | sanitising twice is sanitising once |
| UtilsSignals.SanitizeFixpoint | utils/signals.go:22 | an ID is unchanged iff it has no '-' |
| UtilsSignals.Signals | utils/signals.go:21-38 | the manager's ID is the sanitised ID and has no '-' |
| UtilsSignals.Signal | utils/signals.go:41-43 | the reference is '$', the ID, '.', the property |
| UtilsSignals.Toggle | utils/signals.go:46-49 | the reference, " = !", then the reference again |
| UtilsSignals.Set | utils/signals.go:52-54 | the reference, " = ", then the value as written |
| UtilsSignals.SetString | utils/signals.go:57-59 | the reference, " = ", then the value between single quotes |
| UtilsSignals.Equals | utils/signals.go:62-64 | the reference, " === ", then the value between single quotes |
| UtilsSignals.NotEquals | utils/signals.go:67-69 | the reference, " !== ", then the value between single quotes |
| UtilsSignals.Conditional | utils/signals.go:72-74 | the reference, " ? ", the true branch, " : ", the false branch, each at its offset |
| UtilsSignals.ConditionalAction | utils/signals.go:77-79 | the condition, " ? (", exactly `Set`'s expression, then ") : void 0" |
| UtilsSignals.ExpressionsReferenceSignal | utils/signals.go:46-79 | every expression helper names `$<sanitised id>.` at the start of its signal reference (`ConditionalAction` just inside its parentheses), and that namespace has no '-' |
| Layouts.DefaultLogoUrl | layouts/branding.go:16-21 | the configured logo, or "/assets/logo.png"; never empty |
| Layouts.DefaultHref | layouts/branding.go:24-29 | the configured link, or "/"; never empty |
| Layouts.DefaultName | layouts/branding.go:32-37 | the configured name, or "App"; never empty |
| Layouts.DefaultsSettle | layouts/branding.go:16-37 | a branding filled with the defaults has nothing left to default |

## Left out

- The mutexes and all concurrency. Each store operation is one atomic step, so the check-then-act quota race of `CreateWorkspace` and `AddMember` is not modelled.
- Error values are a `StoreError`/`ServiceError` datatype. Their message text and `%q` quoting are not modelled.
- `CreatedAt` and `time.Now()`.
- The `List*` error branches of `CreateWorkspace`, `AddMember` and the usage checks. The modelled stores are in-memory, and their list operations never fail.
- `WorkspaceMiddleware`'s plumbing is not modelled: chi's URL parameter, the request context, `next.ServeHTTP` and the response writer. `Resolve` gets the extracted values and answers the outcome.
- `UploadHandler`: the multipart parsing is an input. The SSE patching is not modelled, and neither is the early return on an SSE write error. The `fileListItems` template and the `removeUrl` parameter are not modelled; the reply carries the file list the template would render.
- `UtilsSignals.Signals` does not model the `Signals` field or the JSON in `DataSignals`, because the model has no JSON encoder.
- `templ.Attributes` values other than strings.
- `randomID`, `idgen.Generate` and `utils.RandomID` are replaced by the IDs they would return. Their uniqueness is not assumed, and what a clash does depends on the generator. An `idgen.Generate` ID in `CreateWorkspace` or `AddMember` takes the store's duplicate-ID path. A `randomID` in `MemSessionProvider.Create` overwrites the session already stored under it. A `utils.RandomID` in the upload handler leaves two files with one ID, since the file store does not check for duplicates, and `RemoveHandler` then removes only the first of them.
- Go's `int`/`int64` widths. No arithmetic here comes near overflow, so the model uses unbounded integers.
- The records of workspace.go and plan.go become the `Webx` datatypes, without `CreatedAt`. The `Plan` record is not used by the core and is not modelled.
