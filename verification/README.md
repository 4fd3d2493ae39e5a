# Fleet networking: a verified model

This project models the hub side of fleet networking, and the member-side controller that feeds it,
in Dafny 4.11. It follows the Go controllers call by call.

`dafny verify dfyconfig.toml` checks everything.

## What is modelled

**Resolving exports.** Member clusters export a Service; the hub keeps one InternalServiceExport per
cluster and one ServiceImport per Service. Two controllers share the ServiceImport: one resolves its
ports and clusters when it lists none, the other adds clusters to it and removes them.
`ImportStatus` holds the two status edits and the resolution loop; `ExportMachine` is the state machine
in which every API call is one step, any call may fail or be carried out without an answer, updates
compare versions, and the controllers and their environment interleave freely. `ExportSafety` has the
invariant, `ExportHistory` what follows for whole runs, `ExportVanish` the one way a listing
ServiceImport is lost. `ExportRounds` shows that an undisturbed reconcile amounts to one function of the
state, `ExportEffects` what it leaves behind, `ExportReconciler` has the two reconcile functions on objects
edited in place, with writes that may fail, `ExportConvergence` shows that reconciling settles, and
`ExportRest` that it does so from the middle of reconciles too.

**Claiming a Service.** `ImportClaim` is the race of member clusters for the ServiceInUseBy annotation,
with reads of the ServiceImport that may return anything it ever was. `ImportClaimRuns` adds what depends
on what is read, and on which reads exactly. `ImportClaimEffects` is the effect of an undisturbed reconcile
in every state it may find.

**Distributing EndpointSlices.** `SliceDistribution` is the state machine, `SliceEffects` the effect of an
undisturbed reconcile for each thing the ServiceImport may tell, `SliceReconciler` the scan, the loops and
the reconcile as they are written.

**Traffic Manager.** `Weights` is the proportional allocation and its float64 computation;
`DesiredEndpoints` builds the desired endpoints on the heap, where the weights are shared integers;
`EndpointSync` is the loop against Azure, with every kind of failure it tells apart.
`TrafficMachine`, `TrafficLifetimes`, `TrafficEndpoints` and `TrafficRestore` are about the two Traffic
Manager controllers together, `TrafficRounds` about undisturbed reconciles of either. `ProfileHeaders`, `ProfileMerge` and `ProfileReconciler` are the profile
comparison and the request that is built from the current profile.

**Names.** `DnsNames` is the grammar of section 2.1 of RFC 1123 and section 2.3.1 of RFC 1035 as
Kubernetes checks it, `UniqueNames` the formatted names and their fallback.

**The member cluster.** `MemberWeight` is the weight annotation, `MemberExport` the ServiceExport
controller, `MemberRounds` the effect of an undisturbed reconcile.

Calls to the API server and to Azure are nondeterministic; UUIDs and random characters are parameters or
arbitrary choices. In a state machine an event that cannot happen in a state leaves it as it is. Each
controller runs one reconcile per object at a time. Reads are current unless said otherwise.

## What the proofs show about the code

- A ServiceImport that lists clusters can disappear. The resolver does not look at the deletion mark: it
  fills a marked ServiceImport that an importing cluster still holds, and when that cluster lets go, the
  object is gone together with its listing (`ExportVanish.ListingImportCanVanish`).
  `ExportHistory.ListingImportVanishesIff` says that this is the only way.
- With stale reads the claim can outlive the request of the claimant
  (`ImportClaimRuns.StaleReadStrandsTheClaim`). Which reads do harm is exact: those that make a claimant
  give up its request without withdrawing, because they show no ServiceImport, or one without its claim that
  is marked, or one without its claim that lists clusters while the request is marked or somebody else has
  the claim, and only if the request has not changed since it was read. `ImportClaimRuns.ReadIsSafeIff` says
  for one read that it is none of these if and only if every claim stays backed whatever follows;
  `ImportClaimRuns.ClaimantIsProtected` says it for runs. A read that shows the claimant its own claim is
  never harmful, however stale it is otherwise. At most one claimant holds in any case.
- A profile write sends back the endpoints the profile had when it was read. If Azure takes these for the
  endpoints of the profile, an endpoint whose backend has cleaned up and gone, or is about to go, comes back.
  `TrafficRestore.EndpointsGuardedIff` says that endpoints keep their backend in all runs if and only if Azure
  ignores them. If it does not, `TrafficRestore.WriteIsSafeIff` gives the exact condition on one write: each
  backend's endpoint in the request has its backend, with the finalizer and referring to this profile, and a
  clean-up of that backend which is under way, and whose last write will go through, still has this endpoint
  before it. A write that meets it keeps everything guarded whatever follows; one that does not has a
  continuation, made of that clean-up alone, that leaves an endpoint without its backend
  (`TrafficRestore.HarmfulRunGoesWrong`).
- The clean-up of a backend's endpoints compares names as Azure spells them, the update loop in lower
  case. `EndpointSync.Azure` leaves the spelling to Azure, and `EndpointSync.Cleanup` says when nothing of
  the backend is left: exactly if each of its endpoints is spelled with the prefix as written
  (`EndpointSync.SpellingMatters` is a case where it is not).
- A subdomain name can fail to format: exactly when a part is cut just after a dot, for some name in every
  namespace (`UniqueNames.FleetSubdomainCanFail`). The comment beside the
  fallback in pkg/controllers/member/endpointslice/controller.go:398-399 expects that not to happen.
- The comment in pkg/controllers/hub/internalserviceimport/controller.go:237-246, that the branch should
  not run, is right: `ImportClaim.SoleClaim`.
- pkg/controllers/hub/internalserviceimport/controller.go:340-351 compares a struct with a pointer, so it
  never finds the status unchanged; the model writes the status every time, as the code does.

## Model

| member | source | states |
|---|---|---|
| ImportStatus.ServiceImportObject.RemoveCluster | pkg/controllers/hub/internalserviceexport/controller.go:123-135 | the list edited in place is the list without the cluster, in order, and the ports go with the last cluster |
| ImportStatus.ServiceImportObject.AddCluster | pkg/controllers/hub/internalserviceexport/controller.go:137-144 | the cluster is appended once, and not if it is there |
| ImportStatus.RemovedKeepsShape | pkg/controllers/hub/internalserviceexport/controller.go:123-135 | removing keeps the list free of duplicates and the ports empty exactly when it is empty; the cluster is gone, all others stay |
| ImportStatus.AddedKeepsShape | pkg/controllers/hub/internalserviceexport/controller.go:137-144 | adding to a resolved status keeps that shape; the cluster comes last unless it is there already |
| ImportStatus.AddThenRemove | pkg/controllers/hub/internalserviceexport/controller.go:123-144 | removing a cluster undoes adding it |
| ImportStatus.WithoutInOrder | pkg/controllers/hub/internalserviceexport/controller.go:123-135 | removing takes the cluster out of its place and keeps the order of the others |
| ImportStatus.VerdictIsRecorded | pkg/controllers/hub/internalserviceexport/controller.go:170-189 | a verdict is recorded for the generation it was made on, and nothing else of the export changes |
| ImportStatus.Resolve | pkg/controllers/hub/serviceimport/controller.go:101-124 | the loop picks the ports of the first eligible export and files exactly the eligible exports under no conflict and conflict, in order; somebody is chosen whenever anybody is eligible |
| ExportSafety.NextKeepsInv | pkg/controllers/hub/internalserviceexport/controller.go:86-248 | every step of either controller, of members and of importing clusters keeps the safety invariant |
| ExportSafety.EveryRunIsSafe | pkg/controllers/hub/serviceimport/controller.go:60-208 | the invariant holds in every state of every run |
| ExportHistory.ListedClustersNeverDangle | pkg/controllers/hub/internalserviceexport/controller.go:86-121 | in every reachable state each listed cluster has an export that exists and carries its finalizer, ports are resolved exactly when clusters are listed, and no cluster is listed twice |
| ExportHistory.PortsAreStable | pkg/controllers/hub/internalserviceexport/controller.go:216-247 | ports never change between consecutive states that both list clusters |
| ExportHistory.ListedClustersWereAdmitted | pkg/controllers/hub/serviceimport/controller.go:101-171 | every listed cluster had, at some point of the run, an eligible export with exactly the listed ports |
| ExportHistory.DeleteCallsFindNothingListed | pkg/controllers/hub/serviceimport/controller.go:126-133 | when the hub is about to delete a ServiceImport, it lists nothing |
| ExportHistory.ListingImportVanishesIff | pkg/controllers/hub/serviceimport/controller.go:198-208 | a listing ServiceImport disappears if and only if the last finalizer is taken off one that was marked before |
| ExportVanish.ListingImportCanVanish | pkg/controllers/hub/serviceimport/controller.go:60-174 | there is a run in which that happens |
| ExportRounds.WorkerRoundOutcome | pkg/controllers/hub/internalserviceexport/controller.go:49-84 | an undisturbed reconcile of an export, step by step through the machine, has the effect of the straightforward function WorkerOutcome, which ExportEffects.UpdateEffect and ExportEffects.DeleteEffect describe |
| ExportRounds.ResolverRoundOutcome | pkg/controllers/hub/serviceimport/controller.go:60-174 | an undisturbed reconcile of the ServiceImport has the effect of ResolverOutcome: all verdicts, then the status |
| ExportRounds.SettledEffect | pkg/controllers/hub/serviceimport/controller.go:135-171 | after it every chosen export is listed and without conflict, every rival has the conflict, and nothing else has changed |
| ExportEffects.UpdateEffect | pkg/controllers/hub/internalserviceexport/controller.go:49-84 | after an undisturbed reconcile of an export that is not being deleted, the export is protected; with resolved ports it is listed exactly if its ports are these, without conflict exactly then, and appended or taken out in place, which resets a ServiceImport that lists nobody else; other exports, other listed clusters and their order stay; without a ServiceImport there is an empty one |
| ExportEffects.DeleteEffect | pkg/controllers/hub/internalserviceexport/controller.go:86-121 | after an undisturbed reconcile of a deleted export its cluster is not listed, the others are in their order, and the export is gone, unless the ports are still to be resolved, when it waits |
| ExportEffects.PurgeEffect | pkg/controllers/hub/serviceimport/controller.go:126-133 | without an eligible export the ServiceImport is deleted, or marked if an importing cluster holds it, and no export changes |
| ExportEffects.FirstDecides | pkg/controllers/hub/serviceimport/controller.go:101-124 | the ports chosen are those of the first eligible export in the listing |
| ExportEffects.ResolveEffect | pkg/controllers/hub/serviceimport/controller.go:101-171 | after a resolution the ServiceImport lists exactly the eligible exports with the ports of the first one; they are without conflict, the other eligible ones have it, and all other exports are as they were |
| ExportRounds.RoundsAreRuns | pkg/controllers/hub/serviceimport/controller.go:176-196 | undisturbed reconciles are runs of the machine, so the invariant holds after them |
| ExportReconciler.Hub.UpdateImportStatus | pkg/controllers/hub/internalserviceexport/controller.go:146-158 | the status is written back exactly if it differs; a failed write has or has not been carried out |
| ExportReconciler.Hub.UpdateExportStatus | pkg/controllers/hub/internalserviceexport/controller.go:170-189 | the Conflict condition is written exactly if it differs; a failed write has or has not been carried out |
| ExportReconciler.Hub.HandleUpdate | pkg/controllers/hub/internalserviceexport/controller.go:191-248 | the update path, on objects edited in place: when it ends well, listed exactly if the ports agree and Conflict accordingly, everything else as it was; the safety invariant wherever it stops |
| ExportReconciler.Hub.HandleDelete | pkg/controllers/hub/internalserviceexport/controller.go:86-121 | the delete path: the cluster leaves the status first, then the finalizer goes, unless the ports are not resolved; the safety invariant wherever it stops |
| ExportReconciler.Hub.ReconcileExport | pkg/controllers/hub/internalserviceexport/controller.go:49-84 | the whole reconcile: when it ends well an export that is not being deleted is protected, listed exactly if its ports are the resolved ones and judged accordingly, and everything else is as it was; for a deleted one the effect of WorkerOutcome; the safety invariant wherever it stops |
| ExportReconciler.Hub.ReconcileImport | pkg/controllers/hub/serviceimport/controller.go:60-174 | the whole reconcile, with its loops, equals ResolverOutcome when it ends well, and keeps the safety invariant wherever it stops |
| ExportConvergence.RoundMakesProgress | pkg/controllers/hub/internalserviceexport/controller.go:191-248 | every reconcile that changes anything lowers a measure |
| ExportConvergence.QuietIff | pkg/controllers/hub/serviceimport/controller.go:101-196 | no reconcile of any object writes if and only if the resolution is complete (listed exactly when the ports are the resolved ones, Conflict True exactly when not listed) or a deletion waits for an importing cluster |
| ExportConvergence.WritesAreBounded | pkg/controllers/hub/internalserviceexport/controller.go:170-248 | under any schedule only boundedly many reconciles write |
| ExportConvergence.SettlesDown | pkg/controllers/hub/serviceimport/controller.go:101-196 | from every calm state that satisfies the invariant reconciling reaches one where nothing writes; with no export being deleted it is completely resolved, for the same exports |
| ExportRest.ComesToRest | pkg/controllers/hub/internalserviceexport/controller.go:49-248 | from every state, in the middle of reconciles too, answering the calls under way leads to a calm one |
| ExportRest.SettlesFromAnywhere | pkg/controllers/hub/serviceimport/controller.go:60-208 | so from the end of every run reconciling reaches a state where nothing writes, completely resolved for the same exports if none is being deleted |
| ImportClaim.AtMostOneClaimant | pkg/controllers/hub/internalserviceimport/controller.go:113-160 | never more than one member cluster holds the claim, and a claimed ServiceImport carries its finalizer |
| ImportClaim.ClaimsAreGivenUpFirst | pkg/controllers/hub/internalserviceimport/controller.go:226-257 | the claim never passes directly from one cluster to another, and a claimed ServiceImport vanishes only in the claimant's own withdrawal of a marked one |
| ImportClaim.SoleClaim | pkg/controllers/hub/internalserviceimport/controller.go:237-257 | giving up a claim never leaves another one to annotate |
| ImportClaim.WithdrawKeepsHistory | pkg/controllers/hub/internalserviceimport/controller.go:226-269 | a withdrawal that finds the version it read leaves no claim, and the contents seen stay sound |
| ImportClaim.ClaimKeepsHistory | pkg/controllers/hub/internalserviceimport/controller.go:312-328 | a claim that finds the version it read makes its cluster the only claimant |
| ImportClaimRuns.ImportedStatusWasClaimed | pkg/controllers/hub/internalserviceimport/controller.go:340-351 | a nonempty imported status belongs to a cluster that held the claim earlier in the run, however stale the reads |
| ImportClaimRuns.ClaimantIsProtected | pkg/controllers/hub/internalserviceimport/controller.go:78-170 | in every run without a harmful read, stale reads included, the claimant's request exists with its finalizer |
| ImportClaimRuns.ReadIsSafeIff | pkg/controllers/hub/internalserviceimport/controller.go:78-160 | a read is not harmful if and only if every claim stays backed by a protected request whatever follows it without harmful reads |
| ImportClaimRuns.OwnClaimIsHarmless | pkg/controllers/hub/internalserviceimport/controller.go:113-135 | a read that shows the claimant its own claim is not harmful, so a current one never is |
| ImportClaimRuns.StaleReadStrandsTheClaim | pkg/controllers/hub/internalserviceimport/controller.go:78-112 | with stale reads there is a run that leaves a claim without its request |
| ImportClaimRuns.ClaimRoundEffect | pkg/controllers/hub/internalserviceimport/controller.go:113-170 | an undisturbed reconcile of a request for a free Service claims it, protects both objects and copies the status |
| ImportClaimRuns.WithdrawUndoesClaim | pkg/controllers/hub/internalserviceimport/controller.go:226-309 | withdrawing after claiming restores the ServiceImport but for its version, and touches no other request |
| ImportClaimEffects.NothingToImport | pkg/controllers/hub/internalserviceimport/controller.go:78-87 | without a ServiceImport an undisturbed reconcile leaves the request with an empty status and no finalizer, or gone if it was to go, and everything else as it was |
| ImportClaimEffects.UnresolvedWaits | pkg/controllers/hub/internalserviceimport/controller.go:92-98 | while the ServiceImport lists no cluster nothing changes |
| ImportClaimEffects.DeletionWithdraws | pkg/controllers/hub/internalserviceimport/controller.go:100-112 | when the request or the ServiceImport is being deleted, the claim is taken off and the other claims stay; the protection goes with the last claim, and so does a ServiceImport that waited for it; the request is let go |
| ImportClaimEffects.ClaimDecides | pkg/controllers/hub/internalserviceimport/controller.go:114-170 | a claimant gets the status of the ServiceImport again; a request that comes second loses finalizer and status and changes no claim; a free Service is claimed |
| ImportClaimEffects.ImportsIffClaims | pkg/controllers/hub/internalserviceimport/controller.go:113-170 | after a reconcile of a request for a resolved Service somebody holds the claim, and the request imports the Service if that is its cluster and nothing otherwise |
| SliceDistribution.CopiesHaveTheirExport | pkg/controllers/hub/endpointsliceexport/controller.go:94-243 | in every run a copy that is not being deleted has its export, with the finalizer |
| SliceEffects.DeletedRound | pkg/controllers/hub/endpointsliceexport/controller.go:94-108 | an undisturbed reconcile of a deleted export makes every copy go and then the export, if it has the finalizer, and does nothing if not |
| SliceEffects.UnclaimedRound | pkg/controllers/hub/endpointsliceexport/controller.go:143-156 | when nobody imports the Service, every copy goes, at once or when its cluster lets go, and the export loses its finalizer |
| SliceEffects.UndecidedRound | pkg/controllers/hub/endpointsliceexport/controller.go:119-168 | without a resolved ServiceImport, or with an annotation that does not parse, nothing changes |
| SliceEffects.InUseRound | pkg/controllers/hub/endpointsliceexport/controller.go:170-246 | when the Service is in use the export is protected, every namespace that asks has a copy of its spec, the one it had if there was one, and every other copy goes |
| SliceReconciler.Match | pkg/controllers/hub/endpointsliceexport/controller.go:363-407 | the first loop files existing copies exactly by whether their namespace asks, and strikes those found out of the map |
| SliceReconciler.Scan | pkg/controllers/hub/endpointsliceexport/controller.go:363-407 | every namespace that asks is served once, what is withdrawn is what exists and is not asked for, and the two are disjoint |
| SliceReconciler.SliceHub.WithdrawAll | pkg/controllers/hub/endpointsliceexport/controller.go:307-339 | every copy goes before the finalizer does, wherever the reconcile stops; then the export is gone if it was to go and unprotected if not |
| SliceReconciler.SliceHub.Distribute | pkg/controllers/hub/endpointsliceexport/controller.go:172-243 | no copy is ever unguarded; without an error every namespace that asks has a copy of the export's spec and every other copy is being deleted; when that is so already nothing is written |
| SliceReconciler.SliceHub.Reconcile | pkg/controllers/hub/endpointsliceexport/controller.go:70-246 | the whole reconcile, with failing calls: no copy is ever unguarded, and when it ends well the effect is the one for what the ServiceImport tells |
| Weights.ShareBounds | pkg/controllers/hub/trafficmanagerbackend/controller.go:578-582 | each share lies between 1 and the backend weight and follows the order of the export weights |
| Weights.AllocationTotal | pkg/controllers/hub/trafficmanagerbackend/controller.go:547-582 | the total is positive, and the shares add up to at least the backend weight and less than one more per endpoint |
| Weights.FloatCeilingIsExact | pkg/controllers/hub/trafficmanagerbackend/controller.go:580-581 | taking the ceiling of a correctly rounded binary64 quotient is exact integer ceiling division, for any divisor that is itself exact; the error bound is asked only of the normal range |
| Weights.FloatShareIsExact | pkg/controllers/hub/trafficmanagerbackend/controller.go:580-581 | the weight computed in float64 is the exact share |
| DesiredEndpoints.NamesTellClustersApart | pkg/controllers/hub/trafficmanagerbackend/controller.go:604-605 | within a backend, endpoint names are injective in the cluster |
| DesiredEndpoints.NameParts | pkg/controllers/hub/trafficmanagerbackend/controller.go:604-605 | prefix, service and cluster can be read back from the name, in this order |
| DesiredEndpoints.FirstReasonWins | pkg/controllers/hub/trafficmanagerbackend/controller.go:588-602 | a service can be an endpoint exactly if it is a load balancer, not an internal one, with a public IP and a DNS label; otherwise the first of these that fails is the reason given |
| DesiredEndpoints.Rejected | pkg/controllers/hub/trafficmanagerbackend/controller.go:588-602 | the rejected clusters are exactly the listed ones whose service cannot be an endpoint, each with its first objection |
| DesiredEndpoints.Generate | pkg/controllers/hub/trafficmanagerbackend/controller.go:604-620 | the endpoint has fresh properties whose weight is the very integer of the export, or a fresh 1 |
| DesiredEndpoints.Collect | pkg/controllers/hub/trafficmanagerbackend/controller.go:543-577 | one desired endpoint per usable cluster, the total is the sum of their weights, invalid services exactly; or nothing as soon as a listed cluster has no export |
| DesiredEndpoints.Rescale | pkg/controllers/hub/trafficmanagerbackend/controller.go:578-582 | every endpoint's weight becomes its exact share through the shared properties, while the weight reported for its cluster stays the export weight |
| DesiredEndpoints.Process | pkg/controllers/hub/trafficmanagerbackend/controller.go:516-585 | the whole computation: Unknown exactly without clusters or with a missing export; otherwise the shares, their total, and the exports' own weights, 1 where none is set, unchanged |
| DesiredEndpoints.SharesFollowWeights | pkg/controllers/hub/trafficmanagerbackend/controller.go:578-582 | for any two listed clusters the shares are in the order of the weights, between 1 and the backend weight |
| EndpointSync.OneOwner | pkg/controllers/hub/trafficmanagerbackend/controller.go:265-267 | an endpoint name has the prefix of at most one backend |
| EndpointSync.GeneratedNamesAreWellNamed | pkg/controllers/hub/trafficmanagerbackend/controller.go:69-95 | generated names carry the backend's prefix and are in lower case when their parts are |
| EndpointSync.DeletingLowers | pkg/controllers/hub/trafficmanagerbackend/controller.go:673-690 | deleting unwanted endpoints lowers the measure by their number and changes no wanted one |
| EndpointSync.WritingLowers | pkg/controllers/hub/trafficmanagerbackend/controller.go:700-728 | writing wanted endpoints that were absent or different lowers the measure by their number |
| EndpointSync.Prune | pkg/controllers/hub/trafficmanagerbackend/controller.go:661-698 | the first loop deletes exactly the backend's unwanted endpoints and strikes off exactly those with the wanted type and target, up to letter case, weight and status; it calls Azure only to delete; that an endpoint is gone already is no failure, any other failure stops it with part of that done |
| EndpointSync.File | pkg/controllers/hub/trafficmanagerbackend/controller.go:705-728 | a write that succeeds is accepted with what Azure stored; an answer from 400 to 499 other than 429 is noted and the loop goes on; any other answer ends it |
| EndpointSync.Put | pkg/controllers/hub/trafficmanagerbackend/controller.go:699-728 | the second loop writes what is left, in any order, with one call for each; it stops only at an answer that is no refusal |
| EndpointSync.Sync | pkg/controllers/hub/trafficmanagerbackend/controller.go:658-731 | each successful write lowers the measure wherever the loop stops, other backends' endpoints are untouched; when it ends well no unwanted endpoint is left, every wanted one is accepted once or in the bad list, and what is accepted is in Azure with the wanted type and target, up to letter case, weight and status, under the resource ID reported; Azure is not called if and only if all that is so already |
| EndpointSync.Cleanup | pkg/controllers/hub/trafficmanagerbackend/controller.go:228-263 | when it succeeds the endpoints spelled with the prefix are gone and nothing else; none of the backend's is left exactly if all were spelled so |
| EndpointSync.SpellingMatters | pkg/controllers/hub/trafficmanagerbackend/controller.go:244-248 | there is an endpoint of a backend that the clean-up does not take for its own |
| TrafficLifetimes.NextKeepsProfileInv | pkg/controllers/hub/trafficmanagerprofile/controller.go:105-243 | every step of either controller keeps the profile invariant |
| TrafficLifetimes.AzureProfilesHaveTheirObject | pkg/controllers/hub/trafficmanagerprofile/controller.go:160-227 | in every run an Azure profile implies its profile object, with the finalizer |
| TrafficEndpoints.NoProfileNoEndpoints | pkg/controllers/hub/trafficmanagerbackend/controller.go:202-212 | when the profile object is gone the backend has no endpoint left, so skipping the clean-up is safe |
| TrafficEndpoints.NextKeepsBackendInv | pkg/controllers/hub/trafficmanagerbackend/controller.go:124-361 | every step but a harmful profile write keeps the backend invariant |
| TrafficEndpoints.AzureEndpointsHaveTheirBackend | pkg/controllers/hub/trafficmanagerbackend/controller.go:165-331 | in every run without a harmful write an Azure endpoint of a backend implies that backend, with the finalizer, and that it sits in the backend's own profile |
| TrafficRestore.EndpointsGuardedIff | pkg/controllers/hub/trafficmanagerprofile/controller.go:207-227 | this holds in all runs if and only if Azure ignores the endpoints a profile write carries |
| TrafficRestore.WriteIsSafeIff | pkg/controllers/hub/trafficmanagerprofile/controller.go:227 | a profile write is not harmful if and only if it keeps the backend invariant, and if and only if every endpoint has its backend after whatever follows without harmful writes |
| TrafficRestore.HarmfulRunGoesWrong | pkg/controllers/hub/trafficmanagerprofile/controller.go:207-227 | every run that comes to a harmful write has a continuation that leaves an endpoint without its backend |
| TrafficRounds.CleanUpClears | pkg/controllers/hub/trafficmanagerbackend/controller.go:298-310 | a backend with weight zero, or whose service is gone, loses all its endpoints in Azure, and nothing else changes there |
| TrafficRounds.DeletionClears | pkg/controllers/hub/trafficmanagerbackend/controller.go:165-263 | deleting a backend takes its endpoints out of Azure and then the backend away |
| TrafficRounds.ProfileDeletionClears | pkg/controllers/hub/trafficmanagerprofile/controller.go:147-187 | deleting a profile takes its Azure profile along |
| TrafficRounds.EqualProfileStays | pkg/controllers/hub/trafficmanagerprofile/controller.go:207-243 | a profile that is in Azure as it should be is only reported on |
| TrafficRounds.ProfileIsWritten | pkg/controllers/hub/trafficmanagerprofile/controller.go:189-243 | any other gets its Azure profile, is protected, and keeps the endpoints it had, whatever Azure makes of those in the request |
| ProfileHeaders.InsertInPlace | pkg/controllers/hub/trafficmanagerprofile/controller.go:310-317 | one turn of the in-place sort is insertion after the headers with the same name |
| ProfileHeaders.SortIsStable | pkg/controllers/hub/trafficmanagerprofile/controller.go:310-317 | sorting keeps the headers of each name in their order |
| ProfileHeaders.SortOrders | pkg/controllers/hub/trafficmanagerprofile/controller.go:310-317 | the result is ordered by name |
| ProfileHeaders.SortPermutes | pkg/controllers/hub/trafficmanagerprofile/controller.go:310-317 | the result is a permutation |
| ProfileHeaders.SameSortedIff | pkg/controllers/hub/trafficmanagerprofile/controller.go:310-320 | the comparison holds if and only if, name by name, both lists have the same headers in the same order |
| ProfileHeaders.SameSortedIffPermuted | pkg/controllers/hub/trafficmanagerprofile/controller.go:310-320 | with distinct names it holds if and only if the lists are permutations of each other |
| ProfileHeaders.HeadersEqual | pkg/controllers/hub/trafficmanagerprofile/controller.go:310-320 | the comparison on two slices, both left sorted, decides exactly that |
| ProfileMerge.MergePassesIff | pkg/controllers/hub/trafficmanagerprofile/controller.go:447-476 | for every current profile the request passes the comparison, if and only if every desired tag has a value |
| ProfileMerge.MergeKeepsUnmanaged | pkg/controllers/hub/trafficmanagerprofile/controller.go:447-476 | the request keeps endpoints, other properties and other tags |
| ProfileMerge.MergeCarriesDesired | pkg/controllers/hub/trafficmanagerprofile/controller.go:447-476 | the request carries the desired status, routing, DNS settings, tags and every monitor field |
| ProfileMerge.EqualIffNothingToChange | pkg/controllers/hub/trafficmanagerprofile/controller.go:248-337 | the comparison holds if and only if the request would change nothing but location, DNS names and the order of headers, and every desired tag has a value |
| ProfileMerge.MergeTwice | pkg/controllers/hub/trafficmanagerprofile/controller.go:447-476 | merging again changes nothing |
| ProfileMerge.GeneratedIsFullIff | pkg/common/defaulter/trafficmanagerprofile.go:16-54 | a generated profile has every field the comparison reads if and only if the timeout is given or the interval has a default for it |
| ProfileMerge.DefaultValues | pkg/common/defaulter/trafficmanagerprofile.go:16-54 | the default of each monitor field; what is given stays, and defaulting again changes nothing |
| ProfileMerge.GeneratedContents | pkg/controllers/hub/trafficmanagerprofile/controller.go:402-444 | a generated profile is global, enabled, routed by weight, with a TTL of 60 and the DNS name and tag of its object |
| ProfileMerge.RequestPasses | pkg/controllers/hub/trafficmanagerprofile/controller.go:402-476 | so a request built for a defaulted profile always passes |
| ProfileMerge.ReorderingIsHarmless | pkg/controllers/hub/trafficmanagerprofile/controller.go:248-320 | that the comparison sorts headers in place changes neither the request nor a later comparison |
| ProfileReconciler.SetDefaults | pkg/common/defaulter/trafficmanagerprofile.go:16-54 | the defaults, filled in in place |
| ProfileReconciler.BuildRequest | pkg/controllers/hub/trafficmanagerprofile/controller.go:447-476 | changing the current profile in place yields the merged document and leaves the desired one alone |
| ProfileReconciler.TagsExist | pkg/controllers/hub/trafficmanagerprofile/controller.go:323-337 | true exactly if every desired tag has a value and the current tags have it too |
| ProfileReconciler.ProfileEqual | pkg/controllers/hub/trafficmanagerprofile/controller.go:248-308 | the comparison on objects decides EqualDoc, which ProfileMerge.EqualIffNothingToChange pins down, and only reorders headers |
| ProfileReconciler.Prepare | pkg/controllers/hub/trafficmanagerprofile/controller.go:207-213 | a write is needed exactly if the request would change more than location, DNS names and header order; what is sent passes the comparison and keeps what is not managed |
| ProfileReconciler.HandleUpdate | pkg/controllers/hub/trafficmanagerprofile/controller.go:189-243 | a profile that passes is not written, one that is written passes, so the next reconcile writes nothing; and nothing is written before the object has its finalizer |
| DnsNames.SubdomainIff | pkg/controllers/member/endpointslice/util.go:37-42 | labels joined by dots, and every dot between two letters or digits, are the same names |
| UniqueNames.RemoveDotsJoins | pkg/common/uniquename/uniquename.go:47-49 | only dots are taken out, and the rest keeps its order |
| UniqueNames.JoinedReadsBack | pkg/common/uniquename/uniquename.go:59-116 | namespace, name and suffix can be read back from a cluster-scoped name, in this order, if they are short enough |
| UniqueNames.FleetJoinedReadsBack | pkg/common/uniquename/uniquename.go:131-191 | so can cluster, namespace, name and suffix from a fleet-scoped one |
| UniqueNames.ClusterLabelsNeverFail | pkg/common/uniquename/uniquename.go:76-116 | cluster-scoped labels of both RFCs can always be made from valid inputs |
| UniqueNames.ClusterSubdomainFailsIff | pkg/common/uniquename/uniquename.go:63-75 | a cluster-scoped subdomain fails if and only if the name is cut just after a dot; never for its length |
| UniqueNames.FleetLabelsFailIff | pkg/common/uniquename/uniquename.go:150-191 | a fleet-scoped RFC 1123 label can always be made, an RFC 1035 label unless the cluster ID starts with a digit |
| UniqueNames.FleetSubdomainFailsIff | pkg/common/uniquename/uniquename.go:135-149 | a fleet-scoped subdomain fails if and only if the cluster ID or the name is cut just after a dot; never for its length |
| UniqueNames.ClusterSubdomainCanFail | pkg/common/uniquename/uniquename.go:63-75 | in every namespace there is a valid name for which that happens |
| UniqueNames.FleetSubdomainCanFail | pkg/common/uniquename/uniquename.go:135-149 | in every cluster and namespace there is a valid name for which that happens |
| UniqueNames.RandomLowerCase | pkg/common/uniquename/uniquename.go:200-207 | the string has the length asked for and only lower case letters |
| UniqueNames.LettersAreValid | pkg/common/uniquename/uniquename.go:196-207 | such a string of 1 to 63 letters is valid in every format |
| UniqueNames.AssignName | pkg/controllers/member/endpointslice/controller.go:392-411 | the assigned name is a valid subdomain whatever the inputs, and the formatted name whenever that can be made |
| MemberWeight.WeightRoundTrip | pkg/common/objectmeta/objectmeta.go:84-105 | every weight from 0 to 1000, written in decimal, is read back |
| MemberWeight.AcceptedIff | pkg/common/objectmeta/objectmeta.go:91-104 | an annotation gives a weight if and only if, without sign and leading zeros, it is that weight written in decimal; a minus sign only for zero |
| MemberExport.NextKeepsInv | pkg/controllers/member/serviceexport/controller.go:79-254 | every step of the controller, of users and of the hub keeps the export invariant |
| MemberExport.EveryRunIsSafe | pkg/controllers/member/serviceexport/controller.go:104-337 | in every run a hub copy that is not being deleted has its ServiceExport, with the finalizer, and its weight, when set, is between 1 and 1000 |
| MemberExport.JudgeCases | pkg/controllers/member/serviceexport/controller.go:120-225 | withdrawn exactly without an exportable Service or with weight 0, left alone exactly if the annotation says no weight, exported otherwise, with weight 1 if there is no annotation |
| MemberRounds.DeletionUnexports | pkg/controllers/member/serviceexport/controller.go:104-118 | an undisturbed reconcile of a deleted ServiceExport makes its copy go and then the ServiceExport |
| MemberRounds.NothingToExport | pkg/controllers/member/serviceexport/controller.go:120-225 | without an exportable Service, or with weight 0, the copy goes and the finalizer with it |
| MemberRounds.BadWeightLeaves | pkg/controllers/member/serviceexport/controller.go:175-197 | an annotation that says no weight changes nothing of what is exported |
| MemberRounds.ServiceIsExported | pkg/controllers/member/serviceexport/controller.go:227-337 | otherwise the ServiceExport is protected and the hub has a copy of this very Service with the annotated weight, the one that was there or a new one; a copy of an earlier Service goes instead |
| MemberExport.Member.Unexport | pkg/controllers/member/serviceexport/controller.go:442-470 | the copy is deleted before the finalizer goes, wherever it stops |
| MemberExport.Member.Export | pkg/controllers/member/serviceexport/controller.go:256-337 | the copy is of this very Service and has this weight, or it was of an earlier Service and is withdrawn |
| MemberExport.Member.Reconcile | pkg/controllers/member/serviceexport/controller.go:79-254 | when it ends well: no copy for an export being deleted, a missing or ineligible Service or weight 0; the old copy for an invalid annotation; otherwise a copy with the annotated weight |

## Left out

- Set-up, watches, indexers, metrics, events, logging, last-seen timestamps: wiring without a property of its own.
- Conditions other than Conflict, and the status type of a ServiceImport: copied through.
- The MultiClusterService, internal member cluster, member cluster and remaining member controllers: mostly copying and clean-up, they would only add easy members.
- Exported port lists are taken to be non-empty, and each cluster to make one export and one import request per Service; names of the form namespace-name can collide, which is not modelled.
- Changes of annotations, labels or finalizers by users; a changed ServiceInUseBy annotation that does not parse is modelled only for the distribution of slices.
- Lookup of public IP addresses and DNS labels in the member cluster: the export carries the result.
- Progress when an export in conflict disappears during resolution: the resolver stops there, as the code does.
- The uniqueness of unique names: it rests on the randomness of the suffix.
- DesiredEndpoints.Process: takes export weights between 1 and 1000, which is what MemberExport.EveryRunIsSafe guarantees, and fewer than 2^53 / 1000 clusters, where the sum of the weights is exact in binary64.
- EndpointSync.Sync: the listing is the profile's content when the loop starts, and nobody else changes the backend's endpoints during it, except that an endpoint may be deleted by somebody else; desired endpoints are taken as values.
- EndpointSync.Lower: letter case is that of ASCII, in which Azure resource names are written.
- ProfileHeaders.SortInPlace: is the insertion sort Go uses for up to 12 elements; header lists have at most 8.
- TrafficEndpoints.AzureEndpointsHaveTheirBackend: endpoints are told apart by owner, so the spelling of names is not part of it; the update loop is any sequence of writes and deletions of the backend's own endpoints.
- ExportConvergence.WritesAreBounded: counts whole undisturbed reconciles; steps of interleaved reconciles are not counted.
- SliceReconciler.SliceHub.Distribute: nobody else changes the copies during the loops; with interference the guarantee is SliceDistribution.CopiesHaveTheirExport.
