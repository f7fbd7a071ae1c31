# PrivateDeploy: models and proofs

A Dafny model of the stateful parts of PrivateDeploy, with proofs of what they promise:
the tray menu protocol between two processes, the CDN manager, the API rate limiter, the
kernel start recovery, the keepers of ruleset references and plugin triggers, region scoring,
the mobile VPN service, the node health monitor and parallel deployment.

`dafny verify dfyconfig.toml` checks everything.

## How it is built

Each part has the form of the code it models. Objects whose methods update fields are classes;
loops are loops. Every such method is proved equal to a specification function on values
(`Value()` before and after), and the lemmas are about those functions. What those functions do is in turn
stated by lemmas that speak of inputs, states and answers alone. Where several threads or
processes share state, the functions are the steps of a transition system, one per locked section
or queue operation, and the lemmas hold for every interleaving. What the network, the file system
and other processes answer is an argument, so every theorem holds for every outcome.

| file | what it models |
|---|---|
| Text, Seqs | strings as Go and TypeScript treat them; sequences |
| TrayProtocol, TrayDecoder, TrayRebuild | the tray: commands and decoder, and the rebuilt menu |
| TraySystem, TraySafety, TrayConvergence, TrayGuarantees, TrayClicks | both tray processes and queues as steps, and what every run guarantees |
| TrayProcesses | the code of both tray processes |
| CdnStore, CdnSystem | the CDN manager: its locked sections, and their interleavings |
| CdnSafety, CdnWrites, CdnAccounts, CdnOverlaps, CdnDeletes, CdnDisk | what every interleaving keeps: records, statuses, account and zone, overlapping deletes, what removes a record, what a restart finds |
| CdnWhole | each operation from beginning to end when nothing else runs |
| CdnExamples | runs from the empty store that show the conditions are needed |
| CdnProbe, CdnNames, CdnZones, WorkerTemplate | the readiness probe, worker and host names, zone listing, script rendering |
| RateLimit | token buckets with eviction |
| KernelProfile, KernelPorts, KernelReports, KernelSubscriptions, KernelStart, KernelRetries | restart repairs, what they report, the retry loop around them, and when it goes on |
| RulesetRefs | pruning of ruleset references |
| PluginTriggers, PluginStore | the trigger index and the operations that maintain it |
| RegionScores | region ranking |
| VpnService, HealthMonitor, MultiDeploy | handle ownership, health traces, three-slot deployment |

## Where the code differs from what one would expect

Each of these is a lemma with an exact condition, and where the condition is not obviously met, a run.

- Evicting idle rate-limit entries changes no decision exactly when `rate * 300 >= burst`
  (`RateLimit.EvictionInvisibleIff`); otherwise a cleanup hands out a full bucket early.
- `addPlugin` keeps the trigger index in step with the list exactly when it succeeds without the
  hub bringing other triggers, or fails before the hub check entered anything
  (`PluginTriggers.AddKeepsIndexIff`).
- The Worker gets its backend back exactly for hosts without a colon, so an IPv6 literal is lost
  (`WorkerTemplate.BackendParsesIff`); with a line break in the host the script does not parse
  (`WorkerTemplate.LiteralDecodes`).
- Reassigning ports skips an inbound that lacks its own block (`KernelPorts.ReassignKeepsPortsApart`),
  never keeps the port of an existing inbound (`KernelPorts.ExistingPortAlwaysMoves`), and always moves
  a bracketed controller address (`KernelPorts.BracketedControllerAlwaysMoves`).
- "Changed" means that a port was allocated. A profile that lacks one of the three inbounds or the
  experimental settings changes without a report exactly when every kind it lacks has its default
  port free, every kind it has lacks its block, and the controller is absent or on a free port
  (`KernelReports.UnreportedChangeIff`, `KernelReports.UnreportedExample`).
- The start loop throws the error of its last attempt exactly unless the reassignment of ports after
  that attempt throws, which takes a rejected request for a port (`KernelStart.StartsAtFirstSuccess`,
  `KernelStart.RethrowsLastError`, `KernelStart.RepairThrowsExample`).
- A VPN service reports running without any handle exactly from a restart of the live service in which
  some close call fails until the next stop or the next restart with a configuration
  (`VpnService.RunningWithoutHandlesIff`, `VpnService.FailedRestartExample`).
- A probe comment says a blank path secret means an old deployment. For records made by this code it
  means that the record is gone or re-bound at that moment. A probe then marks a record active without
  asking the relay exactly when the record has its host again at the mark
  (`CdnWrites.ActiveUnaskedIff`, `CdnExamples.ActiveWithoutRelay`).
- With overlapping operations the custom domain stops matching the account exactly when a
  `SetCustomDomain` commits a zone it listed under another account than the one verified by then
  (`CdnAccounts.ZoneBreaksIff`, `CdnExamples.SetOvertakenByVerify`).
- A delete removes the record of another deployment than the one it found exactly when a deployment of
  that node has committed in between (`CdnOverlaps.DeleteDropsOtherIff`), which can leave a live script
  without a record (`CdnExamples.DeployOvertakenByDelete`).

## Model

| member | source | states |
|---|---|---|
| TrayRebuild.RebuildShowsForest | bridge/tray.go:254-307 | for every forest and every earlier state of both processes, the consumed commands of one rebuild leave exactly the forest without hidden subtrees and unknown types, in order, separators at the root; no sub-item is dropped, ids run depth-first, and both id tables hold exactly these ids |
| TrayRebuild.ConsumeForest | cmd/privatedeploy-tray/main.go:57-81 | consuming the commands of a forest at the root appends its view, numbered and keyed as sent |
| TrayDecoder.ConsumeKids | cmd/privatedeploy-tray/main.go:68-79 | consuming the commands of children, at any depth below a known parent, fills exactly that parent and puts separators at the root |
| TrayDecoder.ConsumeKid | bridge/tray.go:289-305 | the same for one child with its subtree |
| TrayRebuild.ForestRegisters | bridge/tray.go:254-270 | the handlers stored for a forest are keyed by exactly the ids sent for it |
| TrayRebuild.RootOnScreen | bridge/tray.go:284-307 | what is visible of the rebuilt root, in order, with its ids |
| TrayDecoder.NextIdInjective | bridge/tray.go:250-252 | different counter values give different ids |
| TrayGuarantees.ClicksFireTheirOwnHandler | bridge/tray.go:163-167 | in every interleaving, even with lost commands, a click runs the handler registered for the very item clicked, of the menu in force, or nothing |
| TrayClicks.ClicksDoWhatTheItemSays | bridge/tray.go:284-307 | in every run, whatever fires was made for an item of the menu in force at that moment, with that item's looks, and leaves the application exactly if its event ends in "tray.exit", else reports that event; or it is one of the three first entries and shows, restarts or exits |
| TrayClicks.ClicksOnScreenFire | bridge/tray.go:163-167 | once nothing is in flight and nothing was lost, the click of an entry on screen fires once |
| TrayClicks.CheckMarksOne | cmd/privatedeploy-tray/main.go:82-89 | check and uncheck set the mark of the item registered under the id and change nothing else |
| TrayGuarantees.StaleClicksAreIgnored | bridge/tray.go:163-167 | a click from a replaced menu runs nothing |
| TrayGuarantees.IdsAreNeverReused | bridge/tray.go:250-282 | ids keep their origin along every run, and a rebuild only uses ids never seen before |
| TraySafety.FallbackIdsApart | bridge/tray.go:64-66 | the fallback ids differ from every generated id |
| TrayGuarantees.QuietMenuIsTheWantedMenu | bridge/tray.go:272-282 | with nothing in flight and no command lost, the screen shows the menu last asked for and its ids are exactly the live handlers |
| TraySafety.DeliverClickSafe | bridge/tray.go:163-167 | what the lookup of a clicked id finds fits the entry that was clicked |
| TraySafety.RebuildClickSafe | bridge/tray.go:272-282 | beginning a rebuild keeps the click-safety invariant and the origin of every earlier id |
| TrayConvergence.RebuildConverges | bridge/tray.go:272-282 | after a rebuild begins, the commands in flight lead to the new forest |
| TraySafety.StepClickSafe | bridge/tray.go:154-183 | every step of either process or the user keeps the click-safety invariant |
| TrayConvergence.StepConverges | cmd/privatedeploy-tray/main.go:95-108 | every step keeps the in-flight commands on course to the wanted menu |
| TrayGuarantees.RunsKeepInvariants | bridge/tray.go:154-307 | every run keeps both invariants |
| TrayProcesses.TrayProc.Send | bridge/tray.go:231-248 | a command is appended to the pipe, or dropped without a sidecar |
| TrayProcesses.TrayProc.NextID | bridge/tray.go:250-252 | hands out the next id and advances the counter |
| TrayProcesses.TrayProc.AddItemLocked | bridge/tray.go:254-261 | stores the handler, then sends the item |
| TrayProcesses.TrayProc.AddSubItemLocked | bridge/tray.go:263-270 | stores the handler, then sends the sub-item under its parent |
| TrayProcesses.TrayProc.CreateMenuItemLocked | bridge/tray.go:284-307 | performs exactly the steps of the item and its subtree, in order |
| TrayProcesses.TrayProc.CreateChildren | bridge/tray.go:301-303 | performs the steps of the children under the item's id |
| TrayProcesses.TrayProc.UpdateTrayMenus | bridge/tray.go:272-282 | clears the handlers, resets the menu, then performs the steps of the forest |
| TrayProcesses.TrayProc.Start | bridge/tray.go:58-67 | initialises the icon and adds the three fallback items |
| TrayProcesses.TrayProc.Click | bridge/tray.go:163-167 | runs exactly what delivering the click event fires in the system of both processes |
| TrayProcesses.Sidecar.HandleCmd | cmd/privatedeploy-tray/main.go:34-93 | one command's effect on menu and item table, unknown parents and ids ignored |
| TrayProcesses.Sidecar.AddMenuItem | cmd/privatedeploy-tray/main.go:60-67 | appends a root item under a fresh handle |
| TrayProcesses.Sidecar.AddSubMenuItem | cmd/privatedeploy-tray/main.go:73-79 | appends an item under its parent with a fresh handle |
| TrayProcesses.Sidecar.Reader | cmd/privatedeploy-tray/main.go:95-108 | handles the lines in the order read |
| CdnSafety.RecordsArePinned | bridge/cdn/cdn.go:548-596 | in every interleaving and across restarts, a record's account is one its script was uploaded to, its status is set exactly when it has a custom host, and that host is bound to that script in the same account |
| CdnSafety.RemoteDeletesHitOwnAccount | bridge/cdn/cdn.go:637-694 | every remote delete goes to an account the script was uploaded to and every detach to one the binding was made in, despite re-verifications |
| CdnSafety.DeleteUsesPinnedAccount | bridge/cdn/cdn.go:637-647 | a delete aims at the record's pinned account whatever account is verified |
| CdnSafety.ProbeTouchesOnlyItsStatus | bridge/cdn/cdn_probe.go:341-353 | a probe step changes at most the status of its node's present record with its host, and never adds or removes a record |
| CdnSafety.ActiveWasEarned | bridge/cdn/cdn_probe.go:131-146 | for an active record some probe of its node and host reached TLS and, in the same try, reached the relay or found no secret, and no probe ever found a blank secret on a present record |
| CdnWrites.ActiveIsWrittenByWinner | bridge/cdn/cdn_probe.go:126-146 | in every interleaving, a step other than a restart that turns a record active is a probe's, on a present record of its node with its host, after TLS and either the relay or a missing secret in that same try, and it changes the status alone |
| CdnWrites.WinsUnaskedIff | bridge/cdn/cdn_probe.go:134-141 | after TLS a probe wins without asking the relay exactly when the record does not own the host as the secret is read |
| CdnWrites.MarksIff | bridge/cdn/cdn_probe.go:341-353 | a winning probe leaves its record active exactly when the record has its host at the mark |
| CdnWrites.ActiveUnaskedIff | bridge/cdn/cdn_probe.go:134-146 | in every interleaving, active is written without asking the relay exactly when the host is not owned at the read and owned again at the mark |
| CdnExamples.ActiveWithoutRelay | bridge/cdn/cdn_probe.go:134-141 | a run from the empty store in which this happens, no probe ever reaching the relay |
| CdnSafety.AtMostFourteenTries | bridge/cdn/cdn_probe.go:100-116 | no probe makes more than fourteen tries |
| CdnOverlaps.DeleteDropsOtherIff | bridge/cdn/cdn.go:625-702 | in every interleaving, a delete's commit removes another deployment's record than the one it found exactly when a deployment of that node committed in between |
| CdnOverlaps.DeleteNotes | bridge/cdn/cdn.go:625-654 | a delete that begins notes the deployment whose record it finds |
| CdnOverlaps.StepStamps | bridge/cdn/cdn.go:540-596 | every step keeps each record tied to the one deployment that committed it, which never commits again |
| CdnExamples.DeployOvertakenByDelete | bridge/cdn/cdn.go:681-702 | a run from the empty store that ends with a live script, no record of it, and nothing under way to delete it |
| CdnDeletes.RemovalFollowsGrant | bridge/cdn/cdn.go:681-703 | in every interleaving, besides a restart only the end of a Clear and a delete's commit remove a node's record, the latter only after that delete's remote request, for the script and account of the record it found, was granted |
| CdnDeletes.RefusedDeleteKeepsRecord | bridge/cdn/cdn.go:681-703 | any other answer leaves memory and disk alone and ends that delete; a granted one goes on to the commit, which removes the record |
| CdnDisk.RestartLosesNothing | bridge/cdn/cdn.go:854-910 | in every interleaving whose saves succeed, a restart finds configuration and records as they were in memory |
| CdnWhole.VerifyWhole | bridge/cdn/cdn.go:223-345 | a whole verification, for all answers: what is stored on success, the domain kept for the same account only, the wipe exactly when none was verified |
| CdnWhole.DeployStartsIff | bridge/cdn/cdn.go:387-424 | the exact conditions on flag, account, subdomain or domain, backend and template under which a deploy begins |
| CdnWhole.DeployWhole | bridge/cdn/cdn.go:387-610 | a whole deploy, for all answers: a record exactly when the upload and, with a subdomain, its enabling succeed; its fields; the binding and the probe exactly when a host was bound |
| CdnWhole.DeleteWhole | bridge/cdn/cdn.go:624-710 | a whole delete, for all answers: detach, remote delete and, exactly when granted, the record goes |
| CdnWhole.ClearStartsIff | bridge/cdn/cdn.go:355-361 | a Clear goes over the ids of exactly the records there are |
| CdnWhole.ClearWhole | bridge/cdn/cdn.go:355-384 | a whole Clear: one remote delete for every record, to its account, and whatever the answers nothing is left |
| CdnWhole.SetWhole | bridge/cdn/cdn.go:730-798 | a whole set: begins exactly with zone id, legal subdomain and account; stores the listed zone of that id exactly when scope check and listing allow |
| CdnWhole.DropWhole | bridge/cdn/cdn.go:803-813 | dropping the domain touches nothing else |
| CdnWhole.RestartWhole | bridge/cdn/cdn.go:854-887 | a restart loads the files and probes exactly the records with a host that are pending or failed |
| CdnWhole.ResumingMarksPending | bridge/cdn/cdn.go:881-886 | a failed record is pending again before its probe begins |
| CdnSafety.StepInv | bridge/cdn/cdn.go:223-888 | every locked section, network answer and restart keeps the record, task and log invariants |
| CdnSafety.BlankMeansGone | bridge/cdn/cdn_probe.go:313-321 | no secret is read exactly when the record does not own the host |
| CdnAccounts.FailedVerifyKeepsVerified | bridge/cdn/cdn.go:335-344 | in every interleaving, a failed verification leaves a verified configuration unchanged in memory and on disk |
| CdnAccounts.CustomDomainUnlessReplaced | bridge/cdn/cdn.go:743-796 | in every interleaving in which no account is replaced while a set chooses its zone and no set reads the account while none is verified, a set custom domain names a zone listed as active under the account verified now |
| CdnAccounts.CustomDomainFollowsAccount | bridge/cdn/cdn.go:743-796 | so it does with operations one at a time, probes and restarts beside them |
| CdnAccounts.ZoneBreaksIff | bridge/cdn/cdn.go:306-383 | in every interleaving, when zones belong to one account each, a step breaks the match of custom domain and account exactly when it commits a set whose zone was listed under another account than the one verified at that moment |
| CdnAccounts.KeepsAccount | bridge/cdn/cdn.go:306-383 | only verifications and Clear change the account |
| CdnExamples.SetOvertakenByVerify | bridge/cdn/cdn.go:755-796 | a run from the empty store in which a verification overtakes a set and the domain names a zone its account never listed |
| CdnAccounts.FoundIsListed | bridge/cdn/cdn.go:770-784 | the zone committed is one of those listed, with the id asked for, and it is found if there |
| CdnAccounts.StepVerifyInv | bridge/cdn/cdn.go:223-240 | at most one verification at a time, and none that began unverified sees another account appear |
| CdnAccounts.StepZones | bridge/cdn/cdn.go:730-816 | every undisturbed step keeps zone and account in agreement |
| CdnStore.Manager.BeginVerify | bridge/cdn/cdn.go:224-233 | takes the verifying flag and tells whether an account was verified before |
| CdnStore.Manager.PersistVerified | bridge/cdn/cdn.go:305-330 | the new configuration, keeping the custom domain for the same account only |
| CdnStore.Manager.RollBackVerify | bridge/cdn/cdn.go:335-344 | wipes the configuration only if none was verified before |
| CdnStore.Manager.BeginDeploy | bridge/cdn/cdn.go:388-425 | the conditions under which a deploy starts, and what it carries out of the lock |
| CdnStore.Manager.CommitDeploy | bridge/cdn/cdn.go:595-607 | replaces the node's record and saves |
| CdnStore.Manager.BeginDelete | bridge/cdn/cdn.go:624-654 | account, script and binding to remove remotely |
| CdnStore.Manager.CommitDelete | bridge/cdn/cdn.go:701-709 | removes the node's record and saves |
| CdnStore.Manager.CommitClear | bridge/cdn/cdn.go:372-383 | wipes configuration and records; records are saved only after the configuration was |
| CdnStore.Manager.CommitCustomDomain | bridge/cdn/cdn.go:786-797 | stores the matched zone with the subdomain |
| CdnStore.Manager.ClearCustomDomain | bridge/cdn/cdn.go:803-813 | drops the custom domain only |
| CdnStore.Manager.SaveConfigLocked | bridge/cdn/cdn.go:890-899 | the file follows memory when the write succeeds |
| CdnStore.Manager.SaveDeploymentsLocked | bridge/cdn/cdn.go:901-910 | the file follows memory when the write succeeds |
| CdnStore.Manager.DeploymentStillExpectsHost | bridge/cdn/cdn_probe.go:327-335 | whether the node's record is there and has the host |
| CdnStore.Manager.DeploymentPathSecret | bridge/cdn/cdn_probe.go:313-321 | the trimmed secret of the record if it owns the host, else nothing |
| CdnStore.Manager.MarkCustomHostStatus | bridge/cdn/cdn_probe.go:341-353 | writes the status only to a present record with the host |
| CdnStore.Manager.constructor | bridge/cdn/cdn.go:854-863 | starts from the files with both flags down |
| CdnProbe.ProbeCustomHostReadiness | bridge/cdn/cdn_probe.go:95-150 | the first of fourteen tries that is decided decides the status; failure takes all fourteen and all 1451 seconds |
| CdnProbe.TryIsFourSteps | bridge/cdn/cdn_probe.go:116-148 | a try taken as separate locked sections and answers ends like the loop's body |
| CdnProbe.ProbeWhole | bridge/cdn/cdn_probe.go:95-150 | a whole probe whose record stays: active exactly when one of the fourteen tries reaches TLS and, unless there is no secret, the relay; else failed |
| CdnProbe.StaleProbeStops | bridge/cdn/cdn_probe.go:116-119 | a probe whose record is gone or re-bound ends and changes nothing |
| CdnNames.WorkerNameShape | bridge/cdn/cdn.go:977-994 | for every node and label: only a-z, 0-9 and dashes, at most 36 characters, ending in the node's hash |
| CdnNames.CleanLabelShape | bridge/cdn/cdn.go:978-984 | the cleaned label has label characters only and at most twenty of them |
| CdnNames.NameIsWords | bridge/cdn/cdn.go:977-994 | the name is the prefix, the label's runs of letters and digits joined by single dashes and cut after twenty characters, and the hash |
| CdnNames.SuffixRecoversHash | bridge/cdn/cdn_routes.go:92-105 | the suffix of a worker name is the node's hash, whatever the label |
| CdnNames.SuffixIff | bridge/cdn/cdn_routes.go:92-105 | six hex digits are the suffix exactly of the names ending in them |
| CdnNames.ScriptShortSuffix | bridge/cdn/cdn_routes.go:92-105 | the scanning loop finds exactly that suffix |
| CdnNames.ValidateDNSLabel | bridge/cdn/cdn.go:1027-1046 | accepts exactly the labels of 1 to 56 allowed characters without edge hyphens |
| CdnNames.ValidSubdomainIff | bridge/cdn/cdn.go:1023-1046 | a subdomain is accepted exactly when it is a host label and stays one with a dash and a hash behind it |
| CdnNames.HostIsLegal | bridge/cdn/cdn_routes.go:72-86 | with a validated subdomain the host is subdomain, dash, hash, dot and zone, and its first label is legal and at most 63 characters |
| CdnNames.HostExistsIff | bridge/cdn/cdn_routes.go:56-105 | there is a host exactly for a complete custom domain and a script name that ends in six hex digits |
| CdnNames.HostsFollowNodes | bridge/cdn/cdn_routes.go:72-86 | two nodes share a host exactly if they share the hash, whatever their labels |
| CdnZones.ListsActiveZones | bridge/cdn/cdn_routes.go:127-186 | for every account, served fifty a page with the page count right or absent, the listing is the active zones with id and name among the first 2000, in order |
| CdnZones.ListedIff | bridge/cdn/cdn_routes.go:153-166 | up to 2000 zones, a zone is listed exactly if it is active and has id and name |
| CdnZones.WalkStopsAt | bridge/cdn/cdn_routes.go:134-185 | for any server: the walk ends at the first page that is short, counted last, refused, or the fortieth, fails exactly when that page is refused, and else lists the active zones of all pages up to it |
| CdnZones.ListZones | bridge/cdn/cdn_routes.go:127-186 | the page loop computes the walk, fails with the first failing request, and makes at most forty requests |
| CdnZones.CollectActive | bridge/cdn/cdn_routes.go:152-167 | the usable entries of one page, in order |
| WorkerTemplate.WorkerReadsWhatWasDeployed | bridge/cdn/cdn.go:432-463 | for every template, one-line host without a colon, port and secret, the rendered literals read back as that host, port and secret |
| WorkerTemplate.RenderFillsBoth | bridge/cdn/cdn.go:440-463 | each placeholder becomes its literal, neither substitution creates or destroys the other, the rest stays, and both later checks pass |
| WorkerTemplate.SwapKeepsMarkers | bridge/cdn/cdn.go:440-449 | swapping a quoted piece for an escaped literal moves the other placeholder's occurrences and makes none |
| WorkerTemplate.EscapeIsPerCharacter | bridge/cdn/cdn.go:1005-1009 | the two replacement passes escape each character once |
| WorkerTemplate.LiteralDecodes | bridge/cdn/assets/worker.js:43-44 | by section 12.9.4 of ECMA-262 an escaped literal decodes to the original exactly when that has no line break |
| WorkerTemplate.BackendParsesIff | bridge/cdn/assets/worker.js:77-81 | splitting at the colon gives back host and port exactly for a non-empty host without a colon |
| WorkerTemplate.ReplaceOnly | bridge/cdn/cdn.go:440-449 | replacing a text that occurs once replaces it there and nothing else |
| RateLimit.TokensStayInRange | api/middleware/rate_limit.go:63-68 | over every trace every bucket stays between 0 and burst |
| RateLimit.WindowBound | api/middleware/rate_limit.go:63-79 | without eviction, a window of length T admits at most burst + rate * T requests of one address |
| RateLimit.AdmitsIff | api/middleware/rate_limit.go:56-79 | after any trace a request passes exactly when every stretch of events ending with it has room: burst plus rate times the time that counts is at least the admissions in it plus one |
| RateLimit.EvictingAdmitsIff | api/middleware/rate_limit.go:33-79 | the same for the evicting limiter when rate * 300 >= burst |
| RateLimit.EvictionSimulated | api/middleware/rate_limit.go:38-42 | when rate * 300 covers burst, the evicting map decides every request like the never-evicting one |
| RateLimit.EvictingWindowBound | api/middleware/rate_limit.go:30-83 | the window bound over whole runs of the evicting limiter |
| RateLimit.EvictionInvisibleIff | api/middleware/rate_limit.go:33-45 | eviction changes no decision of any run exactly when rate * 300 >= burst |
| RateLimit.EvictionShows | api/middleware/rate_limit.go:33-45 | otherwise a concrete trace on which it does |
| RateLimit.Limiter.Handle | api/middleware/rate_limit.go:47-83 | exempt paths pass; other requests refill, clamp, and take a token or are refused |
| RateLimit.Limiter.Sweep | api/middleware/rate_limit.go:37-43 | one cleanup pass drops exactly the entries idle over five minutes |
| RateLimit.SweepIsCleanups | api/middleware/rate_limit.go:38-42 | a pass equals its single removals in any order |
| KernelPorts.ReassignKeepsPortsApart | frontend/src/stores/kernelApiRuntime.ts:123-248 | if every allocation finds an unused port, no inbound shares a port with the mixed, http or socks inbound or with the port the controller address carries, and each of the three is on with a positive port exactly when it was not missing its block |
| KernelPorts.FreshOffersSuffice | frontend/src/stores/kernelApiRuntime.ts:157-168 | every allocation finds one when the ports offered are positive, never rejected, new and all different |
| KernelPorts.ReassignFinishes | frontend/src/stores/kernelApiRuntime.ts:157-168 | without a rejected request the operation does not throw |
| KernelPorts.ReassignTouchesOnlyThree | frontend/src/stores/kernelApiRuntime.ts:139-201 | all other inbounds stay as they were, and the three keep all but switch and listen address |
| KernelPorts.AllocationFindsUnusedIff | frontend/src/stores/kernelApiRuntime.ts:157-168 | an allocation yields an unused port exactly when one is among its eleven offers behind used ones only, and then yields that one |
| KernelPorts.AllocationWithinEleven | frontend/src/stores/kernelApiRuntime.ts:157-168 | with the ten tries and one more of the code |
| KernelPorts.UsedPortsAre | frontend/src/stores/kernelApiRuntime.ts:124-135 | the ports in use are exactly the positive ones inbounds listen on |
| KernelPorts.ExistingPortAlwaysMoves | frontend/src/stores/kernelApiRuntime.ts:132-136 | an existing inbound's own port, whether it is on or off, counts as used, so it is always replaced |
| KernelPorts.SettleSettles | frontend/src/stores/kernelApiRuntime.ts:172-201 | settling one kind sets its inbound apart from all others |
| KernelPorts.SettleKeepsOther | frontend/src/stores/kernelApiRuntime.ts:203-205 | settling one kind does not disturb another settled one |
| KernelPorts.ControllerSettled | frontend/src/stores/kernelApiRuntime.ts:207-245 | the controller ends on a port no inbound has |
| KernelPorts.AddressCarriesPort | frontend/src/stores/kernelApiRuntime.ts:240-243 | the rewritten address holds the new port after its last colon |
| KernelPorts.AddressReadsBack | frontend/src/stores/kernelApiRuntime.ts:222-230 | and reads back as host and port unless bracketed or with a scheme |
| KernelPorts.BracketedControllerAlwaysMoves | frontend/src/stores/kernelApiRuntime.ts:216-221 | a bracketed address is always given a new port |
| KernelReports.NothingReportedIff | frontend/src/stores/kernelApiRuntime.ts:170-247 | no change is reported exactly when each kind is missing with a free default port or lacks its block, and the controller is absent or on a free port |
| KernelReports.UnreportedChangeIff | frontend/src/stores/kernelApiRuntime.ts:137-247 | the profile changes unreported exactly when that holds and a kind or the experimental settings are missing |
| KernelReports.ReportsTellPorts | frontend/src/stores/kernelApiRuntime.ts:139-201 | a reported port is the one the inbound, now on, listens on; a missing inbound is made on 127.0.0.1 with the default port unless another is reported; an existing one keeps its host; one without its block stays |
| KernelReports.ReportsTellController | frontend/src/stores/kernelApiRuntime.ts:207-245 | a reported controller port is the one in the rewritten address, after the trimmed host; else the address stays |
| KernelReports.AddressOfUrl | frontend/src/stores/kernelApiRuntime.ts:208-216 | host and port of an address with a scheme are those of the URL |
| KernelReports.SettleReportsIff | frontend/src/stores/kernelApiRuntime.ts:172-201 | the same for one kind |
| KernelReports.SilentFinishes | frontend/src/stores/kernelApiRuntime.ts:172-201 | with nothing to report nothing is allocated, so nothing throws |
| KernelReports.UnreportedExample | frontend/src/stores/kernelApiRuntime.ts:247 | an empty profile gains inbounds with no change reported |
| KernelPorts.Reassignment.ReassignKernelProfilePorts | frontend/src/stores/kernelApiRuntime.ts:123-248 | the whole operation on the profile, and the changes it reports |
| KernelPorts.Reassignment.UpdateInboundPort | frontend/src/stores/kernelApiRuntime.ts:172-201 | one inbound: keep a new default port if free, else allocate |
| KernelPorts.Reassignment.UpdateController | frontend/src/stores/kernelApiRuntime.ts:207-245 | the controller: keep its port if free, else allocate and rewrite |
| KernelPorts.Reassignment.AllocatePort | frontend/src/stores/kernelApiRuntime.ts:157-168 | ten tries, then one more that is taken as it comes |
| KernelPorts.Reassignment.EnsureInbound | frontend/src/stores/kernelApiRuntime.ts:139-155 | the first inbound of the kind, appended with defaults if there is none |
| KernelPorts.Reassignment.CollectPorts | frontend/src/stores/kernelApiRuntime.ts:124-135 | every positive port in use |
| KernelSubscriptions.PruneDropsExactlyMissing | frontend/src/stores/kernelApiRuntime.ts:250-307 | pruning removes exactly the entries of missing cloud ids, at both levels, and keeps the rest in order |
| KernelSubscriptions.RemovedAre | frontend/src/stores/kernelApiRuntime.ts:258-280 | the reported ids are exactly the mentioned cloud ids without a file |
| KernelSubscriptions.CloudIDsAre | frontend/src/stores/kernelApiRuntime.ts:251-265 | the collected ids are the cloud ids mentioned, once each |
| KernelSubscriptions.PruneIdempotent | frontend/src/stores/kernelApiRuntime.ts:250-307 | with the same files, pruning again does nothing |
| KernelSubscriptions.PruneChangesIff | frontend/src/stores/kernelApiRuntime.ts:282-306 | something is removed exactly when the outbounds differ afterwards |
| KernelSubscriptions.PruneMissingKernelCloudSubscriptions | frontend/src/stores/kernelApiRuntime.ts:250-308 | the operation on the profile, its change flag and its list |
| KernelSubscriptions.CollectCloudIDs | frontend/src/stores/kernelApiRuntime.ts:251-263 | the collecting loops |
| KernelSubscriptions.MissingFiles | frontend/src/stores/kernelApiRuntime.ts:269-275 | the ids without a file, in order |
| KernelSubscriptions.FilterOutbounds | frontend/src/stores/kernelApiRuntime.ts:284-290 | the top-level filter, flagging exactly a change |
| KernelSubscriptions.StripOutbounds | frontend/src/stores/kernelApiRuntime.ts:292-301 | the nested filters, flagging exactly a change |
| KernelStart.StartsAtFirstSuccess | frontend/src/stores/kernelApiStartRunner.ts:47-121 | at most five attempts; returns exactly at the first success; otherwise throws the last attempt's error, except exactly when a port conflict before the last attempt meets a reassignment that throws; the final throw is never reached |
| KernelStart.RethrowsLastError | frontend/src/stores/kernelApiStartRunner.ts:62-117 | when no request for a port is rejected, a failing start always throws the error of its last attempt |
| KernelStart.RepairThrowsExample | frontend/src/stores/kernelApiStartRunner.ts:84-89 | a first attempt whose repair throws, so that another error comes out |
| KernelRetries.GoesOnIff | frontend/src/stores/kernelApiStartRunner.ts:62-117 | a failed attempt is followed by another exactly when it is below the fifth and its error speaks of the cache file, or of an address in use with a finished reassignment that reports a change, or of a missing cloud subscription while the profile mentions one without a file; and what the next attempt starts from |
| KernelRetries.IncludesIff | frontend/src/stores/kernelApiStartRunner.ts:65-102 | an error speaks of a text exactly when the text stands somewhere in it |
| KernelRetries.FlagsTellBranches | frontend/src/stores/kernelApiStartRunner.ts:84-111 | ports count as adjusted exactly when some attempt was followed by a reported reassignment, subscriptions as pruned exactly when one was followed by a pruning |
| KernelRetries.EndsIn | frontend/src/stores/kernelApiStartRunner.ts:47-121 | the profile at the end is that of the last attempt, with its repairs if it failed |
| KernelStart.PruningRetriesOnce | frontend/src/stores/kernelApiStartRunner.ts:104-111 | with fixed files, pruning causes at most one retry |
| KernelStart.PrunedFlagTells | frontend/src/stores/kernelApiStartRunner.ts:104-111 | the pruning flag says whether the outbounds were edited, and how |
| KernelStart.Runner.RunKernelStartAttempts | frontend/src/stores/kernelApiStartRunner.ts:47-121 | the attempt loop with its repairs of the profile |
| KernelStart.Runner.Recover | frontend/src/stores/kernelApiStartRunner.ts:62-117 | what the catch block decides and does after a failed attempt |
| RulesetRefs.PruneLeavesNoDanglingReference | frontend/src/stores/profiles.ts:21-69 | with local rulesets known, only local sets with a known path remain, every token of a ruleset rule names a remaining set, other rules stay in order |
| RulesetRefs.SurvivingPayload | frontend/src/stores/profiles.ts:46-62 | a ruleset rule goes exactly when no token is valid; otherwise its new payload splits into exactly its valid tokens |
| RulesetRefs.PruneIs | frontend/src/stores/profiles.ts:21-69 | both rule lists and the rule sets as a whole and in order: which entries stay, with which payload |
| RulesetRefs.PruneIdempotent | frontend/src/stores/profiles.ts:21-69 | pruning twice is pruning once |
| RulesetRefs.PruneWithoutKnown | frontend/src/stores/profiles.ts:42-44 | without known rulesets no rule is touched |
| RulesetRefs.PruneInvalidRulesetRefs | frontend/src/stores/profiles.ts:21-69 | the operation on the profile; the answer is false exactly when nothing changed |
| RulesetRefs.FilterSets | frontend/src/stores/profiles.ts:27-37 | the kept rule sets, flagging exactly a change |
| RulesetRefs.NormalizeRules | frontend/src/stores/profiles.ts:40-63 | the kept and rewritten rules, flagging exactly a change |
| Text.SplitJoin | frontend/src/stores/profiles.ts:46-59 | splitting undoes joining on separator-free tokens |
| PluginTriggers.RunsKeepIndex | frontend/src/stores/plugins.ts:148-223 | over every run each observer list equals the registered carriers in plugin-list order |
| PluginTriggers.ObserversIncrease | frontend/src/stores/plugins.ts:156-170 | observers stand in strictly increasing list position |
| PluginTriggers.AddKeepsIndexIff | frontend/src/stores/plugins.ts:179-189 | adding keeps the index exactly when it is clean |
| PluginTriggers.EditKeepsIndex | frontend/src/stores/plugins.ts:212-223 | editing keeps the index |
| PluginTriggers.DeleteKeepsIndex | frontend/src/stores/plugins.ts:191-202 | deleting keeps the index |
| PluginTriggers.DeleteOutcome | frontend/src/stores/plugins.ts:191-202 | a saved delete takes exactly that plugin out of the list and out of every observer list; an unsaved or unknown one changes nothing |
| PluginTriggers.EditOutcome | frontend/src/stores/plugins.ts:212-223 | a saved edit puts the new plugin in the old one's place, observed under exactly its own triggers; an unsaved or unknown one changes nothing |
| PluginTriggers.AddOutcome | frontend/src/stores/plugins.ts:179-189 | a successful add grows the list by one entry, observed last under its triggers; a failed one leaves the list, and the index but for an edit the hub check made |
| PluginTriggers.InsertedBetween | frontend/src/stores/plugins.ts:158-169 | the insertion point found puts an id between the carriers before and after it |
| PluginTriggers.InsertPointIs | frontend/src/stores/plugins.ts:161-164 | the insertion point is the first observer gone from the list or standing later |
| PluginTriggers.PipeFollowsList | frontend/src/stores/plugins.ts:347-367 | folding over the carriers is folding over the list |
| PluginTriggers.SubscribeIsFoldOverList | frontend/src/stores/plugins.ts:342-370 | after every run the subscribe pipeline is the left fold over the plugin list |
| PluginStore.Plugins.UpdatePluginTrigger | frontend/src/stores/plugins.ts:148-172 | removes the id everywhere and re-inserts it by list position |
| PluginStore.Plugins.AddObserver | frontend/src/stores/plugins.ts:158-169 | one insertion into one observer list |
| PluginStore.Plugins.FindIndex | frontend/src/stores/plugins.ts:157 | the position of an id, or none |
| PluginStore.Plugins.FindInsertion | frontend/src/stores/plugins.ts:161-164 | the first observer gone from the list or standing later |
| PluginStore.Plugins.SetupPlugins | frontend/src/stores/plugins.ts:78-93 | registers the readable plugins in list order, giving a good store |
| PluginStore.Plugins.RegisterTriggers | frontend/src/stores/plugins.ts:90-92 | appends a plugin to the lists of its triggers |
| PluginStore.Plugins.EditPlugin | frontend/src/stores/plugins.ts:212-223 | replaces in place, or rolls back when saving fails |
| PluginStore.Plugins.DeletePlugin | frontend/src/stores/plugins.ts:191-202 | removes, or puts back when saving fails |
| PluginStore.Plugins.AddPlugin | frontend/src/stores/plugins.ts:179-189 | appends, checks the hub, and takes off the end when anything fails |
| PluginStore.Plugins.RunSubscribe | frontend/src/stores/plugins.ts:342-370 | the pipeline over the observers |
| RegionScores.ScoreRegions | bridge/cloud/recommend.go:57-133 | a permutation of the regions by non-increasing score in 0..100, one bonus per continent present, on a best base score there, none without a continent |
| RegionScores.EntryMeaning | bridge/cloud/recommend.go:69-102 | every entry of a ranking carries its region's latency, risk and access, and each reason stands exactly when it applies |
| RegionScores.LatencyOrders | bridge/cloud/recommend.go:141-156 | among measured regions of like risk and access a lower latency never scores lower, with the exact gaps between the bands and to unmeasured regions |
| RegionScores.SharesAre | bridge/cloud/recommend.go:76-98 | what AI access and each risk class are worth, and the best score before the bonus |
| RegionScores.BonusGoesToBest | bridge/cloud/recommend.go:116-125 | the bonus is ten points and no entry of the same continent scores higher without it |
| RegionScores.AwardIsDeserved | bridge/cloud/recommend.go:117-125 | a bonus given in descending order falls on a best base score of an unserved continent |
| RegionScores.AwardCounts | bridge/cloud/recommend.go:117-125 | one bonus for each continent present, none for others |
| RegionScores.RankedFrom | bridge/cloud/recommend.go:111-132 | any two descending sorts around the bonus pass give a ranking |
| RegionScores.ScoreOne | bridge/cloud/recommend.go:68-102 | score and reasons before the bonus |
| RegionScores.AwardBonuses | bridge/cloud/recommend.go:116-125 | the bonus pass |
| RegionScores.SortDescending | bridge/cloud/recommend.go:112-114 | some permutation in descending order |
| VpnService.HandlesNeitherLeakNorCloseTwice | mobile/gomobile/vpn_service.go:190-341 | after every interleaving, each handle opened is held by one field and never closed, or closed exactly once; a stopped service holds none |
| VpnService.RunningWithoutHandlesIff | mobile/gomobile/vpn_service.go:271-341 | over every run, the service reports running without handles exactly when a restart of the live service failed to close cleanly and no stop, nor restart with a configuration, came after it; otherwise running means all three are held |
| VpnService.StartOutcomes | mobile/gomobile/vpn_service.go:190-269 | in every run, a start leaves a stopped service running on three handles of its own exactly when all it needs is there and succeeds, else stopped without handles; a running one unchanged |
| VpnService.RestartOutcomes | mobile/gomobile/vpn_service.go:324-341 | in every run, an uninterrupted restart closes what was held and starts again with the same configuration, unless a close call reports an error |
| VpnService.HollowAfterIff | mobile/gomobile/vpn_service.go:271-341 | the same for one operation |
| VpnService.FailedRestartExample | mobile/gomobile/vpn_service.go:331-335 | that exception is reached by configure, start and a failing restart |
| VpnService.PerformSound | mobile/gomobile/vpn_service.go:190-341 | every locked section keeps the ledger |
| VpnService.Service.Start | mobile/gomobile/vpn_service.go:190-269 | which handles each way of failing closes, and what success stores |
| VpnService.Service.StopLocked | mobile/gomobile/vpn_service.go:386-410 | closes and forgets every held handle, in order, whatever errors come |
| VpnService.Service.Stop | mobile/gomobile/vpn_service.go:271-287 | stops and reports a failed close |
| VpnService.Service.RestartLocked | mobile/gomobile/vpn_service.go:324-340 | the locked part of a restart and whether it goes on |
| HealthMonitor.StatusOfNode | bridge/cloud/health/monitor.go:191-206 | for every sequence of checks, the last outcome and the counter: the unhealthy run at the end, without the node's first check |
| HealthMonitor.CountedAfter | bridge/cloud/health/monitor.go:193-196 | the counter is the length of the run, less one if it reaches back to the first check |
| HealthMonitor.ChangesAreFlips | bridge/cloud/health/monitor.go:210-218 | change events are exactly the flips, in order |
| HealthMonitor.ChangesAlternate | bridge/cloud/health/monitor.go:210-218 | they strictly alternate |
| HealthMonitor.EachRunAlerts | bridge/cloud/health/monitor.go:220-224 | each unhealthy run, interleaved with other nodes, raises its final counter over three alerts |
| HealthMonitor.EventsCarryCounts | bridge/cloud/health/monitor.go:210-224 | a change to unhealthy carries one failure, a recovery none, an alert a multiple of three |
| HealthMonitor.LastCheckOnRecord | bridge/cloud/health/monitor.go:198-206 | a check replaces the outcome and ports of its node and of no other |
| HealthMonitor.PortsOpenAre | bridge/cloud/health/monitor.go:170-187 | each port counts as open exactly when the last connection to it succeeded |
| HealthMonitor.Monitor.CheckNode | bridge/cloud/health/monitor.go:162-225 | healthy exactly if some port answered; the new result and the events |
| MultiDeploy.AtMostThreeCreate | bridge/cloud_bridge.go:761-771 | in every interleaving at most three goroutines are inside CreateInstance |
| MultiDeploy.WaitingEntersIff | bridge/cloud_bridge.go:761-768 | a waiting goroutine may enter exactly when fewer than three are inside |
| MultiDeploy.NeverStuck | bridge/cloud_bridge.go:763-785 | until the call returns some step is enabled |
| MultiDeploy.ReturnsAfterSixMovesEach | bridge/cloud_bridge.go:763-786 | a run returns after exactly six steps for each option and one more |
| MultiDeploy.SlotsHoldOwnOutcome | bridge/cloud_bridge.go:770-781 | on return, slot i reports the one answer given to option i |
| MultiDeploy.InvKept | bridge/cloud_bridge.go:759-786 | every step keeps semaphore, wait group, slots and calls in agreement |
| MultiDeploy.Deployment.Spawned | bridge/cloud_bridge.go:763-765 | counts the goroutine and starts it |
| MultiDeploy.Deployment.Acquire | bridge/cloud_bridge.go:767 | takes a slot |
| MultiDeploy.Deployment.Create | bridge/cloud_bridge.go:772-773 | records the answer given to the option |
| MultiDeploy.Deployment.Store | bridge/cloud_bridge.go:774-780 | writes the own slot |
| MultiDeploy.Deployment.Release | bridge/cloud_bridge.go:768 | gives the slot back |
| MultiDeploy.Deployment.Done | bridge/cloud_bridge.go:766 | counts the goroutine off |

## Left out

- TraySystem: the handler table is swapped in one step; the window in which a reader could see it half replaced is not modelled.
- TrayProcesses.Sidecar.HandleCmd: icon, title, tooltip and quit have no effect on the menu model; the systray library and the tray click and right-click events are not part of it, nor are malformed lines.
- CdnSafety, CdnAccounts: runs start from an empty store, so hand-edited or older records (no account, host without status, route and DNS ids of the former implementation) do not occur; a save either writes the whole file or nothing.
- CdnSystem: the UI's last-error text, snapshots, HTTP, TLS, DNS-over-HTTPS and Cloudflare's answers beyond what the steps take as arguments; a lost upload answer counts as no upload.
- CdnAccounts.ZoneBreaksIff: takes for granted that no zone is listed under two accounts.
- CdnStore.Manager.BeginDelete: the zone, route and DNS ids of the former implementation, which new deployments never carry.
- CdnOverlaps.DeleteDropsOtherIff: deployments are told apart by their number, where the code has a time stamp that nothing compares.
- CdnProbe.TryIsFourSteps: a try without interference; with interference the steps of CdnSystem apply.
- CdnNames.SafeWorkerName: lower-casing is any function and the hash any function giving six hex digits; that different nodes get different hashes is not claimed.
- WorkerTemplate.ParseBackend: Number.parseInt on text with leading space or sign is not modelled; neither are escapes that rendering never produces, nor the Worker's request gate and pipes.
- RateLimit: reals instead of floating point; the client address is given.
- KernelPorts: Number() and URL parsing are given functions with integer results or none; inbounds are values in a list that the methods reassign, so two list entries sharing one object are not modelled.
- KernelPorts.ReassignKeepsPortsApart: assumes that each allocation finds an unused positive port; KernelPorts.AllocationFindsUnusedIff and KernelPorts.FreshOffersSuffice say when it does.
- KernelStart: waiting between attempts, removal of orphan processes and of the cache file, and messages; the ports-adjusted callback is taken not to throw; writing, running and the start callback are one outcome per attempt.
- RegionScores: scores are integers in tenths of a point, where the code uses floating point.
- PluginTriggers: operations one at a time; updating through the hub outside addPlugin, plugin code and its results are given functions.
- PluginStore.Plugins.RunSubscribe: a hook's wrong result and a thrown error are one failure.
- VpnService: traffic counters, default-interface selection and the library behind the handles; a handle counts as opened when its constructor or start succeeds.
- HealthMonitor.Monitor.CheckNode: the average latency and the time of the check are left out of the result; checks of one node do not overlap each other.
- MultiDeploy: progress events; the early errors for an empty list and a missing provider.
- Simple members (CRUD handlers, capability tables, statistics, formatting), scripts, UI and routing.
