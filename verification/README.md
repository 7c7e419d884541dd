# Canary release: takeover and cleanup, proved

A CanaryRelease sends part of the traffic of a release's services to a second version.  A proxy process forks each
original service, loads nginx with a configuration that splits the traffic between the fork and a canary service, and
then points the original at itself.  Later the canary is deprecated, and the originals are given back, or adopted, and
the release takes the canary's configuration over.  A controller process keeps the proxy's Deployment alive for exactly
that time.

This project models both processes and the data transformations they rely on, and proves what they promise:

- **Safety of the traffic.**  `Protocol` is a state machine of the two processes, the user, the listers and every API
  call; a run is any interleaving.  An original that selects the proxy has its fork and its canary service, in every
  state of every run in which listers are current at cleanup and no failed recovery is ignored.  The last
  proxy Deployment can go before the traffic does exactly if some were claimed at the beginning and none of them has the
  expected prefix.  nginx has all such originals configured, in every state of a run, exactly if the proxy process was
  never started while there were any; a proxy that was loads nginx only for a changed manifest.  For each hypothesis a run shows what happens without it.
- **The programs follow the protocol.**  `ApiServer.Cluster` is the server as the proxy sees it: every call may fail
  before or after it took effect, and between any two calls the rest of the cluster goes on.  A ghost log records an
  event for each effect, and every call keeps it a possible run, so the theorems about runs hold for the imperative
  `Proxy` at every moment, whatever failed.  `Deployments` does the same for the controller.
- **The programs do the right thing.**  `Proxy.Sync` and `Proxy.Cleanup` work in place on shared objects and arrays as
  the source does.  Their contracts say what they leave of every service, and `Outcomes` composes them: where each port
  is routed and in which shares, also while a later sync is under way, that forks are true although they share their
  port arrays, and when canary services are as rendered.  With current listers and no failing call they succeed.
  `Reconciliation` shows when any number of syncs and cleanups leave the originals "just like nothing had happened"
  (docs/design.md:83), with the exact condition.
- **The parts.**  Port allocation and its independence of order, the change detector, optimistic updates, recovery with
  retries, adoption, configuration replacement, controller names, proxy Deployments and the ownership label.

| file | what it holds |
|---|---|
| Text, Sequences, Kube, JsonTree | strings, sequences, Kubernetes values and their in-place rewriting, JSON trees |
| Upstream, Allocator, Canonical | listen ports: on values, on the heap, and when their order does not matter |
| ChangeCheck, Routing | the comparison of configurations; from service port to nginx entry |
| Takeover, Plan | what is to become of one original and of all, on values |
| Protocol, ApiServer | the state machine; the server with its log |
| Objects, Rendering, Preparation, Sync, Proxy | the takeover on the heap |
| Recovery, Cleaning, Adoption, Proxy | the cleanup |
| Reconciliation, Outcomes | any number of syncs and cleanups; what the whole comes to |
| Chart, OptimisticUpdate, Deployments, OwnerLabel | configuration and names; compare-and-swap; the controller; labels |

Code and documentation disagree in places; the code is followed.  The deprecating cleanup is documented to revert the
originals, but goes on to delete the forks if that failed (`Protocol.IgnoredFailureStrandsTraffic`).  An adopted canary
whose release is gone is logged as being deprecated, but nothing is done (`Proxy.Proxy.CleanupAdopted`).  The controller is
to keep a proxy running, but deletes one of an unexpected name before it creates another
(`Protocol.UnexpectedDeploymentStrandsTraffic`).  The specification's ports are to be split, but one whose manifest port
omits its protocol is sent nowhere (`Routing.OmittedProtocolIsNotRouted`).  Canary services are to follow the canary
configuration, but one that a failed sync has left unrecorded is not written again
(`Outcomes.CanaryIsAsRenderedExactly`).

## Model

| member | source | states |
|---|---|---|
| Protocol.SafeExactlyWhenGuarded | proxies/nginx/controller/proxy.go:913-1048 | a run of both processes is safe in every state exactly if forks and canary services are deleted only after their original stopped selecting the proxy, and the phase is written only after all did |
| Protocol.CarefulRunsAreSafe | proxies/nginx/controller/proxy.go:559-617 | every interleaving with current listers at cleanup and no ignored failed recovery is safe in every state |
| Protocol.LastDeploymentOutlivesTraffic | controller/controller/canary.go:257-312 | whatever its listers have shown, the controller's next call removes the last proxy Deployment from under an original that selects the proxy only if that one lacks the expected prefix and the call comes from a sync, which deletes such a one before it creates another |
| Protocol.LastDeploymentGoesExactly | controller/controller/canary.go:257-312 | some careful run and some next call of the controller do that if and only if, at the beginning, the CanaryRelease claims Deployments and none of them has the expected prefix (and there is a service) |
| Protocol.GuardedInvariant | controller/controller/canary.go:210-215 | the invariant of the two processes: phase and transition are never taken back, positions of the worker, and the least Deployment survives until the phase is written |
| Protocol.UnexpectedDeploymentStrandsTraffic | controller/controller/canary.go:286-305 | a careful run in which that happens |
| Protocol.LoadedByChange | proxies/nginx/controller/proxy.go:516-581 | the invariant behind the next row: while no sync since the process started has rendered another manifest than the recorded one, nginx has nothing loaded and no rollout begins |
| Protocol.ConfiguredExactlyWhenStartsUnused | proxies/nginx/controller/proxy.go:574-617 | for every run, whatever failed and whatever listers showed: in every state nginx has every original that selects the proxy configured, exactly if the proxy process was only ever started while none did |
| Protocol.ConfiguredExactlyWhenManifestChanged | proxies/nginx/controller/proxy.go:516-523 | after a start at any other time: if no sync has failed before it loaded nginx, then outside the part of a sync before that every original that selects the proxy is configured exactly if there is none or some sync since the start rendered a manifest other than the recorded one |
| Protocol.RolloutResumesExactly | proxies/nginx/controller/proxy.go:516-523 | between rounds, after a rollout failed anywhere: some way to go on with syncs of its manifest loads nginx if and only if the lister can still show a version with another manifest and no transition |
| Protocol.SettledRolloutIsNotResumed | proxies/nginx/controller/proxy.go:516-523 | otherwise none of them creates a fork, points an original or loads nginx |
| Protocol.IgnoredFailureStrandsTraffic | proxies/nginx/controller/proxy.go:1028-1041 | a run in which a failed recovery is logged and ignored, and traffic loses its fork and its proxy |
| Protocol.StaleListerStrandsTraffic | proxies/nginx/controller/proxy.go:895-897 | a run in which a lister that lags makes a recovery without error skip an original |
| Protocol.RestartLosesConfiguration | proxies/nginx/controller/proxy.go:516-523 | a run in which a restarted proxy renders the manifest that is recorded, so that its sync ends before nginx is loaded |
| ApiServer.Cluster.StartProxy | proxies/nginx/controller/proxy.go:73-82 | a restarted proxy finds nginx without configuration and the services as they were |
| ApiServer.Cluster.Interfere | controller/controller/canary.go:170-242 | between two calls listers advance, transitions are requested and Deployments change, as the protocol allows; services stay |
| ApiServer.Cluster.Deprecate | proxies/nginx/controller/proxy.go:365-375 | requests the transition, and does nothing if one is requested already |
| ApiServer.Cluster.CreateFork | proxies/nginx/controller/proxy.go:564-571 | creates a fork that does not exist; an existing one is reported and left |
| ApiServer.Cluster.UpdateService | proxies/nginx/controller/proxy.go:611-615 | a stored update needs the stored version; a failed one may have taken effect; either way the log goes on as a run |
| ApiServer.Cluster.WriteManifest | vendor/github.com/caicloud/rudder/pkg/kube/client.go:311-481 | the release client: with success each canary service is there; a new one is as it was sent, with the two owners; one that was as the manifest recorded last has it is as it was sent; one that was there although that manifest has none is as before; no other service changed; success needs that the client owns those that are there, and is sure then if no call fails |
| ApiServer.Cluster.WriteCanary | vendor/github.com/caicloud/rudder/pkg/kube/client.go:311-481 | the same for one: created, patched by what changed, or taken for done |
| ApiServer.Cluster.RecordManifest | proxies/nginx/controller/proxy.go:535-546 | the rollout goes on exactly if the manifest was recorded and that was reported |
| ApiServer.Cluster.Reload | proxies/nginx/controller/proxy.go:576-581 | nginx loads a configuration that splits exactly the requested ports of every original between its own fork and canary service, in the shares asked for, or keeps the one it has |
| ApiServer.Cluster.DeleteService | proxies/nginx/controller/proxy.go:869-879 | deletes that service or nothing; success means that it is gone |
| ApiServer.Cluster.PatchOwners | proxies/nginx/controller/proxy.go:1014-1017 | a merge patch replaces the whole owner list and nothing else |
| ApiServer.Cluster.WritePhase | proxies/nginx/controller/proxy.go:1043-1044 | the phase changes exactly if the patch was stored |
| Outcomes.TrafficIsSafe | proxies/nginx/controller/proxy.go:559-617 | whatever calls failed: every state of the log is safe, and of the services as they are an original that selects the proxy has its fork and its canary service, and none does once the phase is written; and nginx splits the traffic of exactly the ports of it that were requested, in the shares asked for, unless the proxy was started while some original selected it |
| Outcomes.TrafficIsConfigured | proxies/nginx/controller/proxy.go:574-617 | the half about nginx, of every state of every log, as an if and only if |
| Outcomes.ConfiguredExactlyWhenChanged | proxies/nginx/controller/proxy.go:516-581 | on the cluster, for a proxy started at any time: nginx serves the originals that select the proxy exactly if there are none or a sync since the start found a changed manifest; not in the part of a sync before nginx is loaded, nor after one that failed there |
| Outcomes.TakenOverIsRouted | proxies/nginx/controller/proxy.go:583-617 | after a completed sync, every port of an original: one that matches a manifest port first, by name or by number, leads to an entry that splits it between its own service's fork and canary at that port, the canary getting the share that was asked for, exactly if the specification lists the manifest port and that has its protocol and number, and gets target 0 if it does not list it; one that matches none is unchanged and leads there exactly if its target happens to be a place of its own; no second entry listens on a port |
| Outcomes.TakeOverAndRoute | proxies/nginx/controller/proxy.go:485-621 | the same of what nginx and the cluster hold after a call of the proxy's sync, for every port |
| Outcomes.DescribedIsRouted | proxies/nginx/controller/proxy.go:1050-1068 | so a port that a manifest with unique ports describes under the same name, protocol and number leads to its entry exactly if it was asked for, and otherwise gets target 0 |
| Outcomes.LeadsHomeExactly | proxies/nginx/controller/proxy.go:574-617 | whatever target an original has when nginx loads a configuration: its port leads to an entry of its own exactly if the target is a place in its own block of listen ports where that port was requested |
| Outcomes.NotYetPointedLeadsHomeExactly | proxies/nginx/controller/proxy.go:574-617 | nginx is reloaded before originals are pointed anew: a port of one that an earlier sync pointed still leads to its own entry exactly if the manifest port it matches first was asked for and its listen port is now a place in the service's own block where the port is asked for; if no port is asked for twice, exactly if both allocations have them at one listen port, and with unchanged own ports exactly if the services before it ask for as many ports as before |
| Outcomes.NewForksCarryTheManifest | proxies/nginx/controller/proxy.go:720-733 | every fork a sync created is what the manifest says, port by port and target by target, but as ClusterIP without the node ports of a NodePort service, and the canary is among its owners, in spite of the shared port array |
| Outcomes.CanaryIsAsRenderedExactly | proxies/nginx/controller/proxy.go:517-533 | after a sync that recorded its manifest a canary service is as rendered if and only if it is new, or the manifest recorded before has it, or it was as rendered before; so one that a sync wrote before it failed to record is never brought up to date |
| Reconciliation.TakeoverThenDeprecationRestores | proxies/nginx/controller/proxy.go:1024-1041 | however many syncs of a release there were, complete, failed or on stale or rewritten objects, and however many deprecating cleanups, one of which recovered while the fork was there: an original is as before its first fork if and only if it had no fork and was untouched, or agreed with the manifest and was not owned by the canary; nothing but owners, selector and target ports can differ |
| Reconciliation.CleanupKeeps | proxies/nginx/controller/proxy.go:1024-1041 | the invariant of one cleanup, recovered or not: what a recovery from the fork would make of an original, and an original that is that |
| Reconciliation.OneMoreRound | proxies/nginx/controller/proxy.go:485-621 | a sync on whatever the lister may hand out continues the sequence |
| Reconciliation.RoundKeeps | proxies/nginx/controller/proxy.go:559-617 | the invariant of one sync: an original is unchanged until its fork exists, and a recovery from the fork makes of it what it would have made of the first version |
| Reconciliation.HandedOutIsAkin | proxies/nginx/controller/proxy.go:583-617 | and so is every object the lister hands out, be it an old version or one that syncs rewrote in place |
| Outcomes.PartialTakeoverIsUndone | proxies/nginx/controller/proxy.go:585-617 | the same if and only if for one sync, which may have failed at any point |
| Outcomes.SyncIsRound | proxies/nginx/controller/proxy.go:485-621 | what the proxy's sync leaves, complete or not, is such a sync |
| Outcomes.SyncOnceMore | proxies/nginx/controller/proxy.go:485-621 | a call of the proxy's sync on objects that the lister may hand out continues the sequence, and the objects it leaves in the cache may be handed out again |
| Proxy.Proxy.constructor | proxies/nginx/controller/proxy.go:73-82 | a new proxy has no running configuration, and neither has nginx |
| Proxy.Proxy.Sync | proxies/nginx/controller/proxy.go:485-621 | what every sync leaves behind, however far it came: forks true, canary services written, originals as before or completely taken over from the version the lister showed, other services untouched; a completed one has all originals taken over and nginx and runningConfig on the generated configuration; runningConfig stays behind nginx if a later step failed; an unchanged manifest leaves nginx and services alone; with a changed one nginx is on the generated configuration, unless the sync took it for the running one, and then exactly if nginx was on that; an error means that something did not render, a call failed, the lister was behind or a canary service may not be written |
| Proxy.Proxy.WriteCanaries | proxies/nginx/controller/proxy.go:497-546 | only canary services are written; success means that the manifest was recorded and that each canary service has selector, ports, targets and type of its canary object, unless it was there without being recorded, or other than recorded |
| Proxy.Proxy.GetConfig | proxies/nginx/controller/proxy.go:548-551 | the configuration splits exactly the requested ports of every original, in the shares asked for, with one target per original in sorted order |
| Proxy.AgreeingIsRunning | proxies/nginx/controller/proxy.go:553-557 | the configuration found unchanged is exactly the running one |
| Proxy.Rollout | proxies/nginx/controller/proxy.go:559-617 | forks first, then nginx, then the originals; what each failure leaves |
| Proxy.Proxy.SyncCanaryRelease | proxies/nginx/controller/proxy.go:406-472 | one round of the worker keeps the log a possible run, and a careful one with current listers and no recovery given up; without a matching release and transition nothing but a request for deprecation happens; otherwise what Sync or Cleanup promises, with success if no call fails; only a cleanup writes a phase, the one requested |
| Proxy.Proxy.Cleanup | proxies/nginx/controller/proxy.go:833-1048 | nothing happens once the phase is written; whether or not it gets written: an adoption without an error and with a matching release means accepted replacement and originals handed over, all of them owned by the release alone if every patch succeeds, a deprecation whose recovery came through means originals reverted, one whose recovery was given up some of them; in both cases no fork and no canary service is left if every deletion succeeds; a written phase means that one of these happened; with current listers and no failing call all of it happens |
| Proxy.Proxy.CleanupDeprecated | proxies/nginx/controller/proxy.go:1024-1047 | with current listers each original is as before or reverted, and all are if the recovery came through, and nothing else changed but that forks and canary services go, all of them if no deletion fails; the rest is done even if the recovery failed |
| Proxy.Proxy.CleanupAdopted | proxies/nginx/controller/proxy.go:913-1022 | an adoption without its release, or at another version, returns no error, writes no phase and changes no service; otherwise success means accepted replacement and originals handed over, all of them if every patch succeeds |
| Proxy.Proxy.HandOver | proxies/nginx/controller/proxy.go:1013-1022 | the originals are owned by the release alone where the patch succeeded; no fork and no canary service is left if every deletion does |
| Sync.ForkOne | proxies/nginx/controller/proxy.go:561-572 | what is sent is the fork of the untouched manifest, owned by the canary |
| Sync.CreateForks | proxies/nginx/controller/proxy.go:559-572 | all creates see port arrays that no rewrite has touched |
| Sync.Retarget | proxies/nginx/controller/proxy.go:594-599 | in place, every port targets its listen port, or 0 without one |
| Sync.TakeOverOne | proxies/nginx/controller/proxy.go:585-615 | the generated and the cached service are rewritten in place whatever becomes of the update; skipped exactly if the cached one points already |
| Sync.PointOriginals | proxies/nginx/controller/proxy.go:583-617 | after any prefix of updates every original is as before or completely taken over from the version the lister showed, forks stay, and the lister's objects are as handed out or rewritten |
| Preparation.Prepare | proxies/nginx/controller/proxy.go:704-762 | rendered collections hold forked manifest, fork, renamed canary service and lister's service, and share nothing else that a sync writes |
| Preparation.Allocate | proxies/nginx/controller/proxy.go:639-699 | after sorting, every collection has the table of its own place in the allocation, over exactly its requested ports |
| Plan.ForkCreated | proxies/nginx/controller/proxy.go:564-571 | creating one fork keeps what is promised of all forks, originals and other services |
| Plan.OriginalUpdated | proxies/nginx/controller/proxy.go:611 | so does updating one original |
| Plan.CanariesWritten | proxies/nginx/controller/proxy.go:524-533 | so does writing canary services |
| Takeover.TakeoverThenDeprecation | proxies/nginx/controller/proxy.go:884-911 | for one service: recovery from the fork undoes the takeover if and only if the service agreed with the manifest and was not owned |
| Takeover.TakeoverKeepsRecovery | proxies/nginx/controller/proxy.go:601-611 | what a recovery from the fork makes of a service does not depend on takeovers before it, under whatever tables |
| Takeover.RecoveryChangesNothing | proxies/nginx/controller/proxy.go:898-904 | a recovery from the fork changes nothing if and only if the service agrees with the manifest and is not owned |
| Takeover.OnlyTargetsChange | proxies/nginx/controller/proxy.go:606-609 | of a service taken over or not, a recovery changes owners, selector and target ports only |
| Takeover.RecoveryIsIdempotent | proxies/nginx/controller/proxy.go:899-904 | a second recovery finds nothing left to do |
| Takeover.RecoveredExactly | proxies/nginx/controller/proxy.go:898-904 | a recovery gives what has the target's selector and, port by port, its targets, with owners without the canary if asked for, and is the original otherwise: if and only if |
| Takeover.TakenOverExactly | proxies/nginx/controller/proxy.go:606-609 | a takeover likewise, from the generated service, with the canary added to the owners |
| Takeover.FirstMatchByShape | proxies/nginx/controller/proxy.go:1050-1068 | which port is matched depends on names, protocols and numbers only |
| Routing.PortsAreRouted | proxies/nginx/controller/proxy.go:583-617 | allocation, rewriting and first-match copying compose: any port leads to an entry of its own exactly if the manifest port it matches first is listed and has its protocol and number, or it matches none and its target is a place of its own; the target is 0 if that manifest port is not listed |
| Routing.DescribedLeadsToOwn | proxies/nginx/controller/proxy.go:1050-1068 | a port that the manifest describes as it is does exactly if it is listed |
| Routing.OmittedProtocolIsNotRouted | proxies/nginx/controller/proxy.go:595-599 | a manifest is decoded without defaults (cmd/nginx-proxy/main.go:63), so a port whose first match, by name, omits its protocol gets target 0, listed or not |
| Routing.TableServes | proxies/nginx/controller/proxy.go:693 | a key is in a service's table exactly if its protocol and port are listed, and leads to an entry that serves them |
| Routing.TargetAfterTakeover | proxies/nginx/controller/proxy.go:601-609 | sent or skipped, the target of any port is the listen port of the manifest port it matches first, 0 if that has none, and its old target if it matches none |
| Routing.OwnEntryExactly | proxies/nginx/controller/proxy.go:656-693 | what listens on a port serves a service's port exactly if it is a place in that service's block where the port was requested, and gives the canary the share requested there: the weight within 0 and 100, nothing without one |
| Routing.ServedExactly | proxies/nginx/controller/proxy.go:656-693 | a configuration splits a port as asked exactly if it was requested |
| Routing.ShiftedExactly | proxies/nginx/controller/proxy.go:574-617 | a target that one allocation gave a manifest port leads home under another exactly if both tables have the two keys at one listen port |
| Routing.ShiftedByOthersExactly | proxies/nginx/controller/proxy.go:656-696 | with equal own ports, exactly if the port counts before the two columns are equal |
| Routing.FailedUpdateIsSkippedExactly | proxies/nginx/controller/proxy.go:601-615 | after a failed update the next sync on the same cached object sends nothing, exactly if cluster and manifest ports differ in no more than targets |
| Kube.PatchTargetPort | proxies/nginx/controller/proxy.go:1050-1059 | in place, each port takes the target of its first match and nothing else; what a match is say the next three |
| Kube.PatchedExactly | proxies/nginx/controller/proxy.go:1050-1068 | the first port with its non-empty name, or with its protocol and number, gives a port its target; without one it keeps its own |
| Kube.OwnPortIsMatched | proxies/nginx/controller/proxy.go:1050-1068 | among unique ports that is the port of its own name, protocol and number, wherever it is: TCP 53 never takes the target of UDP 53 |
| Kube.NamedPortIsMatched | proxies/nginx/controller/proxy.go:1060-1068 | or the one of its name although the number differs, unless another has its protocol and number |
| Kube.AppendOwnerIfNotExists | proxies/nginx/controller/util.go:142-153 | one owner more unless its UID is there |
| Kube.OwnerIsAppended | proxies/nginx/controller/util.go:142-153 | the list grows by that one owner at its end if and only if none has the UID |
| Kube.DeleteOwnerIfExists | proxies/nginx/controller/util.go:155-164 | all owners of that UID are gone, the others keep their order |
| Kube.OwnersAreRemoved | proxies/nginx/controller/util.go:155-164 | owner by owner: it goes exactly if it has the UID, and the order stays |
| Kube.OwnersRestoredExactly | proxies/nginx/controller/util.go:142-164 | appending and deleting restores the list if and only if the owner was not in it |
| Recovery.GetRelatedAndRecover | proxies/nginx/controller/util.go:166-202 | for any pattern of failures within five attempts, with listers current at each, originals are always as before or as after one clean recovery, and after success all are, with nothing else changed and no original, fork or canary service left out of the lists; only conflicts use up all five, and with current listers and no failing call the first succeeds |
| Recovery.GetRelated | proxies/nginx/controller/util.go:173-184 | a lister error empties one list and leaves the later ones as an earlier attempt had them |
| Recovery.RecoverSvcs | proxies/nginx/controller/proxy.go:884-911 | one attempt, up to the first failing update |
| Recovery.RecoverOne | proxies/nginx/controller/proxy.go:898-904 | a copy gets its owner removed, its targets and its selector |
| Recovery.GetSvcs | proxies/nginx/controller/proxy.go:852-866 | missing services are passed over, in the order of the specification |
| Recovery.RecoveryRestarts | proxies/nginx/controller/util.go:166-202 | a recovery started over on partly recovered services ends where one clean recovery does |
| Recovery.CurrentMissesNothing | proxies/nginx/controller/proxy.go:884-911 | with a current lister no original is left that selects the proxy and has a target |
| Cleaning.ResetOwners | proxies/nginx/controller/proxy.go:1013-1017 | each listed original is tried; the patched ones are owned by the release alone, and only owners changed |
| Cleaning.DeleteServices | proxies/nginx/controller/proxy.go:869-879 | each listed service is tried; nothing but forks and canary services goes, and all that are listed do if no deletion fails |
| Cleaning.RevertedAfterDeletion | proxies/nginx/controller/proxy.go:1024-1041 | the deletions leave the recovered originals recovered |
| Cleaning.HandedOverAfterDeletion | proxies/nginx/controller/proxy.go:1013-1022 | and the handed over ones handed over |
| Cleaning.HandedOverExactly | proxies/nginx/controller/proxy.go:884-911 | adopted, field by field: an original with a canary service has its selector, and each port the target of the canary's port that it matches first, or else its own; one without is as before but for the owner; the owner is the release wherever the patch succeeded |
| Cleaning.RevertedExactly | proxies/nginx/controller/proxy.go:884-911 | deprecated, field by field: the same from the fork, and of the owners the canary alone is gone |
| Adoption.AdoptConfig | proxies/nginx/controller/proxy.go:939-974 | success means that the release, or its vertex of the owning application, was accepted with exactly the replaced configuration; the cached release is changed even if the update failed; with no failing call it succeeds exactly if the canary's name has a suffix, the configuration can be replaced and the cached object is at the server's version |
| Adoption.AdoptWithRetries | proxies/nginx/controller/proxy.go:939-974 | after any number of failed attempts on one cached release the accepted configuration was replaced once more per failure unless an application owns the release: from revision k the server accepts k+1 exactly if one does or nothing failed; and none of the failed attempts had taken effect on the release |
| Adoption.RevisionAfter | pkg/chart/chart.go:31-37 | the revision after so many replacements |
| Adoption.SetVertex | proxies/nginx/controller/proxy.go:963-969 | the first vertex of the release's name is changed in place |
| Adoption.VertexAdopted | proxies/nginx/controller/proxy.go:964-969 | exactly that vertex; without one the application is sent unchanged |
| Adoption.GetControllerOf | proxies/nginx/controller/proxy.go:1070-1078 | the first owner that is an application |
| Adoption.ControllerOfExactly | proxies/nginx/controller/proxy.go:1070-1078 | by group version and kind |
| Rendering.RenderService | proxies/nginx/controller/proxy.go:704-762 | succeeds exactly if each name is in the manifest, in the lister and, at its turn, among the canary objects as renamed so far; every requested original is forked as a shallow copy, each canary object found is renamed in place |
| Rendering.EachRenamedOnce | proxies/nginx/controller/proxy.go:742-757 | each requested canary service, the first of its name, is renamed once and no other object changes, if and only if the names are distinct and found and a name that is another one with the suffix comes earlier among the objects |
| Rendering.UnrelatedIsInOrder | proxies/nginx/controller/proxy.go:742-757 | for distinct names, none requested like another one's canary service, that is so if and only if all are found in turn |
| Rendering.DistinctRendersOnce | proxies/nginx/controller/proxy.go:742-757 | among objects of distinct names nothing that is requested twice renders |
| Rendering.TurnInOrder | proxies/nginx/controller/proxy.go:742-747 | and then each turn finds the service of its own name |
| Rendering.ForkService | proxies/nginx/controller/proxy.go:720-733 | the fork shares its ports with the generated original, so that both lose the node ports |
| Rendering.RenameCanary | proxies/nginx/controller/proxy.go:748-757 | renamed in place |
| Rendering.GetService | proxies/nginx/controller/util.go:107-119 | the first service of that name |
| Upstream.AllocationIsExact | proxies/nginx/controller/proxy.go:639-699 | N ports listen on exactly 8080 to 8080+N-1, each in one of two strictly increasing lists |
| Upstream.ListenPortsAreConsecutive | proxies/nginx/controller/proxy.go:639-696 | the k-th entry listens on 8080+k |
| Upstream.EntryAt | proxies/nginx/controller/proxy.go:656-691 | every configured port has its entry at its own place |
| Upstream.EntryOrigin | proxies/nginx/controller/proxy.go:656-691 | and every entry is of a configured port |
| Upstream.PortsFitExactly | proxies/nginx/controller/proxy.go:639-696 | all listen ports are port numbers exactly up to 57456 ports |
| Upstream.TableLookup | proxies/nginx/controller/proxy.go:693 | the table sends a port to its own entry exactly if no later port has its protocol and number |
| Upstream.TableOfInjective | proxies/nginx/controller/proxy.go:693 | no two keys share a listen port |
| Upstream.KeyInjective | proxies/nginx/controller/util.go:102-105 | keys of dash-free protocols determine protocol and port |
| Upstream.KeyCollision | proxies/nginx/controller/util.go:102-105 | why that needs dash-free protocols, with values that no API server accepts |
| Allocator.GetUpstreamServices | proxies/nginx/controller/proxy.go:623-700 | sorts collections and ports in place; lists and tables are the allocation over the order that results |
| Allocator.AllocateColumn | proxies/nginx/controller/proxy.go:656-696 | the inner loop appends one column's entries and extends its table |
| Allocator.AllocatePort | proxies/nginx/controller/proxy.go:657-693 | one entry, in one list, under one key |
| Allocator.GetWeight | proxies/nginx/controller/proxy.go:625-637 | the weight asked for, clamped to 0..100, and what is left to 100 |
| Allocator.SortByPort | proxies/nginx/controller/util.go:62-74 | a sorted permutation |
| Allocator.SortByName | proxies/nginx/controller/util.go:48-60 | a sorted permutation |
| Canonical.AllocationIsCanonical | proxies/nginx/controller/proxy.go:641-650 | if the services that ask for ports have distinct sort names and each distinct port numbers, no order of services or ports changes what nginx gets, for any sort |
| Canonical.CanonicalExactly | proxies/nginx/controller/proxy.go:641-650 | every result of sorting configures nginx the same way if and only if no two services that ask for ports have one sort name |
| Canonical.RenderedIsCanonicalExactly | proxies/nginx/controller/proxy.go:709-711 | rendered collections all have the same, empty sort name: so if and only if at most one service asks for ports |
| Canonical.AllocationSorts | proxies/nginx/controller/util.go:48-74 | the views of an allocation are one such sort result |
| ChangeCheck.ChangeCheckIsExact | proxies/nginx/config/nginx.go:24-67 | on any two generated configurations the one-directional comparison is equality, hence symmetric and transitive |
| ChangeCheck.ConfigEqual | proxies/nginx/config/nginx.go:24-67 | the comparison: inclusion of both lists, and nil only equal to nil |
| ChangeCheck.EntryEqual | pkg/api/types_equals.go:8-28 | as many endpoints, each found in the other, and the rest equal |
| ChangeCheck.ConfigsAgreeReflexive | proxies/nginx/config/nginx.go:25-27 | the shortcut for one and the same configuration gives the result of the comparison |
| ChangeCheck.EntriesAgreeOneWay | pkg/api/types_equals.go:8-28 | in general the comparison is not symmetric |
| ChangeCheck.AllocatedEntriesEqual | proxies/nginx/controller/proxy.go:673-684 | a forked endpoint never matches a canary one |
| ChangeCheck.IncludedListsAreEqual | proxies/nginx/config/nginx.go:36-47 | inclusion of strictly increasing lists of one length is equality, by counting |
| Chart.ReplacementIsLocal | pkg/chart/chart.go:28-57 | one value is installed at the path, every disjoint path reads as before |
| Chart.InstalledReads | pkg/chart/chart.go:21-54 | the installed configuration is the new one but for its revision and its first controller name |
| Chart.ReplacementReads | pkg/chart/chart.go:13-57 | for the path first/rest, with the paths written out: at rest/_config the result has the new configuration under revision 2, one more than the integer there, or 1, and with the first controller renamed; it reads as before beside that |
| Chart.ReplaceableExactly | pkg/chart/chart.go:13-57 | it succeeds if and only if there is something at rest/_config and the new _config is an object whose first controller has a text for its name or none |
| Chart.ConfigPathOf | pkg/chart/chart.go:14-28 | the first segment of a path is skipped and _config appended |
| Chart.RevisionsCountUp | pkg/chart/chart.go:31-37 | n replacements lead from no revision to n+1, from an integer k to k+n, from anything else to n |
| Chart.RevisionsCountUpAt | pkg/chart/chart.go:14-37 | the same at rest/_config/_metadata/revision |
| Chart.ReplaceableAlways | proxies/nginx/controller/proxy.go:949-955 | what can be replaced once can be replaced again on its own result, any number of times |
| Chart.RebuildControllerName | pkg/chart/chart.go:60-75 | overwriting the last part and joining is the rebuilt name |
| Chart.RebuiltExactly | pkg/chart/chart.go:60-75 | a suffix takes the place of what follows the last dash if that is as long, and is appended behind a dash otherwise |
| Chart.SuffixOfRebuilt | proxies/nginx/controller/util.go:204-210 | the suffix of a rebuilt name is the one given |
| Chart.CanarySuffixExactly | proxies/nginx/controller/util.go:204-210 | the suffix is what follows the last dash, and empty without one |
| Chart.RebuildTwice | pkg/chart/chart.go:60-75 | rebuilding with an equally long suffix replaces the first one: names do not grow |
| JsonTree.GetReplaced | pkg/chart/chart.go:55 | what was set is read, at the path and below |
| JsonTree.GetElsewhere | pkg/chart/chart.go:55 | a disjoint path reads as before |
| JsonTree.GetSet | pkg/chart/chart.go:37-54 | a successful set is read back, whether the path existed or not |
| JsonTree.SetElsewhere | pkg/chart/chart.go:37 | and leaves every disjoint path below objects |
| JsonTree.ReadsMembersAndElements | pkg/chart/chart.go:43 | a name reads a member, a bracketed number an element counted from 0 |
| Text.SplitJoin | pkg/chart/chart.go:65-74 | splitting undoes joining of separator-free parts |
| Text.JoinSplit | pkg/chart/chart.go:65-74 | joining undoes splitting |
| OptimisticUpdate.NoLostUpdates | pkg/util/retry.go:25-54 | over every history of guarded writes the conditions are exactly those added, in order, and manifest, phase and transition exactly what the patches made them |
| OptimisticUpdate.FieldsAreSetLast | pkg/util/retry.go:25-54 | over every history phase, transition and proxy status are what was set last, and so is the manifest, which setting the phase removes; what was never set is as at first |
| OptimisticUpdate.ConditionsOnlyGrow | proxies/nginx/controller/condition.go:9-16 | earlier conditions are a prefix of later ones |
| OptimisticUpdate.UnguardedLosesPatch | pkg/util/retry.go:42-48 | without the version check a stale update undoes a patch unless it had changed nothing |
| OptimisticUpdate.UpdateWithRetries | pkg/util/retry.go:25-54 | nil means exactly one accepted update by this call, an error at most one, however stale the lister; if nothing but conflicts goes wrong it gives up after the fifth attempt |
| OptimisticUpdate.AddConditionTo | controller/controller/canary.go:508-515 | nil means that the condition was appended and nothing else changed in that write |
| OptimisticUpdate.RunUpdate | controller/controller/status.go:161-178 | the closures: append a condition; set the proxy status and append a condition with the reason of the first failing pod, if any |
| OptimisticUpdate.Server.SendUpdate | pkg/util/retry.go:42-50 | a conflict never takes effect, an accepted update is the newest version, another error may hide one |
| OptimisticUpdate.Server.SendPatch | proxies/nginx/controller/proxy.go:535-541 | a merge patch applies to the newest version |
| Deployments.SyncDeployments | controller/controller/canary.go:279-312 | whatever fails, the active Deployment is not deleted and none comes but the generated one; with no failing call and a current listing the sync succeeds and exactly the active one is left; a listing of just it needs no call; every call is an event of the protocol |
| Deployments.SyncCanaryRelease | controller/controller/canary.go:170-242 | one round of the worker, for whatever versions its listers show: clean up once the phase is written, else keep one Deployment, or none touched without a matching release; in careful runs an expected Deployment is there while an original selects the proxy, unless there never was one |
| Deployments.TrafficHasDeployment | controller/controller/canary.go:257-312 | the same of every state of a careful run |
| Deployments.DeleteExtras | controller/controller/canary.go:286-300 | the loop: all listed ones but the first expected one are tried, whether or not an earlier deletion failed |
| Deployments.ActiveIsLeast | controller/controller/canary.go:422-427 | the active one is the least with the expected prefix, or else the generated one |
| Deployments.DeletedIsNotLeast | controller/controller/canary.go:286-295 | what a sync deletes among the expected ones is never the least |
| Deployments.NextIsExtra | controller/controller/canary.go:286-300 | so that each deletion is one that the protocol allows |
| Text.PrefixIsLeast | controller/controller/canary.go:438 | the generated name is the least of the expected ones |
| Text.LessAtFirstDifference | controller/controller/canary.go:422-427 | names are ordered by their first difference, and a prefix comes first |
| Deployments.SecondSyncFindsOne | controller/controller/canary.go:279-312 | the next sync finds just the active one |
| Deployments.CleanupDeployments | controller/controller/canary.go:257-277 | nil means that none of the claimed ones is left |
| OwnerLabel.DecodingIsExact | controller/controller/status.go:191-200 | decoding gives the encoded pair exactly if neither part has a dot, otherwise an error, never another pair |
| OwnerLabel.LabelsAreDistinct | controller/controller/canary.go:164-168 | with dot-free namespaces distinct CanaryReleases have distinct labels and proxy selectors |
| OwnerLabel.DottedNamespacesCollide | pkg/api/know_keys.go:14-15 | a dotted namespace would let two share one |

## Left out

- Upstream.Entries: listen ports are unbounded integers, while the source counts them in 32 bits; they differ only after two thousand million configured ports, and port numbers are exceeded long before (`Upstream.PortsFitExactly`).
- Proxy.Proxy.Sync: no service is requested twice and rendered twice, for which two canary objects would have to carry its name; rendered services do not carry the proxy's own selector; canary services that no request renames, which the release client writes under their own names, are not modelled; and objects decoded from different texts share nothing; the manifest is one text, which splitting and merging give back.
- Proxy.Proxy.Cleanup: the ghost flag `current` marks the results that need the service lister to show what the server has at cleanup.
- Recovery.GetRelatedAndRecover: the suffix is one of the two that the callers pass; the error for any other one is not modelled.
- Outcomes.TrafficIsSafe: for a fixed list of services that nothing but the proxy writes, one proxy process at a time, and a transition that once requested stays requested; runs in which the CanaryRelease or the Release is deleted are not part of this model.
- ApiServer.Cluster.UpdateService: the server stores services exactly as they are sent; a real one turns target port 0, and the one that a manifest and hence its fork omits, into the port's number, and an omitted protocol into TCP. "Target 0", `Takeover.Agrees` and the results that rest on it are about the values before that.
- ApiServer.Cluster.WriteManifest: the services of the manifest recorded last are a parameter, like that manifest; what a patch makes of a canary service that is not as that manifest has it, which the server decides by merging, is left open; and services that only the last manifest has, which are deleted, are not modelled, as the names are fixed.
- ApiServer.Cluster.CreateFork: that no call fails, which results about success need, is one constant of the cluster, `reliable`; conflicts, missing objects and stale listers are no failures in that sense.
- ApiServer.Cluster.Interfere: nothing but the proxy writes services between its calls; users and other controllers that do are not modelled.
- Outcomes.TakeOverAndRoute: for originals whose ports are unique, as the API server demands, and whose matched manifest port has a protocol without a dash (`Upstream.KeyCollision`), and of which the lister showed the ports and the selector that the server had; a cached object that looks pointed because an earlier update of it failed is passed over (`Routing.FailedUpdateIsSkippedExactly`).
- Reconciliation.TakeoverThenDeprecationRestores: all syncs render one release manifest, while the canary configuration may change between them; an original whose fork was deleted before any recovery came through stays as it is (`Protocol.IgnoredFailureStrandsTraffic`).
- Adoption.AdoptWithRetries: nothing else writes the release between the attempts.
- OptimisticUpdate.UpdateWithRetries: a user's edits are patches, and the back-off times between attempts are left out.
- Deployments.SyncDeployments: takes the claimed Deployments already sorted; claiming and adopting them is library code, and so are the status and condition updates at its end.
- Deployments.SyncCanaryRelease: the lister has the CanaryRelease, which is not being deleted; deleting it because its release is gone has no effect here, and no second controller runs.
- Chart.ReplaceConfig: JSON is a tree (RFC 8259, section 4); escapes, duplicate names and the byte positions jsonparser works on are left out.
- Proxy.Proxy.SyncCanaryRelease: the lister always has the CanaryRelease, as it is never deleted here; an error of the release lister is the same as a failing render.
- Waiting for a new release version after an adoption, and for the cleanup before the process exits, only takes time.
- Conditions that sync and cleanup add around their work are modelled in OptimisticUpdate, not in the cluster's CanaryRelease.
- Other resources of a manifest than services: writing, patching and deleting them is a step that may fail.
- Templates and their rendering, the splitting and merging of manifests: the rendered objects, and the manifest they make up, are parameters.
- The nginx process, its template and its health checks: loading a configuration succeeds or leaves the old one.
- Informers, queues, event handlers, pods' display status, command-line flags, logging and timing.
- Strings are sequences of characters, so lengths are counted in characters where the source counts bytes.
