# Portainer core, modelled in Dafny

A model of the parts of Portainer whose correctness spans several functions, with proofs about it.
`dafny verify dfyconfig.toml` checks everything.

The modules follow the program's components:

- `Bucket`, `Keys`, `EndpointStore`: a BoltDB bucket as a map with a sequence counter and an
  ordered cursor, the byte keys under it, and the endpoint service with its single-transaction
  synchronization.
- `EndpointSync`, `SyncConvergence`, `FileMirror`, `EndpointSyncJob`, `SyncProxies`: the job that makes the
  stored endpoints follow an external file. Endpoints are heap cells: the first loop writes
  through a pointer into the slice that the second loop reads. `Pass` says what one run does to
  the database; the job is proved to do exactly that, and the rest is proved of `Pass` and of its
  iteration.
- `ResourceControls`, `ResourceControlApi`, `AccessControl`: the access predicates, the two scans
  that resolve a resource identifier, the handlers that keep the index unambiguous, and the lists
  and inspections of stacks and containers built on the scans.
- `Migration`, `Migrated`, `Migrator`: the guarded steps from database version 2. `Store.writesLeft` is how many
  more record writes succeed, so that a run can be cut short at every write.
- `ProxyManager`, `ProxyCoherence`, `EndpointRequests`, `EndpointApi`: the proxy cache, when it
  serves an endpoint with its own proxy, and the endpoint, endpoint group and proxy handlers.
- `Scheduler`, `Schedules`, `ScriptExecution`: the cron table that every update rebuilds, the
  handlers and the start of the server that tie it to the stored schedules, and the bounded retry.
- `Durations`, `KeyValues`, `AgentTarget`: the JavaScript translators and the header queue.

Objects the program updates in place are classes; their methods are proved against functions of
the old state, and the theorems are lemmas about those functions. Properties over histories are
loops over arbitrary requests (`Serve`, `Live`, `Operate`, `Run`, `RunRepeatedly`,
`MigrateOverRestarts`).
The bodies of some loops are methods of their own. What a function that a method is proved against
amounts to is stated a second time, field by field or by membership and order, without it
(`Mirrored`, `DatabaseMigrated`, `UpdatedAs`, `WholeRun` and the lemmas named for their meaning).

## Where code and documentation disagree

The model follows the code.

- Updating a job: the comments of `api/cron/scheduler.go:25-31` and `api/cron/scheduler.go:53-57` speak of updating the
  schedule of a job. The rebuilding loops keep the old entry beside the new one, so each
  successful update doubles the entries (`Scheduler.JobScheduler.UpdateAgainAndAgain`).
- Without a resource control, the comment at `api/http/proxy/access_control.go:36-37` says
  "authorized access (false)", which contradicts itself; the code grants access to administrators
  only (`AccessControl.ApplyResourceAccessControl`).

## What goes wrong, and exactly when

Each item names a history or an input that shows it and the theorem that delimits it.

- A file with several valid entries of one name creates one endpoint per entry
  (`SyncConvergence.EntriesCreatedApart`), and a second run brings them all to the definition of
  the first. `SyncConvergence.SharedNameNeedsTwoRuns` is a file for which one run is not enough,
  `SyncConvergence.OneRunSuffices` says exactly when one is, `SyncConvergence.Convergence` that two
  always are.
- The two resource control scans differ on an identifier that several controls claim only as a
  sub-resource. `ResourceControlApi.SharedSubResource` reaches such a state through the handlers;
  `ResourceControls.ScansAgree` is the exact condition.
- Cached proxies are keyed by Go's conversion of the identifier to a string, which maps the
  surrogates 0xD800 to 0xDFFF, 0xFFFD and everything above 0x10FFFF to one key
  (`Keys.ProxyKeyCollision`). The cache is nevertheless always coherent: what it holds under a key
  is the proxy of some stored endpoint with that key. An endpoint is served by its own proxy, in
  every history, exactly when no other stored endpoint shares its key and has a different proxy:
  one half is `EndpointApi.Api.Serve`, the other `EndpointApi.Api.RivalTakesOver`.
  `EndpointApi.SharedCacheKey` is a history that goes wrong. As long as at most 0xD800
  identifiers have been allocated, none can (`ProxyCoherence.FirstIdentifiersAreDistinct`).
- When a TLS file cannot be stored, `api/http/handler/endpoints/endpoint_create.go:279-282` looks at
  another error and creates the endpoint with the paths there are (`EndpointApi.Api.CompleteDocker`).
- Nothing checks that the group given to an endpoint exists, and the list filter dereferences it:
  `EndpointApi.GroupThatIsNotThere` is a history that makes the list fail.
- At its start the server schedules the stored scripts by runners that all point to the variable of
  one `for ... range` loop (`api/cmd/portainer/main.go:199-210`). Before Go 1.22 that is one variable for
  all rounds, so every entry runs the schedule that is stored last. `Schedules.SecondStart` is a
  history after which a stored script has no entry; `Schedules.Handler.Start` says exactly when
  all scripts run. System schedules that are stored are not scheduled again at all
  (`api/cmd/portainer/main.go:124-131`, `api/cmd/portainer/main.go:162-169`).
- The list and the inspection of a container try its labels in different orders, and can show two
  different controls: `AccessControl.ShownDifferently` is such a container, `AccessControl.ShownAlike`
  the exact condition.

## Model

| member | source | states |
|---|---|---|
| Keys.Itob | api/bolt/internal/db.go:13-17 | The eight bytes written are the big-endian form of the identifier taken as unsigned 64-bit. |
| Keys.IdKeyOrder | api/bolt/internal/db.go:13-17 | Over all signed 64-bit identifiers: keys are equal exactly for equal identifiers, and byte order is unsigned order, hence numeric order among non-negative ones. |
| Keys.BigEndianOrder | api/bolt/internal/db.go:13-17 | For any width: byte order of the encodings is the order of the numbers. |
| Keys.BigEndianBytes | api/bolt/internal/db.go:13-17 | Each byte of a key is the last byte of the identifier after shifting out those behind it. |
| Keys.CursorOrderIsIdOrder | api/bolt/endpoint/endpoint.go:64-72 | A list of non-negative identifiers ascends exactly when their byte keys do, so a cursor walk is a walk in identifier order. |
| Keys.RuneRoundTrip | api/http/proxy/manager.go:81 | Go's integer-to-string encoding (section 3 of RFC 3629) can be decoded for every code point. |
| Keys.RuneBytes | api/http/proxy/manager.go:81 | The encoding has the length, the leading byte and the continuation bytes of section 3 of RFC 3629. |
| Keys.ProxyKeyCollision | api/http/proxy/manager.go:81 | Two identifiers have the same cache key exactly when they are equal or neither is a code point other than U+FFFD. |
| Bucket.Position | api/bolt/endpoint/endpoint.go:64-72 | Every stored key is visited by the cursor, at some place of the ascending order. |
| Bucket.Bucket.Cursor | api/bolt/endpoint/endpoint.go:64-72 | Repeatedly taking the next key visits exactly the stored keys, once each, in ascending order. |
| Bucket.Bucket.Records | api/bolt/endpoint/endpoint.go:58-78 | The records come in cursor order. |
| Bucket.Bucket.GetNextIdentifier | api/bolt/internal/db.go:82-94 | The sequence plus one, with nothing advanced. |
| EndpointStore.EndpointService.Endpoints | api/bolt/endpoint/endpoint.go:58-78 | All endpoints in key order, each in a fresh cell of its own, so that callers may write to them. |
| EndpointStore.EndpointService.CreateEndpoint | api/bolt/endpoint/endpoint.go:81-98 | The record is stored under its identifier, which becomes the sequence. |
| EndpointStore.EndpointService.Synchronize | api/bolt/endpoint/endpoint.go:106-146 | Creates get the identifiers after the sequence and are written back into their cells; then updates, then deletes are applied; nothing else changes. |
| EndpointStore.EndpointService.CreateAt | api/bolt/endpoint/endpoint.go:110-123 | One creation: next sequence number, assigned through the pointer, stored under it. |
| EndpointStore.DeleteAllRemoves | api/bolt/endpoint/endpoint.go:137-142 | Exactly the keys of the listed records disappear, the others keep their records; the effect of a plan rests on it. |
| EndpointSync.FindValid | api/cron/job_endpoint_sync.go:136-143 | The first valid entry of a name, and -1 exactly when there is none. |
| EndpointSync.EndpointExists | api/cron/job_endpoint_sync.go:136-143 | The loop returns the first valid cell of the name, read from the heap as it is. |
| EndpointSync.MergeRequiredMeaning | api/cron/job_endpoint_sync.go:147-151 | The chain of comparisons holds exactly when the two differ in URL or in the TLS settings that take effect. |
| EndpointSync.MergeEndpointIfRequired | api/cron/job_endpoint_sync.go:145-169 | The original is overwritten in URL and TLS settings only, and returned, exactly when it differs in configuration from the entry; otherwise it is untouched. |
| FileMirror.UsableIsValid | api/cron/job_endpoint_sync.go:104-112 | An entry is valid exactly when it has a name and an address that is "unix://" or "tcp://" followed by anything. |
| FileMirror.FollowsMeans | api/cron/job_endpoint_sync.go:136-169 | An endpoint follows the file exactly when it has the address of the first usable entry of its name, and its TLS material or no TLS. |
| EndpointSync.Merged | api/cron/job_endpoint_sync.go:145-169 | The merge has the configuration of the entry and everything else of the stored endpoint. |
| EndpointSync.ConvertFileEndpoints | api/cron/job_endpoint_sync.go:114-134 | One fresh endpoint per entry, in order, whose TLS material is kept only when TLS is on. |
| EndpointSync.PrepareSyncData | api/cron/job_endpoint_sync.go:178-214 | The stored cells end up reconciled; updates and deletes are the flagged stored cells in order; creates are chosen by looking entries up among the cells as rewritten; the file is unchanged. |
| EndpointSync.ReconcileStored | api/cron/job_endpoint_sync.go:183-195 | The first loop. |
| EndpointSync.ReconcileAt | api/cron/job_endpoint_sync.go:184-194 | One round of it: only the cell at the index changes. |
| EndpointSync.MissingEntries | api/cron/job_endpoint_sync.go:197-207 | The second loop: valid entries that no cell, as the first loop left it, matches. |
| EndpointSync.PlansDisjoint | api/cron/job_endpoint_sync.go:183-207 | No stored endpoint is both updated and deleted, and an entry is created exactly when it is valid and no stored endpoint has its name, even one with a malformed URL. |
| EndpointSync.RewrittenIsValid | api/cron/job_endpoint_sync.go:152-153 | The write through the pointer makes a stored endpoint valid whenever a valid entry names it. |
| EndpointSync.StaleReadWouldDuplicate | api/cron/job_endpoint_sync.go:152-207 | The aliasing is needed: there are a stored endpoint and an entry of its name for which a second loop reading the stored endpoints as they were would create a duplicate. |
| SyncConvergence.CreatePlan | api/cron/job_endpoint_sync.go:197-207 | Looking entries up among the rewritten records selects exactly the valid entries whose name is not stored. |
| SyncConvergence.PlanEffect | api/bolt/endpoint/endpoint.go:106-146 | Applying a plan in one transaction gives exactly the old store minus the endpoints without an entry, the rest following their entry, plus the missing entries under unused identifiers. |
| SyncConvergence.PutNumbered | api/bolt/endpoint/endpoint.go:110-123 | Creation adds a map under the identifiers that follow the sequence and overwrites nothing else. |
| SyncConvergence.RequireSyncMeaning | api/cron/job_endpoint_sync.go:171-176 | The job sees work to do exactly when the store is not in sync with the file. |
| SyncConvergence.InSyncMirrors | api/cron/job_endpoint_sync.go:136-214 | Being in sync is: stored names are exactly the valid names, and each endpoint has the URL of the first valid entry of its name and, as far as a merge compares them, its TLS settings. |
| FileMirror.PassMirrors | api/cron/job_endpoint_sync.go:62-94 | In the words of the file: after one run the stored names are exactly the usable names; stored endpoints stay exactly under such names, keep all but address and TLS settings, and are like the first entry of their name; every usable entry of a new name has become an endpoint with nothing but what it says, and nothing else has. |
| FileMirror.InSyncMeans | api/cron/job_endpoint_sync.go:171-176 | In the words of the file: a store is in sync exactly when its names are the usable names and each endpoint is like the first entry of its name. |
| SyncProxies.CleanFollowersHaveTheirProxy | api/http/proxy/manager.go:47-71 | An endpoint that follows the file also has the proxy of its entry, for any proxy constructors, when the TLS settings a merge ignores do not count for its kind. |
| SyncProxies.OthersMayNot | api/http/proxy/manager.go:49-52 | That condition is exact; the rows below say that no history leaves a record without it. |
| SyncProxies.PassKeepsClean | api/cron/job_endpoint_sync.go:145-207 | A run of the job leaves only such endpoints if it finds only such. |
| SyncProxies.HistoryKeepsClean | api/bolt/endpoint/endpoint.go:46-146 | So does every history of runs and of operations given such records. |
| SyncProxies.MigrationCleans | api/bolt/migrator/migrate_dbversion10.go:11-25 | A migration from before version 11 leaves only such endpoints, whatever it finds; a later one keeps them. |
| SyncProxies.MirrorHasProxiesOfFile | api/cron/job_endpoint_sync.go:62-94 | From the second run on, every stored endpoint has the proxy of its file entry, for any proxy constructors. |
| SyncProxies.ServeThenFollow | api/cron/job_endpoint_sync.go:62-94 | After any history of requests and restarts, two or more runs of the job leave a mirror of the file in which every endpoint has the proxy of its entry. |
| SyncConvergence.SurvivorFollows | api/cron/job_endpoint_sync.go:145-195 | A stored endpoint survives exactly when a valid entry names it, then follows it, and keeps group, accesses, tags, snapshots and type. |
| SyncConvergence.CreatedFrom | api/cron/job_endpoint_sync.go:197-207 | A key that is new after a run lies just past the sequence and holds a missing entry. |
| SyncConvergence.CreatedAt | api/cron/job_endpoint_sync.go:197-207 | Every missing entry is stored by the run. |
| SyncConvergence.AfterPass | api/bolt/endpoint/endpoint.go:106-146 | A run keeps records under their own identifiers and the sequence ahead of all keys, leaves no valid name missing and no endpoint without an entry. |
| SyncConvergence.OneRunSuffices | api/cron/job_endpoint_sync.go:136-214 | One run reaches a mirror of the file exactly when every entry it creates agrees with the first valid one of its name. |
| SyncConvergence.EntriesCreatedApart | api/cron/job_endpoint_sync.go:197-207 | Any two missing entries, of one name or not, get endpoints of their own with identifiers in file order. |
| SyncConvergence.SharedNameNeedsTwoRuns | api/cron/job_endpoint_sync.go:136-214 | On an empty store, two valid entries of one name with different URLs are not in sync after one run, and are after two. |
| SyncConvergence.DistinctNamesNeedOneRun | api/cron/job_endpoint_sync.go:136-214 | Pairwise distinct valid names make one run enough. |
| SyncConvergence.InSyncIsFixpoint | api/cron/job_endpoint_sync.go:85-93 | A run on a store in sync changes nothing, not even the sequence. |
| SyncConvergence.Convergence | api/cron/job_endpoint_sync.go:62-94 | For every store and file, two runs reach a mirror of the file and all later runs leave it as it is. |
| SyncConvergence.IdentifiersNeverReused | api/bolt/endpoint/endpoint.go:81-123 | Over every history of creates, updates, deletes and synchronizations: identifiers are allocated consecutively and never again, so key order is creation order. |
| SyncConvergence.RemovedNeverReturns | api/bolt/endpoint/endpoint.go:81-123 | An identifier that a history held and then lost is in no later state. |
| EndpointSyncJob.EndpointSyncJobRunner.Operate | api/bolt/endpoint/endpoint.go:46-146 | The service methods and the job themselves, run in any order, leave the store that such a history says; an allocated identifier that is not in use stays unused. |
| EndpointSyncJob.EndpointSyncJobRunner.Run | api/cron/job_endpoint_sync.go:62-94 | The job does exactly one pass, which mirrors the file in the sense of PassMirrors, or nothing when the file cannot be read or is empty. |
| EndpointSyncJob.EndpointSyncJobRunner.RunRepeatedly | api/cron/job_endpoint_sync.go:62-94 | Running the job itself n times iterates the pass; from the second run on the stored names are the usable names and every endpoint is like the first entry of its name. |
| EndpointSyncJob.EndpointSyncJobRunner.Apply | api/cron/job_endpoint_sync.go:86-92 | The slices of pointers handed over denote the plan, and the transaction is that plan's. |
| EndpointSyncJob.PlanCells | api/cron/job_endpoint_sync.go:178-214 | The created cells are distinct and shared with no update or delete, so numbering them changes no other part of the plan. |
| EndpointSyncJob.PickContents | api/cron/job_endpoint_sync.go:178-214 | Selecting cells and reading them is reading them and selecting. |
| ResourceControls.AccessPredicatesCoincide | api/http/security/authorization.go:12-62 | For every control and non-administrator, access, deletion and the proxy's access predicate agree. |
| ResourceControls.AuthorizedCreationKeepsAccess | api/http/security/authorization.go:68-118 | Whoever may create a control or change it to a new definition may afterwards access and delete it. |
| ResourceControls.AccessMeans | api/http/security/authorization.go:12-62 | Access and deletion are for administrators, for everyone if the control is public, for its users and for members of its teams. |
| ResourceControls.CreationMeans | api/http/security/authorization.go:68-118 | Exactly which controls a caller may create: any for administrators, public ones, those for the caller alone, and those for teams of which one is the caller's, never for a second user nor for one user and one team; a change may list no users. |
| ResourceControls.ClaimsMean | api/http/proxy/access_control.go:111-123 | A control claims its own identifier and those in its list of sub-resources. |
| ResourceControls.GetResourceControlByResourceID | api/http/proxy/access_control.go:111-123 | The proxy scan finds nothing exactly when no control claims the identifier. |
| ResourceControls.ProxyScanResult | api/http/proxy/access_control.go:111-123 | It returns the first claimant, by either kind of claim. |
| ResourceControls.DatabaseScanResult | api/bolt/resourcecontrol/resourcecontrol.go:47-82 | The database scan returns the first control whose own identifier it is, else the last control with it as a sub-resource, else nothing. |
| ResourceControls.OwnIdentifierResolves | api/bolt/resourcecontrol/resourcecontrol.go:47-82 | When no control's own identifier is claimed by an earlier one, both scans resolve it to that control. |
| ResourceControls.ScansAgree | api/http/proxy/access_control.go:111-123 | Under that rule the two scans agree on an identifier exactly when it is some control's own or has at most one claimant. |
| ResourceControlApi.ScanIsExclusive | api/http/handler/resourcecontrols/resourcecontrol_create.go:66-72 | The state the handlers keep, read in cursor order, satisfies that rule. |
| ResourceControlApi.EveryControlResolves | api/http/handler/resourcecontrols/resourcecontrol_create.go:66-72 | In that state each control is what both scans find under its own identifier. |
| ResourceControlApi.ResourceControlService.ResourceControlByResourceID | api/bolt/resourcecontrol/resourcecontrol.go:47-82 | The nested loops, whose inner break does not end the outer one, compute the specified scan. |
| ResourceControlApi.ResourceControlService.CreateResourceControl | api/bolt/resourcecontrol/resourcecontrol.go:108-122 | The record gets the next sequence number and is stored under it. |
| ResourceControlApi.FoundMeansClaimed | api/http/handler/resourcecontrols/resourcecontrol_create.go:66-72 | The conflict lookup succeeds exactly when some stored control claims the identifier. |
| ResourceControlApi.Handler.ResourceControlCreate | api/http/handler/resourcecontrols/resourcecontrol_create.go:39-116 | Over payload and caller: succeeds exactly for a complete payload on a resource no control is about that the caller may create; then one new record with exactly what the payload says, accessible to exactly whom it lists; the index rule is kept. |
| ResourceControlApi.Handler.ResourceControlUpdate | api/http/handler/resourcecontrols/resourcecontrol_update.go:27-87 | Over payload and caller: succeeds exactly when the caller may access the control and make the change; then users, teams and visibility are those of the payload and all else stays; the index rule is kept. |
| ResourceControlApi.Handler.ResourceControlDelete | api/http/handler/resourcecontrols/resourcecontrol_delete.go:14-42 | Deletes exactly for callers allowed to, and nothing else. |
| ResourceControlApi.Handler.Serve | api/http/handler/resourcecontrols/resourcecontrol_create.go:66-72 | After every history of requests from any callers, both scans resolve each control's own identifier to that control. |
| ResourceControlApi.SharedSubResource | api/bolt/resourcecontrol/resourcecontrol.go:60-75 | A state reached by two creations in which the database scan returns the last claimant of a sub-resource and the proxy scan the first. |
| AccessControl.CanAccessStack | api/http/proxy/access_control.go:126-141 | Grants exactly when a control exists and the access predicate holds for a non-administrator. |
| AccessControl.FilterStacks | api/http/proxy/access_control.go:144-166 | The list is the stacks the caller is shown, in order, each with the control found. |
| AccessControl.ShownMeans | api/http/proxy/access_control.go:126-166 | Who is shown a stack with which control, in terms of the users and teams of the control. |
| AccessControl.ListedMeans | api/http/proxy/access_control.go:144-166 | The list has an entry for each stack the caller is shown, in order, and no other. |
| AccessControl.StackHandler.StackInspect | api/http/handler/stacks/stack_inspect.go:15-52 | Not found exactly for an unknown identifier; otherwise the stack is shown or refused by the same rule over the database scan. |
| AccessControl.ListAgreesWithInspect | api/http/proxy/access_control.go:144-166 | For every caller, list and inspection show the same stack with the same control or both refuse, exactly when the stack name is some control's own or claimed at most once. |
| AccessControl.ListIsInspectable | api/http/handler/stacks/stack_inspect.go:28-51 | The whole list equals what inspecting each stack would give, in order. |
| AccessControl.FoundIsListed | api/http/proxy/access_control.go:111-123 | A control the scan returns is one of those in force. |
| AccessControl.ApplyResourceAccessControl | api/http/proxy/access_control.go:40-54 | Access exactly when the identifier admits the caller; a refusal leaves the object as it was; a grant to a non-administrator decorates it with a control that grants that caller. |
| AccessControl.ApplyResourceAccessControlFromLabel | api/http/proxy/access_control.go:22-30 | The same through a label, and a refusal when the label is absent. |
| AccessControl.ShownAlike | api/http/proxy/containers.go:51-168 | List and inspection leave the same control on a container exactly when its own identifier decides, or its compose project and its service or swarm stack do not grant access through different controls. |
| AccessControl.ShownDifferently | api/http/proxy/containers.go:68-158 | A container of a service and of a compose project with a public control each, which the two show differently. |
| AccessControl.ChoicesMean | api/http/proxy/containers.go:51-161 | The order in which identifier and labels, by their names, are asked by the list and by an inspection. |
| AccessControl.AdmitsMeans | api/http/proxy/access_control.go:40-54 | Whom an identifier lets in, in terms of the first control that claims it. |
| AccessControl.AccessibleMeans | api/http/proxy/containers.go:51-86 | A container is reached through its identifier or the value of one of the three labels. |
| AccessControl.ChoicesAreGood | api/http/proxy/access_control.go:40-54 | In either order the control chosen for anyone but administrators is in force and grants that caller access. |
| AccessControl.ApplyInTurn | api/http/proxy/containers.go:150-161 | The list's order of checks decides as the disjunction of identifier and three labels, and leaves the control of the first that grants access. |
| AccessControl.FilterContainerList | api/http/proxy/containers.go:140-168 | An error exactly when a container has no identifier; otherwise the accessible containers in order, each with the control that the order of the checks chooses, which for non-administrators is in force and grants the caller access. |
| AccessControl.ContainerInspectOperation | api/http/proxy/containers.go:51-86 | Succeeds exactly on accessible containers although the labels are tried in another order, and leaves the control that this order chooses; refusal leaves the container undecorated. |
| AccessControl.ListThenInspect | api/http/proxy/containers.go:51-168 | For any list of containers, with equal labels: the list fails exactly when some inspection finds no identifier, and otherwise is, in order, exactly the containers whose inspection succeeds; both show the same control exactly where ShownAlike says. |
| Migration.StepsCompose | api/bolt/migrator/migrator.go:81-187 | For any start and end version, running the guarded steps in order leaves each record in a closed form that depends only on the two versions, and deletes exactly the administrators-only controls once version 14 is passed. |
| Migrated.StepsMigrate | api/bolt/migrator/migrator.go:81-187 | Field by field, by the version started from: agents have TLS without verification, nothing else skips verification without TLS, files stay where they were or come from the legacy fields before version 4, and what becomes of types, groups, tags, extensions, settings and controls. |
| Migration.RerunAbsorbs | api/bolt/migrator/migrate_dbversion10.go:11-25 | Doing part of the steps and then all of them from the same start is doing them once, per endpoint and settings record. |
| Migration.OrderMatters | api/bolt/migrator/migrate_dbversion10.go:11-25 | The version 11 TLS step run before the version 10 type step would not be absorbed. |
| Migration.RestartAbsorbs | api/bolt/migrator/migrator.go:81-187 | From a state where any subset of the records of some step is rewritten, a full rerun gives the whole database of an uninterrupted run. |
| Migration.RestartReachesSameState | api/bolt/migrator/migrator.go:81-187 | After every interruption a rerun goes exactly as far as the uninterrupted run, be it to a missing settings record, and reaches the same database. |
| Migrator.Migrator.Assign | api/bolt/migrator/migrate_dbversion3.go:11-25 | The field assignments of the endpoint loops amount to the step on that record. |
| Migrator.Migrator.RewriteEndpoints | api/bolt/migrator/migrate_dbversion10.go:11-25 | A loop that completes has rewritten every endpoint; one that is cut short has left each either untouched or rewritten. |
| Migrator.Migrator.RewriteGroups | api/bolt/migrator/migrate_dbversion11.go:31-47 | The same for groups. |
| Migrator.Migrator.DeleteControls | api/bolt/migrator/migrate_dbversion13.go:3-19 | Only administrators-only controls are ever deleted, and all of them when the loop completes. |
| Migrator.Migrator.RewriteSettings | api/bolt/migrator/migrate_dbversion12.go:5-17 | The settings record is changed as a whole or not at all; a missing one is an error. |
| Migrator.EachIsAt | api/bolt/migrator/migrate_dbversion9.go:11-17 | After n writes of a cursor-ordered loop every record is rewritten or untouched, and all are rewritten at its end. |
| Bucket.WalkDone | api/bolt/endpoint/endpoint.go:58-78 | A loop over the cursor order that rewrites each record it meets has rewritten all of them. |
| Migrator.PartialStep | api/bolt/migrator/migrator.go:81-187 | A step left unfinished is a state between the one before and the one after it. |
| Migrator.Migrator.Advance | api/bolt/migrator/migrator.go:81-187 | A guarded step takes the database from the previous version's form to its own, or is skipped, or stops in between. |
| Migrator.Migrator.Migrate | api/bolt/migrator/migrator.go:62-190 | Completion means every step was done, every record is as StepsMigrate says, and the version is stored; any other outcome leaves the version and a restartable state. |
| Migrator.IncompleteRun | api/bolt/migrator/migrator.go:81-187 | After a run that did not complete, a run from the same version still has the original target state. |
| Migrator.MigrateOverRestarts | api/bolt/datastore.go:122-158 | However many runs are cut short at whatever write, the database after the first completed one is that of a single uninterrupted run, as StepsMigrate describes it, and until then the version is unchanged. |
| ProxyManager.Manager.CreateAndRegisterProxy | api/http/proxy/manager.go:75-83 | The proxy built from the endpoint is cached under its key; a failure leaves the cache as it was. |
| ProxyManager.ProxyMeaning | api/http/proxy/manager.go:47-71 | Which proxy each type of endpoint has, by scheme and TLS settings, and that an address that cannot be parsed has none. |
| ProxyManager.Manager.DeleteProxy | api/http/proxy/manager.go:95-97 | Removes one key only. |
| ProxyCoherence.CoherentAfterRecord | api/http/handler/endpoints/endpoint_update.go:154-164 | Storing a record keeps each cached proxy that of some stored endpoint with its key, if the proxy is re-registered or nothing it depends on changed. |
| ProxyCoherence.CoherentAfterDelete | api/http/handler/endpoints/endpoint_delete.go:39-44 | So does deleting a record and its key. |
| ProxyCoherence.UnrivalledServesOwn | api/http/proxy/manager.go:86-92 | In a coherent cache an endpoint without rival finds its own proxy or none. |
| ProxyCoherence.OwnProxyExactlyWhenUnrivalled | api/http/proxy/manager.go:57-92 | All coherent caches serve an endpoint with its own proxy exactly when no other stored endpoint has its key and a different proxy. |
| ProxyCoherence.KeysDistinctExactly | api/http/proxy/manager.go:81 | Stored cache keys are pairwise distinct exactly when at most one stored identifier is negative, a surrogate, 0xFFFD or above 0x10FFFF. |
| ProxyCoherence.FirstIdentifiersAreDistinct | api/http/proxy/manager.go:81 | Which is so while at most 0xD800 identifiers have been allocated. |
| ProxyCoherence.DistinctKeysHaveNoRivals | api/http/proxy/manager.go:81 | Distinct keys leave no endpoint with a rival. |
| EndpointApi.Api.constructor | api/bolt/datastore.go:91-111 | A fresh server has the unassigned group, no endpoint and no proxy, and satisfies both invariants. |
| EndpointApi.Api.EndpointCreate | api/http/handler/endpoints/endpoint_create.go:130-310 | Exact conditions of each answer; on success one record under the next, unused identifier, in the unassigned group unless given one, with URL, type, TLS settings, status and snapshot by what the environment answers; invariants kept, groups iff the given group exists. |
| EndpointRequests.CreateErrorsMeaning | api/http/handler/endpoints/endpoint_create.go:35-257 | Exactly which payloads and answers of the environment make a creation fail. |
| EndpointRequests.DraftMeaning | api/http/handler/endpoints/endpoint_create.go:160-338 | Every field of a created endpoint, by payload and environment; TLS paths up to the first file that could not be stored. |
| EndpointApi.Api.ExamineDocker | api/http/handler/endpoints/endpoint_create.go:198-257 | A Docker environment is refused exactly when it has to be pinged and does not answer, or TLS material cannot be read; an agent is recognised by the ping alone. |
| EndpointApi.Api.CompleteDocker | api/http/handler/endpoints/endpoint_create.go:279-335 | TLS files that cannot be stored do not stop the creation; a failed snapshot means a status of down. |
| EndpointApi.Api.EndpointUpdate | api/http/handler/endpoints/endpoint_update.go:34-167 | Succeeds exactly when neither Azure nor the file service refuses and a proxy, if a new one is due, can be built; then exactly the payload's fields and that proxy change; otherwise store and cache stay as they were. |
| EndpointRequests.UpdateMeaning | api/http/handler/endpoints/endpoint_update.go:57-159 | Every field of an updated endpoint, TLS settings by each flag, when Azure or the file service refuses and when a new proxy is due. |
| EndpointApi.Api.ApplyPayload | api/http/handler/endpoints/endpoint_update.go:57-152 | The field assignments give the updated endpoint; refused exactly when Azure or the file service refuses. |
| EndpointApi.Api.UpdateTLS | api/http/handler/endpoints/endpoint_update.go:110-152 | Turning TLS off clears all settings; turning it on changes only what the skip flags say. |
| EndpointApi.Api.EndpointDelete | api/http/handler/endpoints/endpoint_delete.go:14-48 | Fails exactly when the TLS files of a TLS endpoint cannot be removed; the record and its proxy go together, or neither does; no other proxy is lost. |
| EndpointApi.Api.EndpointSnapshot | api/http/handler/endpoints/endpoint_snapshot.go:13-52 | Status and snapshots change, nothing a proxy depends on. |
| EndpointApi.Api.EndpointSnapshots | api/http/handler/endpoints/endpoint_snapshots.go:13-49 | A round gives every endpoint its own snapshot, passes Azure ones by, and changes nothing else. |
| EndpointRequests.SnapshotMeaning | api/http/handler/endpoints/endpoint_snapshot.go:37-44 | A snapshot sets the status by its success and replaces the one before if it was taken; a round leaves Azure endpoints alone. |
| EndpointApi.Api.EndpointUpdateAccess | api/http/handler/endpoints/endpoint_update_access.go:22-67 | Only the authorised users and teams change. |
| EndpointApi.Api.EndpointAccess | api/http/security/bouncer.go:87-112 | Grants exactly to administrators and to those listed, by name or through a team, by the endpoint's existing group or by the endpoint. |
| EndpointApi.AdmittedMeans | api/http/security/authorization.go:148-195 | The nested searches decide as membership in those lists. |
| EndpointApi.Api.ProxyRequestsToDockerAPI | api/http/handler/endpointproxy/proxy_docker.go:14-48 | Exact answers; the proxy that serves, cached or built on the spot, is that of a stored endpoint with the key, and the endpoint's own unless it has a rival. |
| EndpointApi.Api.ProxyRequestsToAzureAPI | api/http/handler/endpointproxy/proxy_azure.go:13-43 | The same without a look at the status. |
| EndpointApi.Api.RivalTakesOver | api/http/handler/endpointproxy/proxy_azure.go:31-41 | From any state, two requests that change no record get an endpoint served by the different proxy of a rival. |
| EndpointApi.Api.UpdateEndpointGroup | api/http/handler/endpointgroups/handler.go:40-69 | One endpoint leaves the group unless listed, or joins it if unassigned and listed, or stays. |
| EndpointApi.Api.EndpointGroupCreate | api/http/handler/endpointgroups/endpointgroup_create.go:31-66 | The new group takes exactly the listed unassigned endpoints. |
| EndpointApi.Api.EndpointGroupUpdate | api/http/handler/endpointgroups/endpointgroup_update.go:24-73 | Afterwards the group holds exactly those listed endpoints that were in it or unassigned; endpoints of other groups are untouched; updating the unassigned group moves nobody; only group membership changes. |
| EndpointApi.Api.RegroupEndpoints | api/http/handler/endpointgroups/endpointgroup_update.go:60-70 | The loop regroups every endpoint by where it was before the loop. |
| EndpointApi.Api.EndpointGroupDelete | api/http/handler/endpointgroups/endpointgroup_delete.go:13-51 | The unassigned group cannot go; otherwise the group goes and its endpoints become unassigned. |
| EndpointApi.Api.GetAssociatedGroup | api/http/security/filter.go:136-143 | A listed group of that identifier, and none exactly when there is none. |
| EndpointApi.Api.GroupLookup | api/http/security/filter.go:136-143 | Searching the group list finds what the database holds under the identifier. |
| EndpointApi.Api.FilterEndpoints | api/http/security/filter.go:100-117 | Fails exactly when a non-administrator meets an endpoint without group; otherwise it returns, in order, exactly the endpoints that EndpointAccess grants. |
| EndpointApi.Api.Serve | api/http/handler/endpointproxy/proxy_docker.go:36-43 | Over every history of requests, whatever the identifiers, each cached proxy is that of a stored endpoint with its key; endpoints without rival, and all endpoints while stored keys are distinct, are served by their own; groups stay complete as long as endpoints are given existing groups; no endpoint gets TLS settings that are off and yet decide over its proxy. |
| EndpointApi.Api.Start | api/cmd/portainer/main.go:356-467 | A new process has an empty cache and creates the endpoint of the command line exactly when there is none yet and it can be reached; skipping verification alone turns TLS on. |
| EndpointRequests.PrimaryMeaning | api/cmd/portainer/main.go:356-444 | Every field of the endpoint of the command line, and when it cannot be reached. |
| EndpointRequests.RegroupingUnassigned | api/http/handler/endpointgroups/handler.go:40-69 | Regrouping for the unassigned group is the identity. |
| EndpointRequests.RegroupingMeaning | api/http/handler/endpointgroups/handler.go:40-69 | Regrouping changes groups only, those of members and of unassigned endpoints only, and leaves exactly the listed ones of these in the group. |
| EndpointRequests.TakingMeaning | api/http/handler/endpointgroups/endpointgroup_create.go:56-63 | A new group gets exactly the listed unassigned endpoints, and only groups change. |
| EndpointRequests.OrphaningMeaning | api/http/handler/endpointgroups/endpointgroup_delete.go:38-48 | The endpoints of a deleted group, and no others, become unassigned, and only groups change. |
| EndpointApi.SharedCacheKey | api/http/proxy/manager.go:75-92 | A history of creations and deletions after which a request for one endpoint is served by the proxy of another, whenever the two proxies differ. |
| EndpointApi.GroupThatIsNotThere | api/http/handler/endpoints/endpoint_update.go:69-71 | A creation and an update after which the list fails for everyone but administrators. |
| Scheduler.JobScheduler.ScheduleJob | api/cron/scheduler.go:21-23 | Adds one entry exactly when the expression parses. |
| Scheduler.JobScheduler.UpdateJobSchedule | api/cron/scheduler.go:58-84 | Fails exactly when the job is present and the expression does not parse, and then changes nothing; else every entry stays, each entry of the job is joined by one at the new times with the new runner, or its own if it takes snapshots, and nothing else appears. |
| Scheduler.JobScheduler.UpdateSystemJobSchedule | api/cron/scheduler.go:32-51 | The same by job type, with the runners kept. |
| Scheduler.JobScheduler.UnscheduleJob | api/cron/scheduler.go:90-106 | No entry of the job is left and all others are conserved. |
| Scheduler.JobScheduler.UpdateAgainAndAgain | api/cron/scheduler.go:58-84 | n entries become n·2^k after k successful updates of the job, which are those whose expression parses, and the others are conserved. |
| Scheduler.JobScheduler.Operate | api/cron/scheduler.go:21-106 | Over every history of operations that do not concern a job, its entries are conserved as a multiset. |
| Scheduler.DoubledKeeps | api/cron/scheduler.go:58-84 | The rebuilt table contains the old one, has twice the selected entries and the same others in the same order. |
| Scheduler.JobIsRenewed | api/cron/scheduler.go:58-84 | The rebuilt table entry by entry, without the function that computes it. |
| Scheduler.TypeIsRenewed | api/cron/scheduler.go:32-51 | The same for an update by type. |
| Scheduler.FilterOfPermutation | api/cron/scheduler.go:58-84 | The order in which the cron library lists entries does not matter to what a rebuild keeps. |
| Schedules.Handler.ScheduleCreate | api/http/handler/schedules/schedule_create.go:131-228 | Succeeds exactly when the payload is valid, the script can be stored and the expression parses; then one record with what the payload says and one entry that runs it, else nothing. |
| Schedules.Handler.ScheduleUpdate | api/http/handler/schedules/schedule_update.go:33-112 | Succeeds exactly when the schedule is there, the payload valid and without changes a system schedule cannot take (those crash), new content can be stored, and the update only renames, or the job has no entry, or the expression parses; then the record has the fields of the payload and every entry of the job is joined by one that runs it at the new times; an error changes nothing. |
| Schedules.ChangeMeans | api/http/handler/schedules/schedule_update.go:79-112 | Each field the payload gives is replaced, all others stay, and all but a renaming touch the job. |
| Schedules.Handler.ScheduleDelete | api/http/handler/schedules/schedule_delete.go:14-45 | Succeeds exactly for a schedule that is there and no system schedule and whose files can be removed; then the record and all its entries go, and no others. |
| Schedules.Handler.UpdateSnapshotInterval | api/http/handler/settings/settings_update.go:99-123 | Fails exactly when a snapshot schedule is stored and scheduled and the new interval does not parse, and then changes nothing; else the snapshot schedule with the smallest identifier has it and all snapshot entries are joined by ones at the new times. |
| Schedules.Handler.Serve | api/http/handler/schedules/schedule_update.go:62-71 | Over every history of requests no entry outlives its schedule, and if every stored script is run as stored by some entry, it stays so. |
| Schedules.Handler.LoadSchedulesFromDatabase | api/cmd/portainer/main.go:193-213 | Every script gets an entry with its own times that carries the last stored schedule, because all runners point to one variable. |
| Schedules.Handler.LoadSystemSchedule | api/cmd/portainer/main.go:119-191 | A wanted system schedule is registered, with one record and one entry, exactly if none of its type is stored and its interval parses; a stored one gets no entry. |
| Schedules.Handler.Start | api/cmd/portainer/main.go:500-515 | Succeeds exactly when all stored scripts parse and the system schedules can be registered; then all scripts run as stored exactly when none was stored before another schedule. |
| Schedules.Handler.Live | api/cmd/portainer/main.go:500-515 | Over any number of starts and histories of requests no entry outlives its schedule. |
| Schedules.LoadedIsComplete | api/cmd/portainer/main.go:199-210 | Only the last stored schedule can be run as stored after a start. |
| Schedules.LoadedMeans | api/cmd/portainer/main.go:199-210 | As many entries as stored scripts, and each script has its own, in order and at its own times. |
| Schedules.RescheduledStaysComplete | api/cron/scheduler.go:58-84 | Updating one job leaves an entry that runs its new definition and those of all others. |
| Schedules.AfterUnscheduling | api/cron/scheduler.go:90-106 | Unscheduling one job takes nothing from the others. |
| Scheduler.DoubledMembers | api/cron/scheduler.go:58-84 | The entries of a rebuilt table are exactly the old ones and the renewals of the selected ones. |
| Schedules.SecondStart | api/cmd/portainer/main.go:199-210 | Two scripts are created and the server is started again: no entry is left for the first. |
| ScriptExecution.ScriptExecutionJobRunner.Run | api/cron/job_script_execution.go:43-62 | An unreadable script or a missing endpoint cancels the run before any attempt; otherwise the rounds are made, and they are whole in the sense of EveryRunIsWhole. |
| ScriptExecution.EveryRunIsWhole | api/cron/job_script_execution.go:64-84 | There are exactly max(1, RetryCount) rounds; the first tries every endpoint of the list, and each later one exactly the targets whose ping failed in the one before: all of them, as many, in order, and nothing else. |
| ScriptExecution.ScriptExecutionJobRunner.ExecuteAndRetry | api/cron/job_script_execution.go:64-84 | Terminates, having made exactly the specified rounds and attempts. |
| ScriptExecution.LoggedAddsRounds | api/cron/job_script_execution.go:64-84 | What the recursion logs is the specified rounds, in order. |
| ScriptExecution.AttemptsMadeIsTotal | api/cron/job_script_execution.go:64-84 | What it counts is the attempts of those rounds. |
| ScriptExecution.ScriptExecutionJobRunner.ExecuteRound | api/cron/job_script_execution.go:64-74 | One attempt per target, in order; the retry targets are those that could not be pinged. |
| ScriptExecution.RoundsAreChained | api/cron/job_script_execution.go:64-84 | There are exactly max(1, RetryCount) rounds, and each goes over the ping failures of the one before in their order. |
| ScriptExecution.AttemptsAreBounded | api/cron/job_script_execution.go:64-84 | Attempts are at most targets times rounds. |
| ScriptExecution.FailedAscends | api/cron/job_script_execution.go:65-74 | Retry targets keep the order of the list. |
| ScriptExecution.TriedBefore | api/cron/job_script_execution.go:64-84 | A target of a round failed its ping in every earlier round. |
| ScriptExecution.NeverRunAgain | api/cron/job_script_execution.go:64-84 | A list position that ran, or failed otherwise than by ping, is never tried again. |
| Durations.TranslateNanosToHumanDuration | app/docker/helpers/serviceHelper.js:176-192 | The loop that overwrites its result ends with the last unit that fits. |
| Durations.LargestUnit | app/docker/helpers/serviceHelper.js:176-192 | For positive durations the printed unit is the largest of all that divide it. |
| Durations.UnitsMean | app/docker/helpers/serviceHelper.js:146-184 | How many nanoseconds a count of each of the six units is. |
| Durations.DurationsAre | app/docker/helpers/serviceHelper.js:146-152 | Which texts are durations: digits followed by one of the six names. |
| Durations.NumeralsMean | app/docker/helpers/serviceHelper.js:186-190 | Counts are written in decimal, the highest digit first. |
| Durations.TranslateHumanDurationToNanos | app/docker/helpers/serviceHelper.js:146-167 | Digits and a unit give their product; any other text is undefined. |
| Durations.NumeralRoundTrip | app/docker/helpers/serviceHelper.js:146-192 | Reading a printed decimal numeral gives the number back. |
| Durations.UnitReadsBack | app/docker/helpers/serviceHelper.js:146-167 | A count printed before any unit reads back as count times unit. |
| Durations.DurationRoundTrip | app/docker/helpers/serviceHelper.js:146-192 | Reading a printed duration gives it back for every non-negative integer; a negative one reads back as zero. |
| KeyValues.TranslateConstraintsToKeyValue | app/docker/helpers/serviceHelper.js:117-144 | Each constraint is split at the operator found, equality first. |
| KeyValues.OperatorMeans | app/docker/helpers/serviceHelper.js:118-124 | The operator is the first equality, or else the first inequality, or else missing. |
| KeyValues.ParseMeans | app/docker/helpers/serviceHelper.js:130-132 | The parts before and behind the operator; without one, all but the last and all but the first character. |
| KeyValues.TranslateKeyValueToPlacementConstraints | app/docker/helpers/serviceHelper.js:55-66 | Constraints with a key and a value are printed in order, the others dropped. |
| KeyValues.PrintMeans | app/docker/helpers/serviceHelper.js:55-66 | One text for each constraint with a key and a value, in order, and no other. |
| KeyValues.PrintAfterParse | app/docker/helpers/serviceHelper.js:117-144 | A constraint survives parsing and printing exactly when its operator is found at a positive position with a non-empty value. |
| KeyValues.PrintAfterParseAll | app/docker/helpers/serviceHelper.js:55-144 | A list survives exactly when all its constraints do. |
| KeyValues.ParseAfterPrint | app/docker/helpers/serviceHelper.js:117-144 | A printed constraint is read back exactly when no operator occurs before or across its own; for inequality the value must also contain no equality and not start with an equals sign. |
| KeyValues.AtConcat | app/docker/helpers/serviceHelper.js:117-144 | Every place where an operator can be found in a printed constraint. |
| KeyValues.TranslateEnvironmentVariables | app/docker/helpers/serviceHelper.js:68-86 | Each variable is split at its first equals sign. |
| KeyValues.VariableMeans | app/docker/helpers/serviceHelper.js:71-74 | The parts before and behind the first equals sign; without one, all but the last character and the whole. |
| KeyValues.TranslateEnvironmentVariablesToEnv | app/docker/helpers/serviceHelper.js:88-99 | Variables with a key are printed in order. |
| KeyValues.PrintVariablesMeans | app/docker/helpers/serviceHelper.js:88-99 | One text for each variable with a key, in order, and no other. |
| KeyValues.VariableRoundTrips | app/docker/helpers/serviceHelper.js:68-99 | A variable survives parsing and printing exactly when it has an equals sign after its start, and printing and parsing exactly when its key has none. |
| AgentTarget.HttpRequestHelper.PortainerAgentTargetHeader | app/portainer/services/httpRequestHelper.js:24-31 | The next unread value of the history, or the last one again, or nothing. |
| AgentTarget.HttpRequestHelper.SetPortainerAgentTargetHeader | app/portainer/services/httpRequestHelper.js:33-37 | The value joins the history unless it is empty. |
| AgentTarget.HttpRequestHelper.ResetAgentTargetQueue | app/portainer/services/httpRequestHelper.js:39-42 | The history is empty again. |
| AgentTarget.HttpRequestHelper.Run | app/portainer/services/httpRequestHelper.js:24-42 | Over every run of calls the queue answers as a history with a read cursor does. |
| AgentTarget.ReadsInOrder | app/portainer/services/httpRequestHelper.js:24-31 | Reading on yields the unread values in the order they were set, then the last one for ever. |
| AgentTarget.FirstInFirstOut | app/portainer/services/httpRequestHelper.js:24-37 | Values set on an empty queue are read in the order they were set, then the last one for ever. |

## Left out

- Migrator.Migrator.Migrate: stated from version 2 on and without legacy stacks, because the steps below version 2 and the conversion of legacy stacks inside version 12 create records or rename files on each run, so that a rerun is not the same as one run.
- Migrator.MigrateOverRestarts: likewise for the stored versions 0 and 1.
- `MigrateData` on a database that needs no check for migration: it only stores the version.
- Failing writes and undecodable records outside the migrator, and a transaction of BoltDB that fails half way: bucket operations of the other modules succeed.
- Identifier wrap-around: identifiers and sequences are unbounded, and only `Keys` speaks of 64-bit integers.
- Concurrency: requests and jobs run one after the other. In the program two creations could read the same next identifier.
- External endpoint management for the cache and the groups: the synchronization job touches neither, and it creates endpoints with group 0. With it the endpoint handlers refuse every change; they are modelled without it.
- The ping, the Azure login, the TLS material and its files during a creation: their answers are parameters.
- TLS files on disk: their paths and the answers of Azure and of the file service are parameters of an endpoint update.
- The checks of schedule payloads (names by regular expression, required fields) and the files of scripts: their outcomes are parameters of a request.
- Proxy construction, URL parsing, cron expressions and script execution: arbitrary functions, which may fail.
- Extension proxies and the endpoint extension handlers: the URL is changed on a copy, and the cache of extension proxies is separate.
- The group access handler: it replaces two fields of a group record.
- Container labels of other types: labels are a map of strings or absent; the program fails on JSON values of another type.
- Decoration of the container list for administrators, and the label black list.
- Lists and inspections of services, volumes, networks, secrets and configurations: they repeat the shape of containers.
- Durations.TranslateHumanDurationToNanos: a unit written with capitals is passed on to the date library, whose answer is not modelled; numbers are exact integers, not JavaScript floating point beyond 2^53.
- The display-only fields that the JavaScript translators copy (original key, original value, added), and their answers for an absent list.
- The waiting time between rounds, logging, HTTP, JSON, JWT, LDAP, Docker and Azure clients, and all user interface code.
- The create, read, update and delete services of tags, templates, webhooks, registries, users and teams: they repeat the endpoint service.
