# Verification of the CloudForge control plane

A model, in Dafny, of the concurrent protocols that the control plane runs on top of its
compare-and-set store, and of the small sequential algorithms beside them, with proofs about every
interleaving of the former and every input of the latter. Check everything with
`dafny verify dfyconfig.toml`.

## What is modelled

**Concurrent protocols.** The store is a few maps. Each statement (an `INSERT ... IF NOT EXISTS`, a
conditional update, a plain upsert, a delete), each read and each external command is one atomic step.
Every call is a process with a program counter; a run is any sequence of actions of any number of
calls, with an error possible at each statement and a crash between any two. Three state machines are
built this way, and the theorems quantify over all their runs:

- *CIDR blocks* (`CidrBlocks`, `CidrText`, `CidrMachine`, `CidrSafety`, `CidrLoneRows`, `CidrExhaustion`,
  `CidrRejections`, `CidrSpuriousExhaustion`, `CidrSecondRelease`, `CidrAlone`, `CidrAllocator`): the
  two-phase claim of a pod block and a service block, its roll-back, the scan, and the release. In the
  machine a release is only ever called by the holder of a pair, with that pair, once; the delete itself
  does not check its owner. `CidrSecondRelease` says when the two deletes of a second release are safe, with
  runs of other calls before and between them. `CidrText` reads the stored keys back as networks.
- *Jobs and workflows* (`Jobs`, `JobLives`, `Provisioning`, `ProvisioningJobs`,
  `ProvisioningOutcomes`, `ProvisioningTenants`, `ProvisioningNetworks`, `ProvisioningTruth`,
  `ProvisioningFinality`, `ProvisioningEndings`, `ProvisioningRace`, `ProvisionAlone`, `ProvisionEffects`,
  `ProvisionWorkflow`): the idempotent enqueue, the claim, and the two background workflows with a failure possible at every step.
- *Registration and keys* (`Accounts`, `AccountsSafety`, `AccountsLostSlugs`, `AccountsReferences`,
  `AccountsEmails`, `AccountsAlone`, `AccountsEndings`, `AccountsWorkflow`, `ApiKeys`): the slug reservation with its
  compensating delete, the registration saga, and the life of API keys.

The same operations are also written as the imperative programs they are, in classes whose methods
update the tables and consume a script of faults. Each such method is proved to do exactly what the
machine's process does when it runs alone (`Alone`), and `AloneIsARun` shows that to be a run of the
machine. What that comes to is said apart from the machine, for every script of faults, in terms of the
tables before, the numbers of the statements that failed, and the tables after (`Scanned`, `CallDoes`,
`DeprovisionDoes`, `Registered`, `Issued`, `Revoked`), and the methods promise it. The choices a call makes (generated ids and hashes, the row a lookup returns) are shown to be
ones the machine allows, so each whole call of the job and account programs leads from the tables of some
run to the tables of some run (`ProvisionReaches`, `DeprovisionReaches`, `RegisterReaches`,
`IssueReaches`, `RevokeReaches`, and the `Reached` clauses of the methods): what holds of the tables of
every run holds before and after every call of the program.

**Sequential algorithms.** `Flattening` (nested maps to dotted keys), `Ranks`, `Percentiles` and
`SpeedStats` (nearest-rank percentiles in three implementations, and an insertion sort with a rounded
index), `Statements` (splitting and applying a CQL file), `Labels` (a label rule as scanner and as
regular expression, and the secret paths built from labels), `Ansi` (stripping colour sequences).
`Joining` holds what splitting and joining strings have in common, `Selections` what filtering by indices
means, `Numerals` decimal numbers printed and read.

## Assumptions

- An error is one of two kinds (`Faults`): *clean*, the statement was not executed, or *dirty*, it was
  executed although its caller sees an error. A dirty statement takes effect at the latest when its
  caller goes on. Theorems that need errors to be clean say so, and a lemma beside each shows the need.
- Reads through materialised views see the base table.
- Generated job ids and tenant ids are new; in the workflow machine the hash of a generated API key is
  new too. The account machine assumes nothing about generated ids, hashes or keys.
- The workflow machine registers a tenant in one step, only under a slug no tenant has;
  `AccountsSafety.SlugsUnique` is the justification.
- Timeouts and cancelled contexts are errors. Timestamps, JSON, HTTP and logging carry no state here.
- Percentiles are computed in exact arithmetic on whole durations. The library sorts are replaced by
  the repository's own insertion sort; `Ranks.SortedUnique` shows that any sort gives the same result.
- Strings are sequences of characters; the labels and colour sequences concern ASCII characters only.

Where the code and its comments disagree, the model follows the code:

- Provisioning jobs are enqueued, claimed and polled under the nil UUID, and finished under the tenant
  (`services/provisioner/service/service.go:61`, `:73`, `:117`, `:210`). The promise that a polled job
  shows its worker's outcome therefore fails; `OutcomeShowsIffKeysAgree` says exactly when it holds.
- `DeleteVCluster` does not delete the host namespace (`internal/provisioner/vcluster.go:118-133`).
- The raw API key is part of the stored result (`services/provisioner/service/service.go:200-201`),
  against `internal/accounts/job.go:147-149`.
- `HashAPIKey` hashes the whole raw key, prefix included (`internal/provisioner/apikey.go:102-108`).
- The insert of a user row is keyed by a generated id and does not guard the e-mail
  (`internal/accounts/user.go:113-128`, `services/accounts/service/service.go:178-185`).
- `RevokeByID` marks one row, not all rows with the id (`internal/accounts/apikey.go:157-178`).

## Model

| member | source | states |
|---|---|---|
| `CidrBlocks.TextInjective` | internal/provisioner/cidr.go:113-114 | two blocks have the same primary key only if they are the same block |
| `CidrText.TextDenotes` | internal/provisioner/cidr.go:113-122 | read as CIDR notation, apart from how it is printed, the key of every block whose index is an octet denotes the /24 network at the block's first address, so the defensive parse never fails; no other key can be read |
| `CidrText.SupernetIsCovered` | internal/provisioner/cidr.go:67-75 | every address of the two /16 supernets is in the gateway block, in a block that can be handed out, or in the last one |
| `CidrBlocks.RangesDisjoint` | internal/provisioner/cidr.go:67-85 | each block that can be handed out is 256 addresses inside its own /16, and distinct blocks share no address (section 3.1 of RFC 4632) |
| `CidrSafety.NoSharedAddress` | internal/provisioner/cidr.go:98-153 | in every run, with any errors, crashes and releases, two holders hold different indices, find their own two rows in the table, and share no address |
| `CidrSafety.RowsLeaveByTheirOwner` | internal/provisioner/cidr.go:55-60 | although the delete checks no owner, in every run a row is removed only by a statement of the call that owns it, and a row that stays is unchanged |
| `CidrSafety.NothingLeaks` | internal/provisioner/cidr.go:136-148 | conservation: in every error-free run the table is the initial rows, unchanged, plus exactly one row per block a call owns |
| `CidrLoneRows.LoneServiceRow` | internal/provisioner/cidr.go:165-181 | if no insert of that service row is executed and yet reported as failed, whatever else fails, the row stands without its pod row only while the very call that inserted it is between the two deletes of its release, or its second delete reported an error |
| `CidrLoneRows.LoneRowsStayExplainedIff` | internal/provisioner/cidr.go:136-148 | after any run, ambiguous inserts included, that holds in every continuation with clean inserts exactly if the service row now stands between the two deletes of the call that inserted it, or beside a pod row that no live call is about to roll back |
| `CidrLoneRows.DirtyErrorStrandsServiceRow` | internal/provisioner/cidr.go:137-142 | the guard on the insert is needed: one that is executed but reported as failed leaves a service row that nobody owns |
| `CidrSecondRelease.RetrySafeIff` | internal/provisioner/cidr.go:169-181 | after any run, the two deletes of a second release, with any runs before and between them and any outcomes, leave every call the rows it owns exactly if both rows still stand in the table and no call owns either |
| `CidrSecondRelease.SecondReleaseCanStrip` | internal/provisioner/cidr.go:169-181 | a run in which a release that reported an error, tried again, would delete the rows of another holder |
| `CidrExhaustion.NeverExhausted` | internal/provisioner/cidr.go:102-153 | as long as at most 254 calls and unowned rows are scanning or hold a pod row at any time, no run with any errors, crashes and releases ends in exhaustion, provided no service insert is refused |
| `CidrExhaustion.NeverExhaustedWithoutReleases` | internal/provisioner/cidr.go:93-96 | without releases and errors, if the pods taken at the start and all calls ever made number at most 254, no interleaving reports exhaustion |
| `CidrSpuriousExhaustion.FullTableExhausts` | internal/provisioner/cidr.go:152 | the bound is exact: one call on a full table reports exhaustion |
| `CidrRejections.RejectionExhausts` | internal/provisioner/cidr.go:143-152 | after any run within the bound, with any errors, in which a service insert can be refused, some error-free continuation within the bound reports exhaustion |
| `CidrRejections.ExhaustsIffFreePod` | internal/provisioner/cidr.go:98-152 | from which tables the bound does not protect: exhaustion can be reported within it exactly if some pod block is free in the table |
| `CidrRejections.ExhaustsIffRefuses` | internal/provisioner/cidr.go:143-152 | from any table, exhaustion can be reported within the bound exactly if a service insert can be refused within the bound |
| `CidrSpuriousExhaustion.ExhaustedWithAFreePair` | internal/provisioner/cidr.go:143-148 | such a run exists: error-free, never with more than 254 calls, it reports exhaustion while a pair is free, because a release deletes the pod row first |
| `CidrAllocator.CidrDb.TryAllocate` | internal/provisioner/cidr.go:41-53 | afterwards the block is taken exactly if it was or the statement is executed; true exactly if it was free and no error is seen; a row already there and all other rows stay |
| `CidrAllocator.CidrDb.Release` | internal/provisioner/cidr.go:56-60 | afterwards the block is taken exactly if it was and the statement was not executed; all other rows stay; a missing row is no error |
| `CidrAllocator.AllocateCIDRs` | internal/provisioner/cidr.go:111-153 | for every table and every script of faults, the scan stops at the first index that is free or sees an error, returns that pair or the error of that statement, or exhaustion if there is none, and leaves only those rows and the pod rows it could not give back; this is one call of the machine run alone |
| `CidrAlone.AllocateEnds` | internal/provisioner/cidr.go:111-151 | the same of the machine's call: which statement it stops at, counted from the table, with which result, and exactly which rows it has added |
| `CidrAlone.AllocateExhausts` | internal/provisioner/cidr.go:152 | it reports exhaustion if it passes every index, leaving only pod rows whose roll-back failed |
| `CidrAllocator.ReleaseTenantCIDRs` | internal/provisioner/cidr.go:169-181 | both deletes are attempted whatever the first returns: a row is gone exactly if its own delete was executed, and no other row changes; the whole is the machine's release |
| `CidrAlone.TakesTheLeastFreePair` | internal/provisioner/cidr.go:98-101 | alone and without faults: the least index with both blocks free is taken, exactly its two rows are added, and exhaustion is reported exactly if there is no such index |
| `CidrAlone.ReleaseUndoesAllocate` | internal/provisioner/cidr.go:165-181 | releasing the pair a call was given restores the table |
| `CidrAlone.AloneIsARun` | internal/provisioner/cidr.go:98-153 | what the program does alone is a run of the machine in which only it moves |
| `Jobs.KeyTextInjective` | services/provisioner/service/service.go:60 | two requests share an idempotency key only if they are the same request (see also service.go:94) |
| `JobLives.TakeSlotKeeps` | internal/accounts/job.go:87-107 | the slot insert keeps the job tables in order, and a slot won is a job nothing was written to |
| `JobLives.ClaimKeeps` | internal/accounts/job.go:130-145 | the claim keeps the tables in order, and is won only on a row whose one status is QUEUED |
| `JobLives.EndKeeps` | internal/accounts/job.go:147-169 | the unconditional final write keeps the tables in order if its caller won the claim and has not finished |
| `ProvisioningJobs.RunKeepsInv` | services/provisioner/service/service.go:57-254 | in every run the callers only issue the statements the job tables can bear |
| `ProvisioningOutcomes.RowLife` | internal/accounts/job.go:80-169 | in every run each job row lives a prefix of QUEUED, PROVISIONING, READY or FAILED, or is created final by an upsert; the row under the nil tenant is never READY |
| `ProvisioningOutcomes.FinalIsFinal` | internal/accounts/job.go:150-169 | in every run a row with a final status never changes again, though both final writes are unconditional |
| `ProvisioningOutcomes.EnqueueIsIdempotent` | internal/accounts/job.go:73-124 | all successful enqueues of one partition and key return one job, different keys different jobs, and that job is claimed at most once |
| `ProvisioningOutcomes.PolledForever` | services/provisioner/service/service.go:69-81 | once a provisioning workflow has finished under its tenant, the polled row says PROVISIONING in every continuation |
| `ProvisioningOutcomes.DeprovisioningIsNeverFound` | services/provisioner/service/service.go:69-101 | a deprovisioning job is never found by a poller |
| `ProvisioningOutcomes.OutcomeShowsIffKeysAgree` | services/provisioner/service/service.go:117-213 | the row a workflow claimed shows its end exactly if it is the row it finishes under, which for provisioning is only the failed tenant lookup |
| `ProvisioningEndings.EndIsRecorded` | services/provisioner/service/service.go:117-213 | in every run, a workflow that won its claim never ends with a failed stage: its last step is the write of its outcome, and if that is executed a row of its job says FAILED from then on if a stage or the tenant lookup failed, and READY if none did |
| `ProvisioningOutcomes.StuckForever` | internal/accounts/job.go:80-124 | if the call that won a slot dies before its second insert, every later call gets the same job, and it never has a row |
| `ProvisioningOutcomes.StuckIff` | internal/accounts/job.go:80-124 | after any run, a job whose slot is held never gets a row exactly if it has none and no live call is about to insert one |
| `ProvisioningTenants.WorkflowRunsOnce` | services/provisioner/service/service.go:116-125 | over any calls, replicas, errors and crashes, the workflow of a request gets past its claim at most once |
| `ProvisioningTenants.StuckNeverStarts` | internal/accounts/job.go:96-107 | a request whose slot was won by a call that died between the inserts is never worked on |
| `ProvisioningTenants.ActivatedOnce` | services/provisioner/service/service.go:192 | in every run ACTIVE is written at most once per tenant |
| `ProvisioningTenants.DeletedForGood` | services/provisioner/service/service.go:245 | in every run a tenant DELETED after it was ACTIVE stays DELETED |
| `ProvisioningFinality.DeletedStaysIff` | services/provisioner/service/service.go:192-245 | after any run, a DELETED tenant stays DELETED in every continuation exactly if no live workflow for its slug has won its claim and not yet activated, no call is about to insert that job, and its job can no longer be won |
| `ProvisioningNetworks.ActiveHasNetwork` | services/provisioner/service/service.go:145-195 | in every run a tenant that was ever ACTIVE has each part of its network exactly if no teardown has removed it since it was last made, and in any case its namespace, both policies, a key row and its CIDR pair |
| `ProvisioningNetworks.ActiveHasEverything` | services/provisioner/service/service.go:145-195 | in every run an ACTIVE tenant whose own slug nobody called to deprovision has its namespace, policies, vCluster, kubeconfig, a key row and both CIDRs, whatever is torn down elsewhere |
| `ProvisioningFinality.CompleteStaysIff` | services/provisioner/service/service.go:218-254 | after any run, a network that is complete stays so in every continuation without new calls to deprovision its slug exactly if no live teardown of the tenant can still win its claim or is about to remove something |
| `ProvisioningFinality.NewDayTearsDown` | services/provisioner/service/service.go:86-101 | that restriction is needed: on a day whose teardown slot is free, a new call can tear down the network of any tenant |
| `ProvisioningTruth.ReadyIsTrue` | services/provisioner/service/service.go:187-210 | in every run a row that says READY is true: the tenant with the slug its job was enqueued for has been ACTIVE and has its key row and CIDRs, or has been DELETED and its kubeconfig and vCluster removed |
| `ProvisioningTruth.DeletedWasTornDown` | services/provisioner/service/service.go:232-248 | in every run a DELETED tenant has had its kubeconfig and vCluster removed at some time |
| `ProvisioningTruth.TeardownLeaves` | services/provisioner/service/service.go:218-254 | no continuation of any run removes a namespace or policy, takes back an API key, or clears a CIDR pair |
| `ProvisioningRace.ActiveWithoutVCluster` | services/provisioner/service/service.go:218-254 | the restriction is needed: a teardown that overtakes the last stages leaves an ACTIVE tenant without its vCluster, with no statement failing |
| `ProvisioningRace.PollerMissesReady` | services/provisioner/service/service.go:69-81 | a run without any fault ends with the job READY under its tenant while its poller is told PROVISIONING |
| `ProvisioningRace.StuckIsReachable` | internal/accounts/job.go:87-123 | for every slug a run reaches the gap between the two inserts |
| `ProvisionWorkflow.Service.Enqueue` | internal/accounts/job.go:80-124 | the answer is the job that holds the slot afterwards, the new one if the slot was free, or nothing exactly if a statement reports an error; at most the slot and one QUEUED row are added; this is what the machine's one or two enqueue steps do |
| `ProvisionWorkflow.Service.ClaimFor` | internal/accounts/job.go:130-145 | does what the machine's claim does; true exactly if this caller goes on |
| `ProvisionWorkflow.Service.Complete` | internal/accounts/job.go:150-158 | if executed, the row says READY with the result, whatever it said and even if it was missing, one status is added to its life, its error and key stay, and no other row changes; otherwise nothing changes |
| `ProvisionWorkflow.Service.Fail` | internal/accounts/job.go:161-169 | if executed, the row says FAILED with the error, whatever it said and even if it was missing, one status is added to its life, its result and key stay, and no other row changes; otherwise nothing changes |
| `ProvisionWorkflow.Service.DoOrFail` | services/provisioner/service/service.go:147-195 | one stage; if it reports an error the next statement writes FAILED with the stage under the tenant, and if not the job tables stay; one or two steps of the machine |
| `ProvisionWorkflow.Service.RunProvisionWorkflow` | services/provisioner/service/service.go:110-214 | for every database and script of faults: nothing without the claim; without a tenant a FAILED row under NIL; else exactly the stages up to the first that fails are done, and the row under the tenant says READY, or FAILED with that stage; this is what the machine's process does alone |
| `ProvisionWorkflow.Service.RunDeprovisionWorkflow` | services/provisioner/service/service.go:219-254 | the same for deprovisioning |
| `ProvisionWorkflow.Service.GetJob` | services/provisioner/service/service.go:70-81 | the answer is the status and the error of the row under NIL; on the tables of any run it is the last status written to that row, never READY, and a deprovisioning job is not found |
| `ProvisionWorkflow.Service.Provision` | services/provisioner/service/service.go:57-67 | the answer names the job that holds the slot under NIL, the new one if it was free, and is missing exactly if an enqueue statement reports an error; the tables are those after that enqueue and its workflow, for every script of faults; tables of a run lead to tables of a run |
| `ProvisionEffects.CallAlone` | services/provisioner/service/service.go:57-254 | the machine's call, alone, has exactly these effects, for every script of faults |
| `ProvisionEffects.ProvisionSucceeds` | services/provisioner/service/service.go:130-213 | with a free slot, a known slug and no fault the tenant ends ACTIVE with all parts of its network, its key and its CIDRs, and its job READY under the tenant |
| `ProvisionEffects.StageFailureShows` | services/provisioner/service/service.go:145-195 | if one stage fails, the row under the tenant says FAILED with that stage, what was made before stays, and ACTIVE is written only if it was the activation itself that failed after being executed |
| `ProvisionEffects.FixedPairDenotes` | services/provisioner/service/service.go:143 | the pair written for every tenant denotes the first pod block and the first service block |
| `ProvisionWorkflow.Service.Deprovision` | services/provisioner/service/service.go:85-101 | the same for deprovisioning: the slot is under the tenant found, and the answer is also missing if the lookup reports an error or finds nothing |
| `ProvisionAlone.AloneIsARun` | services/provisioner/service/service.go:57-254 | what a call does alone is a run of the machine in which only it moves |
| `ProvisionAlone.ProvisionReaches` | services/provisioner/service/service.go:57-214 | from the tables of any run, with new ids and the row its slug has, a whole provisioning alone, with any faults, ends in the tables of a run |
| `ProvisionAlone.DeprovisionReaches` | services/provisioner/service/service.go:85-254 | the same for deprovisioning |
| `AccountsSafety.CleanUpIsOwn` | internal/accounts/tenant.go:119-132 | with any errors, a slug leaves the table only by the clean-up of the call that reserved it, and nobody else has a reservation for it then |
| `AccountsSafety.SlugsUnique` | internal/accounts/tenant.go:72-133 | if no tenant insert is executed and yet reported as an error, then whatever else fails no two tenants share a slug and every tenant's slug is reserved |
| `AccountsSafety.SlugsStayUniqueIff` | internal/accounts/tenant.go:118-133 | after any run, slugs stay unique in every clean continuation exactly if they are unique and reserved now and nobody holds a reservation for a slug some tenant has |
| `AccountsSafety.DirtyInsertDuplicates` | internal/accounts/tenant.go:118-124 | the assumption is needed: one ambiguous tenant insert followed by the clean-up leads to two tenants with one slug |
| `AccountsLostSlugs.LostForever` | internal/accounts/tenant.go:85-132 | a slug that is reserved, without a tenant and without a live holder stays so in every continuation, and every later registration of it is refused |
| `AccountsLostSlugs.LostIff` | internal/accounts/tenant.go:85-132 | after any run, no continuation gives a slug to a tenant exactly if it is lost in that way |
| `AccountsLostSlugs.LostIsReachable` | internal/accounts/tenant.go:118-127 | any slug can be lost: the call that reserved it dies before its second insert |
| `AccountsReferences.EverythingRefers` | services/accounts/service/service.go:154-205 | in every run each user and key row refers to an existing tenant, no tenant has two users, and a revocation never creates a row |
| `AccountsReferences.RevokedKeysStayRevoked` | internal/accounts/apikey.go:66-98 | in every run of registrations, issues and revocations a revoked key stays revoked with its row unchanged |
| `AccountsEmails.EmailsUniqueWithoutOverlap` | services/accounts/service/service.go:155-185 | e-mails are unique in every run in which no registration checks an e-mail while another live one is between its check and its insert |
| `AccountsEmails.EmailsUniqueIffNoOverlap` | services/accounts/service/service.go:155-185 | after any run, whatever fails, e-mails are unique exactly if no registration checked an e-mail, another then inserted a user with it, and then the first inserted its own |
| `AccountsEmails.OverlapDuplicatesEmail` | internal/accounts/user.go:91-96 | any two registrations with one e-mail and different slugs can overlap so that both succeed |
| `AccountsWorkflow.Service.CreateTenant` | internal/accounts/tenant.go:72-133 | reserve, insert, compensate, for every script of faults: internal errors for reported ones, the account error for a taken slug or tenant id, and the slug stays reserved only with a tenant or if the clean-up failed |
| `AccountsWorkflow.Service.Register` | services/accounts/service/service.go:154-205 | for every script of faults: the error is that of the first statement that fails or is refused, and the tables hold what the statements before it wrote; this is what the machine's process does alone, and tables of a run lead to tables of a run |
| `AccountsEndings.RegisterEnds` | services/accounts/service/service.go:154-205 | the same of the machine's call |
| `AccountsEndings.ErrorPrecedence` | services/accounts/service/service.go:144-149 | without faults a taken e-mail comes before a taken slug or tenant id, and that before a taken user id; with any faults, internal errors, taken slugs and taken e-mails are reported only if there was one |
| `AccountsWorkflow.Service.IssueKey` | services/accounts/service/service.go:103-134 | for the tenant found by slug, for every script of faults: which of the four results, and exactly when the one key is added |
| `AccountsWorkflow.Service.RevokeByID` | internal/accounts/apikey.go:143-178 | find a row by its id, then mark it: exactly when it reports an error and when the row found is revoked |
| `AccountsWorkflow.Service.RevokeKey` | services/accounts/service/service.go:209-225 | the same after the tenant was looked up, which only has to exist; the key need not belong to it |
| `AccountsEndings.RegisterIsAllOrNothing` | services/accounts/service/service.go:140-205 | without faults a registration succeeds exactly if e-mail, slug and generated ids are free, then adds exactly its rows, and if refused before its user insert leaves the tables as they were |
| `AccountsEndings.IssueKeyNeedsActive` | services/accounts/service/service.go:103-134 | for every script of faults, issuing adds one live key exactly if the tenant is found ACTIVE and the store is executed, changes nothing else, and reports the right error |
| `AccountsEndings.RevokeKeyRevokesOne` | services/accounts/service/service.go:209-225 | for every script of faults, revoking changes exactly the one row found by its id if its update is executed and nothing if not, and reports the right error; success means that row is revoked |
| `AccountsAlone.AloneIsARun` | services/accounts/service/service.go:103-225 | what a call does alone is a run of the machine in which only it moves |
| `AccountsAlone.RegisterReaches` | services/accounts/service/service.go:140-205 | from the tables of any run, a whole registration alone, with any faults and generated ids, ends in the tables of a run |
| `AccountsAlone.IssueReaches` | services/accounts/service/service.go:103-134 | the same for issuing a key, with the tenant the slug has |
| `AccountsAlone.RevokeReaches` | services/accounts/service/service.go:209-225 | the same for revoking, with the key row the id finds |
| `ApiKeys.RowIsDecided` | internal/accounts/apikey.go:60-187 | after any sequence of statements a hash has a row exactly if one was executed on it; the first decides the columns, and the key is revoked exactly if it was created so or a revocation was executed, even before the store |
| `ApiKeys.RevokedForever` | internal/accounts/apikey.go:180-187 | REVOKED is absorbing and freezes the row under every sequence of statements |
| `ApiKeys.OthersDoNotMatter` | internal/accounts/apikey.go:160-187 | the row of a hash depends only on the statements on that hash |
| `ApiKeys.APIKeyStore.Store` | internal/accounts/apikey.go:66-98 | insert if absent; an error exactly if the statement reports one, so success also for an existing row, revoked or not, which stays as it is |
| `ApiKeys.APIKeyStore.Lookup` | internal/accounts/apikey.go:105-133 | whatever statements led to the table, a key is found exactly if one was executed on its hash, and is found revoked once a revocation of it was executed |
| `ApiKeys.APIKeyStore.RevokeByHash` | internal/accounts/apikey.go:182-187 | if executed the row is revoked, created if missing, its other columns kept; all other rows stay; an error exactly if one is reported |
| `ApiKeys.APIKeyStore.RevokeByID` | internal/accounts/apikey.go:143-178 | one row with the id is revoked exactly if there is one and both statements go well, nothing else changes, and an unknown id is no error; with unique ids, success revokes every key with the id |
| `Flattening.FlattenMap` | internal/config/loader.go:170-189 | for every map and prefix the result is that of some order of iteration, and has exactly the keys of the leaves, each with the value of a leaf of that key |
| `Flattening.AnyLeafCanWin` | internal/config/loader.go:172-187 | for every leaf some order of iteration leaves its value under its dotted key |
| `Flattening.DeterminedIffNoClash` | internal/config/loader.go:170-189 | all orders of iteration give one result exactly if no two leaves with one dotted key differ |
| `Flattening.PlainNoClash` | internal/config/loader.go:172-177 | with non-empty names without dots no two leaves clash, so the result does not depend on iteration order |
| `Flattening.ValueAtExactly` | internal/config/loader.go:163-169 | with such names the result has v at a dotted key exactly if the path of its names reaches leaf v |
| `Flattening.EntriesAreLeaves` | internal/config/loader.go:170-189 | with such names there are as many entries as leaves |
| `Flattening.SameResultIff` | internal/config/loader.go:180-183 | two maps flatten to the same result exactly if they are equal up to parts without leaves |
| `Flattening.CanBeRebuilt` | internal/config/loader.go:163-169 | among maps without empty sub-maps the result determines the map |
| `Ranks.InsertionSort` | spikes/tenant-isolation/internal/probe/speed.go:225-229 | sorts in place, keeping the multiset of samples |
| `Ranks.AtMostCounts` | spikes/knative-coldstart/internal/measure/stats.go:15-18 | the count that ranks are defined by is the number of indices with a sample at most v |
| `Ranks.SortedHoldsRank` | spikes/tenant-isolation/internal/probe/speed.go:220-235 | index k of any sorted permutation holds the k-th smallest sample, defined by counting |
| `Ranks.NearestRankIff` | spikes/knative-coldstart/internal/measure/stats.go:15-18 | the least sample with at least p percent at or below it is the sample of rank ceil(p/100 n) - 1 |
| `Ranks.NearestRankOrder` | spikes/knative-coldstart/internal/measure/stats.go:52-57 | percentiles grow with p |
| `Ranks.HundredIsMax` | spikes/knative-coldstart/internal/measure/stats.go:56-62 | the percentile for 100 is the largest sample |
| `Percentiles.IndexInRangeIff` | spikes/nats-routing/internal/spike/stats.go:28-33 | the unclamped index is in range exactly for p in (0, 100] |
| `Percentiles.PercentileAtIsNearest` | spikes/knative-coldstart/internal/measure/stats.go:58-81 | for every sample set and every p in (0, 100] the clamped index gives the nearest-rank percentile, and beyond it the least or the largest sample |
| `Percentiles.ComputeStats` | spikes/knative-coldstart/internal/measure/stats.go:22-56 | the figures describe exactly the times at the indices of samples that did not fail, in order and each as often as taken, and the failures counted are the indices of those that did |
| `Percentiles.Pct` | spikes/nats-routing/internal/spike/stats.go:28-33 | for p in (0, 100] the unclamped lookup is safe and agrees with the clamped one |
| `Percentiles.ComputePercentiles` | spikes/nats-routing/internal/spike/stats.go:20-43 | sorts its slice in place and reports the nearest-rank figures of the original samples |
| `Percentiles.Percentile` | spikes/scylladb-accounts/internal/bench/stats.go:14-28 | sorts in place (nothing changes if sorted), and for every p returns what the other implementation's clamped lookup returns |
| `Percentiles.MinDuration` | spikes/scylladb-accounts/internal/bench/stats.go:32-43 | a least sample, zero for none |
| `Percentiles.MaxDuration` | spikes/scylladb-accounts/internal/bench/stats.go:47-58 | a largest sample, zero for none |
| `Percentiles.BuildResult` | spikes/scylladb-accounts/internal/bench/stats.go:62-76 | the repeated sorts change nothing, and the figures describe the original samples |
| `Percentiles.FiguresInOrder` | spikes/knative-coldstart/internal/measure/stats.go:49-56 | min, p50, p95, p99 and max are in order and bound every sample |
| `Percentiles.FiguresAgree` | spikes/knative-coldstart/internal/measure/stats.go:19-20 | the implementations agree: the same samples in any order have the same figures |
| `SpeedStats.RoundedIsNearest` | spikes/tenant-isolation/internal/probe/speed.go:230-233 | for p in 0..100 the rounded index is the position nearest to p percent of the way and needs no clamp |
| `SpeedStats.ClampActsIff` | spikes/tenant-isolation/internal/probe/speed.go:231-233 | the clamp acts exactly from n - 1/2 positions on |
| `SpeedStats.PercentileDuration` | spikes/tenant-isolation/internal/probe/speed.go:220-235 | sorts its slice in place and returns the sample of the rounded rank of the original samples |
| `SpeedStats.ComputeSpeedStats` | spikes/tenant-isolation/internal/probe/speed.go:192-216 | the figures are those of exactly the times, of the virtual cluster and of NATS, at the indices of samples that did not fail, the failures are counted, and P50 never exceeds P95 |
| `Selections.SelectionCounts` | spikes/tenant-isolation/internal/probe/speed.go:193-203 | what a filtering loop keeps has each value as often as a kept element has it |
| `Selections.SelectionUnique` | spikes/tenant-isolation/internal/probe/speed.go:193-203 | and there is only one such sequence |
| `SpeedStats.WithinOneOfNearestRank` | spikes/tenant-isolation/internal/probe/speed.go:230 | the rounded index is at most one position from the nearest rank, and can be one off |
| `Statements.IsCommentIff` | internal/accounts/session.go:86 | a line is dropped exactly if it is white space followed by two hyphens |
| `Statements.SplitStatements` | internal/accounts/session.go:83-93 | no piece has a semicolon, joined they are the lines that are no comments, and there is one piece more than semicolons |
| `Statements.PiecesDetermined` | internal/accounts/session.go:92 | that determines the pieces |
| `Statements.CommentsDoNotMatter` | internal/accounts/session.go:81-89 | a comment line anywhere, whatever it contains, does not change the statements |
| `Statements.NothingToClean` | internal/accounts/session.go:84-91 | a file without comment lines is only given a final newline |
| `Statements.ApplySchema` | internal/accounts/session.go:63-79 | the pieces that are more than white space are sent without the white space at their ends, in order, up to and including the first that fails |
| `Labels.ValidateNamespace` | internal/provisioner/cnp.go:137-154 | accepts exactly what the pattern matches, and otherwise names the first offending character |
| `Labels.ScannerIsPattern` | services/provisioner/handler.go:33-35 | the pattern, with the meaning of regular expressions, matches exactly the strings all of whose characters the scanner lets pass |
| `Labels.NamespaceAccepted` | services/provisioner/service/service.go:146 | the namespace of a slug is accepted exactly if the slug is non-empty, does not end in a hyphen and has only label characters, so whenever the slug is accepted |
| `Labels.PrefixCoversOnlyOwn` | internal/provisioner/kubeconfig.go:33-49 | for accepted ids a tenant's path prefix covers its own path and no other, and paths are distinct |
| `Labels.SlashCovers` | internal/provisioner/kubeconfig.go:152-165 | without validation a prefix can cover another id's path |
| `Ansi.StripANSI` | spikes/cilium-enforcement/internal/probe/table.go:72-87 | the nested index loops terminate on every input and drop exactly each opened sequence up to its 'm' or the end |
| `Ansi.StripsToText` | spikes/cilium-enforcement/internal/probe/table.go:71 | any mix of ESC-free text and colour sequences is stripped to its text (section 8.3.117 of ECMA-48) |
| `Ansi.UnchangedIff` | spikes/cilium-enforcement/internal/probe/table.go:76-84 | exactly the strings in which no sequence opens are left alone |
| `Ansi.StripTwiceIff` | spikes/cilium-enforcement/internal/probe/table.go:72-87 | stripping twice is stripping once exactly if no kept ESC is followed, after removed sequences, by a kept '[' |
| `Ansi.NotIdempotent` | spikes/cilium-enforcement/internal/probe/table.go:72-87 | a string on which stripping twice differs from stripping once |
| `Ansi.StripUndoesColor` | spikes/cilium-enforcement/internal/probe/table.go:57-69 | inside any ESC-free line stripping undoes colouring |
| `Ansi.VerdictColours` | spikes/cilium-enforcement/internal/probe/table.go:58-69 | a pass is shown green, a failure red, a skip yellow, and reset (section 8.3.117 of ECMA-48) |
| `Joining.SplitThenJoin` | internal/accounts/session.go:85 | splitting and joining again is the identity, pieces are free of the separator, and there is one more than separators |
| `Joining.JoinThenSplit` | internal/config/loader.go:174-177 | joining pieces free of the separator and splitting again is the identity |

## Left out

- HTTP handlers, generated servers and clients, error-to-status mapping, metrics, logging, tracing: plumbing.
- kubectl, vcluster, OpenBao, NATS and gocql themselves: each call is one step that may fail.
- Password hashing, key generation and hashing: a step that may fail, and a hash that is picked.
- An error of the reads in `GetJob` and `Lookup`, which is passed on to the caller and changes nothing.
- Lag of the materialised views: the reads by slug and by e-mail see the base tables.
- Concurrent statements of one row with the same timestamp, and the store's replication: statements are atomic.
- A dirty statement that takes effect after its caller has gone on.
- The wiring of the allocator into the workflow: the code uses one fixed pair for every tenant, and so does the model.
- Decoding a struct into a nested map, environment variables and secret files of the configuration loader.
- Floating-point rounding in the percentile code, and the throughput figure.
- The text of errors beyond the stage that failed, and the contents of the result blob.
- Expiry, scopes, display names and time stamps of API keys, users and tenants: columns no protocol step reads.
- Printing of tables, the probes that interpret command output, the benchmark drivers and the other spikes.
