# Verified model of the Linode provider for Karpenter

The provider turns Karpenter NodeClaims into Linode instances that belong to LKE node pools. This project models
the parts of it whose correctness depends on many steps or many actors, and proves what they keep:

* **The claim-or-scale protocol** (`CloudModel`, `Protocol`, `ProtocolInv`, `ProtocolTheorems`, `ProtocolProgress`). Create calls, Delete
  calls and in-place tag updates are processes that take one step at a time: one Linode API call, or taking or
  leaving the pool mutex. An API call succeeds, fails, or takes effect and still returns an error. Instances finish
  provisioning and the provider restarts at any moment. A run is any sequence of such events. `Step` is total: an
  event that is not possible in a state leaves it alone. The hash that maps a pool key to one of the mutex's locks
  is arbitrary, so different keys may share a lock.
* **Tags** (`TagText`, `Tags`, `ClaimMarks`, `ClaimIdentity`, `InPlaceTags`). Parser, printer and canonical form of tags, the claim
  tag an instance is marked with, and the three-way merge of existing, previously applied and desired tags over any
  history of attempts. The protocol writes its claims and updates through these same functions.
* **Caches** (`OfferingCache`, `OfferingHistory`, `InstanceTypes`). The offering cache guarded by sequence numbers, and the capacity
  discovered from registered nodes laid over cached instance types.
* **Smaller machines and arithmetic** (`Backoff`, `HashMigration`, `Reservations`).

Methods carry the loops and the state of the code and are proved equal to functions or relations on values; the
lemmas about runs use the same functions. Apart from the hypotheses below, where a promise holds only under a
condition, the condition is proved to be exact, or an instance is given in which the promise fails without it.

`dafny verify dfyconfig.toml` checks everything.

## Hypotheses of the protocol

* API steps are atomic and reads see all earlier writes; instance IDs are positive and never used twice.
* Creates for one NodeClaim do not overlap, and Creates that run at the same time have different claim tags.
* Claims and NodePools have non-empty names.
* The tags of an instance nobody has claimed yet do not have the text `karpenter.sh/nodeclaim=` in them. Tags of
  NodeClasses and pools may. `UnclaimedQuoteLosesClaim` says what goes wrong otherwise.
* Nobody but the provider changes managed pools and the tags of their instances; a pool's node list includes nodes
  that are still provisioning.
* The Enterprise filter returns only instances of the pool, not necessarily all. As it is a contains filter this holds
  exactly while no pool with a live instance has a decimal ID that strictly extends the pool's
  (`DiscoveryPreciseExactly`); the filter for pool 12 also finds the instances of pool 123.
* In-place updates concern instances that some Create has returned, or that were marked at the start.

In-place updates merge any lists: the controller does not check that a NodeClass passes validation. A list that names
the claim key can move or remove an instance's claim (`ClaimKeyListUnclaims`). The model records this as a forged
claim. Results about who holds a claim are for states without one, and `ForgedExactly`, `ForgedByUpdate` and
`RunUnforged` say when that is; results about pools, deletes and capacity do not depend on it.

## Where the code and its documentation differ

* `docs/lke-nodepool-scaleup.md` in several places writes the claim tag as `karpenter.sh/nodeclaim:<name>`; the code,
  and this model, use `=`.
* The claim lookup is described as a lookup of the claim's instance; it is a contains filter, so it also finds
  instances of claims whose value extends this one's, and instances with any tag that quotes the claim's tag, such as
  the class tag `team=karpenter.sh/nodeclaim=a`, which passes validation (`LookupPreciseExactly`,
  `LongerNameIsReturned`, `QuotingTagMatches`, `QuotingTagIsReturned`).
* The backoff is described as bounded by its maximum; the first delay is the base even above it (`CappedExactly`).

## Model

| member | source | states |
|---|---|---|
| ProtocolTheorems.ClaimIsForLife | pkg/providers/lke/lke.go:293-353 | from any state of the invariant, whatever events follow, an instance that carries a claim carries exactly that claim for as long as it lives and no in-place update has forged a claim: it is never claimed again for another NodeClaim |
| ProtocolTheorems.ClaimUnderRightLock | pkg/providers/lke/lke.go:379-387 | a Create about to write its claim holds the lock of the only key whose pools hold the instance, and that instance is unclaimed if it still lives and no claim was forged |
| ProtocolTheorems.AtMostOneHolder | pkg/providers/lke/lke.go:575-597 | in every reachable state without a forged claim, also after tag writes that took effect but returned an error, at most one live instance carries a claim's tag |
| ProtocolTheorems.ForgedExactly | pkg/controllers/nodeclass/inplaceupdate/controller.go:120-130 | a step of a state without forged claims forges one if and only if it takes or replaces the claim of an instance that lives on |
| ProtocolTheorems.ForgedByUpdate | pkg/controllers/nodeclass/inplaceupdate/controller.go:101-147 | nothing but the write of an in-place update whose lists name the claim key forges a claim |
| ProtocolTheorems.RunUnforged | pkg/controllers/nodeclass/inplaceupdate/controller.go:101-147 | in a run whose in-place lists do not name the claim key no claim is forged |
| ProtocolTheorems.LaterSuccessReturnsHolder | pkg/providers/lke/lke.go:202-208 | once an instance carries a claim, a later successful Create for that claim returns that instance, if both live and no live instance carries a longer name, if and only if its lookup was not answered by a tag that only quotes the claim's |
| ProtocolTheorems.SuccessesAgree | pkg/providers/lke/lke.go:298-305 | two successful Creates for one NodeClaim returned the same instance if both live and neither lookup was answered by a quoting tag, and different ones if exactly one was |
| ProtocolTheorems.ReturnedIsOwn | pkg/providers/lke/lke.go:320-328 | what a successful Create returned carries exactly the claim's tag while it lives, when no longer name is around, if and only if the lookup was not answered by a quoting tag |
| ProtocolTheorems.LookupPreciseExactly | pkg/utils/utils.go:265-287 | the contains lookup finds only the claim's own instance if and only if no live instance carries a claim value that strictly extends this one and no other instance has a tag that quotes the claim's tag |
| ProtocolTheorems.LongerNameIsReturned | pkg/providers/lke/lke.go:202-208 | a Create whose first lookup is shown a longer name's instance returns that foreign instance at once |
| ProtocolTheorems.QuotingTagIsReturned | pkg/providers/lke/lke.go:202-208 | a Create whose first lookup is shown another claim's instance with a tag that quotes its own returns that foreign instance at once |
| ProtocolTheorems.UnclaimedQuoteLosesClaim | pkg/providers/lke/lke.go:202-208 | an unclaimed instance that quotes one claim is returned to it, and an in-place update that reads it before another Create claims it writes that claim away |
| ProtocolTheorems.RunEndsUnquoted | pkg/utils/utils.go:265-287 | if before every event of a run no other instance has a tag quoting the claim's, no Create for the claim is answered by a quoting tag |
| ProtocolTheorems.UnquotedRunsAgree | pkg/providers/lke/lke.go:298-305 | in such a run all successful Creates for the claim returned one instance, among those that live, when no longer name is around |
| ProtocolTheorems.MadePoolTagsFit | pkg/providers/lke/lke.go:189-195 | every tag a Create makes a pool with fits Linode's limit, because the call ends at once otherwise |
| ProtocolTheorems.DiscoveryPreciseExactly | pkg/providers/lke/lke.go:544-573 | the Enterprise discovery finds only instances of its pool if and only if no pool with a live instance has a decimal ID that strictly extends this one's |
| ProtocolTheorems.OnePoolPerKey | pkg/providers/lke/lke.go:389-444 | in every reachable state a NodePool and an instance type have at most one managed pool, even when the response of a pool creation was lost |
| ProtocolTheorems.DeleteUnderRightLock | pkg/providers/lke/lke.go:739-764 | the key Delete read before it held the lock is still the key of the pool it finds under the lock |
| ProtocolTheorems.DeleteRemovesOnly | pkg/providers/lke/lke.go:755-794 | a step of Delete(i) changes nothing, or takes away i's node and i, and i's pool exactly when i was its last node |
| ProtocolTheorems.DeletedIsGone | pkg/providers/lke/lke.go:766-793 | after a Delete that reported success no instance and no node has the ID, ever again |
| ProtocolTheorems.ZeroTakesProvisioningNode | pkg/providers/lke/lke.go:896-899 | ID 0 stands for a node still provisioning: an undisturbed Delete(0) takes the one it is shown, with the whole pool exactly when that node is alone in it |
| ProtocolTheorems.ZeroRemovesExactly | pkg/providers/lke/lke.go:883-902 | an undisturbed Delete(0) can take something away if and only if a managed pool has a node still provisioning |
| ProtocolTheorems.ZeroLocksWrongKey | pkg/providers/lke/lke.go:753-766 | with such nodes in pools of two keys, Delete(0) can hold one key's lock and drop the other's node |
| ProtocolTheorems.NoIncrementLost | pkg/providers/lke/lke.go:339 | in every reachable state a pool's count is its number of nodes and equals base plus applied increments minus applied node deletions |
| ProtocolTheorems.ScaleAddsOne | pkg/providers/lke/lke.go:330-350 | a scale that takes effect, acknowledged or not, adds exactly one node to its pool and changes nothing else |
| ProtocolTheorems.CapacityOfOneCall | pkg/providers/lke/lke.go:219-244 | over all attempts of one Create at most one scale is acknowledged, none once a pool creation was, and pools plus scales exceed one only by as many pools of the key as vanished during the call |
| ProtocolTheorems.CapacitySinceStart | pkg/providers/lke/lke.go:219-244 | between any state before a Create began and any later one, its acknowledged pools and scales exceed one only by as many pools of its key as went away in between |
| ProtocolTheorems.VanishedExactly | pkg/providers/lke/lke.go:766-776 | the count of a key's pools gone rises by one exactly when an event takes the key's pool away |
| ProtocolTheorems.NeverStuck | pkg/providers/lke/lke.go:188-353 | in every reachable state each unfinished Create, Delete or update that does not wait for a taken lock has a next step in which its API call succeeds; for a Create that verifies its claim on a live instance, with no claim forged, this step finds the claim |
| ProtocolProgress.FirstFreeIsClaimed | pkg/providers/lke/lke.go:507-535 | a Create of the standard tier that has its pool goes on to claim the first listed node's instance that lives and is unclaimed, with the tags it has; provisioning nodes, missing and claimed instances before it are passed over |
| ProtocolProgress.NoneFreeIsScaled | pkg/providers/lke/lke.go:320-339 | with no such instance in the pool it goes on to scale, or to wait when the call already added capacity |
| ProtocolProgress.FirstFreeIsClaimedEnterprise | pkg/providers/lke/lke.go:555-570 | the Enterprise tier claims the first discovered instance of the type that lives and is unclaimed |
| ProtocolProgress.NoneFreeIsScaledEnterprise | pkg/providers/lke/lke.go:560-572 | and with none goes on as the standard tier does |
| ProtocolProgress.LoneCreateClaims | pkg/providers/lke/lke.go:293-328 | from waiting for the lock to the result, a Create that acts alone over acknowledged calls returns the first free instance of its pool: the claim is written on it, the lock is as it was, nothing else changes |
| ProtocolProgress.LoneCreateReturns | pkg/providers/lke/lke.go:575-597 | a claim on a live instance is written over the tags read, seen, and its instance returned |
| ProtocolProgress.LoneCreateScales | pkg/providers/lke/lke.go:330-350 | a Create that acts alone and finds no free instance adds one node to its pool, nothing else, frees the lock and waits for its next attempt |
| ProtocolProgress.StartsAlone | pkg/providers/lke/lke.go:188-210 | pool tags too long end the call; a matching instance is returned at once; otherwise the lock is asked for |
| ProtocolProgress.RelooksAlone | pkg/providers/lke/lke.go:297-305 | under the lock a matching instance is the result, with none the pools are listed |
| ProtocolProgress.ListsAlone | pkg/providers/lke/lke.go:389-406 | the managed pool of the key is used, after pinning its version when another one is asked for; without one a pool is made |
| ProtocolProgress.MakesAlone | pkg/providers/lke/lke.go:406-443 | the pool made has the call's type, version and tags and one provisioning node, and the call remembers it made one |
| ProtocolProgress.VerifiesAlone | pkg/providers/lke/lke.go:599-626 | the exact claim tag on the instance ends the attempt with it; without it the call looks again until it gives up and retries |
| ProtocolProgress.FailureIsHandled | pkg/providers/lke/lke.go:202-349 | a failed call, and a read whose response is lost, changes nothing but where the Create is: before the lock it ends in an error, a failed claim is retried, other errors are retried if retryable and are the result if not |
| ProtocolProgress.LostWriteTakesEffect | pkg/providers/lke/lke.go:339-348 | a write whose response is lost has the effect of an acknowledged one and is handled as a failure |
| ProtocolProgress.DeleteResultMeans | pkg/providers/lke/lke.go:739-794 | in every reachable state: NotFound means no managed pool shows the instance and comes only from an answered look; Deleted means it is removed and comes only from an acknowledged drop; an error comes exactly from a failed or lost API call, and a failed one changes nothing |
| ProtocolProgress.LoneDelete | pkg/providers/lke/lke.go:739-793 | a Delete that acts alone removes the node of its instance, and the pool exactly when it was the pool's last, frees its lock and reports success |
| ProtocolProgress.LostDropTakesEffect | pkg/providers/lke/lke.go:767-790 | a drop whose response is lost takes the effect of an acknowledged one |
| ProtocolProgress.LoneUpdateReconciles | pkg/controllers/nodeclass/inplaceupdate/controller.go:101-130 | the two steps of an in-place update that nothing interrupts leave the tags of one reconcile, for every reply, and touch nothing else |
| ProtocolInv.StepKeepsInv | pkg/providers/lke/lke.go:293-353 | every event keeps the invariant: sound cloud, plain tags on unclaimed instances, locks held, distinct active claims, and what each process knows at its step |
| ProtocolInv.RunKeepsInv | pkg/providers/lke/lke.go:188-250 | the invariant holds after every sequence of events, whatever the interleaving, the failures and the restarts |
| ProtocolInv.Stable | pkg/providers/lke/lke.go:379-387 | what a process knows survives any step of another process that respects the lock |
| ProtocolInv.Exclusion | pkg/providers/lke/lke.go:379-387 | two processes in critical sections of one key are the same process |
| ProtocolInv.CreateStepGood | pkg/providers/lke/lke.go:293-353 | each step of Create leaves a sound cloud, changes only what others do not rely on, and establishes what its next step needs |
| ProtocolInv.DeleteStepGood | pkg/providers/lke/lke.go:739-794 | the same for each step of Delete |
| ProtocolInv.UpdateStepGood | pkg/controllers/nodeclass/inplaceupdate/controller.go:101-147 | the same for each step of the in-place update with any lists, also when it writes back tags it read before another write: it keeps all claims or is recorded as forging one |
| ProtocolInv.KeyFixedStable | pkg/providers/lke/lke.go:753-758 | the key of every managed pool an instance can be in does not change under any step of others |
| Protocol.FirstClaimable | pkg/providers/lke/lke.go:560-572 | Enterprise discovery takes a listed instance of the pool's type without a claim, with no such instance listed before it, and gives up only when there is none |
| CloudModel.CreatePoolKeeps | pkg/providers/lke/lke.go:406-443 | creating a pool for a key that has none keeps ids, counts, pool uniqueness and marks, and leaves other keys' pools alone |
| CloudModel.GrowKeeps | pkg/providers/lke/lke.go:339 | asking for one more than the current count adds exactly one node |
| CloudModel.DropPoolKeeps | pkg/providers/lke/lke.go:766-776 | dropping a one-node pool removes that pool, its node and its instance, and nothing else |
| CloudModel.DropNodeKeeps | pkg/providers/lke/lke.go:778-792 | dropping one of several nodes removes it and its instance, lowers the count by one, and nothing else |
| CloudModel.WriteTagsKeeps | pkg/providers/lke/lke.go:589-594 | a tag write that keeps an instance's mark, or puts a mark nobody has on an unmarked instance, keeps all marks unique |
| ClaimMarks.NodeClaimTagFits | pkg/utils/utils.go:139-162 | the claim tag never exceeds 50 bytes, long names give exactly 50, and the value is empty only for the empty name |
| ClaimIdentity.SameValueExactly | pkg/utils/utils.go:143-162 | names of at most 27 bytes share a value only when equal; longer ones exactly when their first 18 bytes and their hash are equal; a short and a long one exactly when the short one spells that prefix, a dash and the hash |
| ClaimIdentity.OneByteChangesHash | pkg/utils/utils.go:151-153 | two names that differ in one byte, wherever it is, have different hashes |
| ClaimIdentity.OneByteChangesTag | pkg/utils/utils.go:139-162 | so claims whose names differ in one byte have different tags |
| ClaimIdentity.HashesStayApart | pkg/utils/utils.go:151-153 | a common ending keeps the hashes of two names equal or different |
| ClaimIdentity.HexReadsBack | pkg/utils/utils.go:153 | the eight digits read back as the hash: printing loses nothing |
| ClaimIdentity.KnownHashes | pkg/utils/utils.go:151-153 | published FNV-1a values |
| ClaimMarks.DetectorsReadMarks | pkg/providers/lke/lke.go:531-534 | the claimability gate (key in the tag map) and the verification (exact tag) both read the marks of the tag list |
| ClaimMarks.ClaimTags | pkg/providers/lke/lke.go:576-588 | the loop-built, deduplicated and sorted tag list is the canonical list of the layered view |
| ClaimMarks.ClaimWriteMeaning | pkg/providers/lke/lke.go:576-588 | the written tags carry exactly one mark, the claim's; every opaque tag of the instance and the class stays; a key's value comes from the claim, else the class, else the pool, else the instance |
| ClaimMarks.ClaimSeenIffNamed | pkg/providers/lke/lke.go:599-626 | the key detector sees the write if and only if the claim's name is not empty |
| ClaimMarks.ClaimWriteSources | pkg/providers/lke/lke.go:576-588 | every written tag is the claim's or was on one of the merged lists |
| ClaimMarks.LookupMatchesPrefix | pkg/utils/utils.go:139-162 | one claim's lookup text occurs in another's tag if and only if its value is a prefix of the other's |
| ClaimMarks.LookupMatchesExactly | pkg/utils/utils.go:265-268 | on any tags the contains filter matches if and only if some mark starts with the claim's value or some tag quotes the claim's tag |
| ClaimMarks.QuotingTagMatches | pkg/utils/utils.go:168-192 | a class tag that quotes one claim's tag passes validation, and written with another claim it makes the first claim's lookup match an instance that carries only the other mark |
| ClaimMarks.PoolFilterMatchesPrefix | pkg/providers/lke/lke.go:544-553 | the filter for one pool's tag matches another pool's if and only if its decimal ID begins the other's |
| ClaimMarks.PoolFilterMatchesAnother | pkg/providers/lke/lke.go:547 | the filter for pool 12 also matches the instances of pool 123 |
| ClaimMarks.CreatedPoolReadsBack | pkg/providers/lke/lke.go:471-480 | the NodePool label is read back from the tags a pool is created with, in any order, if and only if it is not empty |
| ClaimMarks.CreatedPoolIdentity | pkg/utils/utils.go:127-137 | the cluster's name, the NodeClass's name and the managed label read back from the tags a pool is created with, in any order |
| ClaimMarks.ManagedExactly | pkg/providers/lke/lke.go:707-712 | a pool is managed exactly when some tag gives it a NodePool and some tag the managed label |
| TagText.SplitOfPrint | pkg/utils/utils.go:256-262 | splitting undoes printing exactly for non-empty keys without `=` and non-empty values |
| TagText.PrintOfSplit | pkg/utils/utils.go:256-262 | printing undoes splitting on every tag that is a pair |
| TagText.AscendingUnique | pkg/controllers/nodeclass/inplaceupdate/controller.go:204 | two ascending duplicate-free lists with the same members are the same list |
| TagText.SortAscending | pkg/controllers/nodeclass/inplaceupdate/controller.go:204 | sorting a list without repetitions gives an ascending list |
| TagText.SortIsSortedSeq | pkg/controllers/nodeclass/inplaceupdate/controller.go:204 | sorting a list without repetitions gives the one ascending list of its members |
| TagText.LessExactly | pkg/controllers/nodeclass/inplaceupdate/controller.go:204 | the order of tags is bytewise: a proper beginning, or the smaller byte where two tags first differ |
| Tags.TagListToMap | pkg/utils/utils.go:209-219 | the map holds for each key the value of the last pair with that key |
| Tags.MapToTagList | pkg/utils/utils.go:221-227 | the list has exactly the printed pairs of the map |
| Tags.DedupeTags | pkg/utils/utils.go:229-243 | the list without empty tags and later repetitions |
| Tags.OpaqueTags | pkg/utils/utils.go:245-254 | the tags that are not pairs, in order |
| Tags.TagMapMembers | pkg/utils/utils.go:209-219 | every key of the map is a good key whose printed pair is in the list, and every pair of the list has its key in the map |
| Tags.TagMapLastWins | pkg/utils/utils.go:209-219 | a key has a value in the map exactly when the last pair of the list with that key has it |
| Tags.OpaqueListInOrder | pkg/utils/utils.go:245-254 | the opaque tags of two lists in a row are those of the first and then those of the second |
| Tags.DedupeInOrder | pkg/utils/utils.go:229-243 | what comes later in a list changes neither which tags of its beginning are kept nor their order |
| Tags.ViewOfPrinted | pkg/utils/utils.go:209-262 | a list that prints a view, in any order, parses back to that view |
| Tags.NormalizeTagList | pkg/controllers/nodeclass/inplaceupdate/controller.go:201-206 | the method computes the canonical list |
| Tags.NormalizeCanonical | pkg/controllers/nodeclass/inplaceupdate/controller.go:201-206 | two lists normalise to the same sequence if and only if they parse to the same map and have the same non-empty opaque tags |
| Tags.NormalizeIdempotent | pkg/controllers/nodeclass/inplaceupdate/controller.go:201-206 | normalising twice is normalising once |
| Tags.NormalizeKeepsView | pkg/controllers/nodeclass/inplaceupdate/controller.go:201-206 | normalising loses and invents no key, value or non-empty opaque tag |
| Tags.ValidateTags | pkg/utils/utils.go:168-192 | the method collects the tags with a restricted key, once each |
| Tags.ValidTagsMeaning | pkg/utils/utils.go:168-192 | a list passes validation if and only if its map has none of the six provider-managed keys |
| InPlaceTags.DesiredUserTagsForInstance | pkg/controllers/nodeclass/inplaceupdate/controller.go:171-199 | the deletions and overlays of the loops give the three-way merge of existing, previously applied and desired tags |
| InPlaceTags.NodeClaimTags.UpdateNodeClaimTags | pkg/controllers/nodeclass/inplaceupdate/controller.go:101-147 | new tags and record in full, for every failure of the read, the write and the patch; it succeeds if and only if the read did, the write was applied or not needed, and the patch was applied or not needed, and then the tags are merged and recorded |
| InPlaceTags.ReconcileExactly | pkg/controllers/nodeclass/inplaceupdate/controller.go:120-146 | the whole table of one reconcile: the tags change only by a needed, effective write, and then to the canonical merge; the record is written exactly when the merge is known to be there and the patch is not refused |
| InPlaceTags.ReconcileView | pkg/controllers/nodeclass/inplaceupdate/controller.go:120-146 | every attempt leaves the instance's meaning as it was or as the merge says, and records only after the merge |
| InPlaceTags.HistoryCollapses | pkg/controllers/nodeclass/inplaceupdate/controller.go:101-147 | closed form of any history: the original tags without everything the earlier lists owned, overlaid with the last list |
| InPlaceTags.ForeignKeptExactly | pkg/controllers/nodeclass/inplaceupdate/controller.go:171-199 | after any history the instance holds the original tags overlaid with the last list if and only if every original key or opaque tag an earlier list also named is named by the last one |
| InPlaceTags.RetriesConverge | pkg/controllers/nodeclass/inplaceupdate/controller.go:120-146 | after any failed attempts with the same list, one success reaches the tags that one undisturbed success reaches |
| InPlaceTags.CrashThenChangeExactly | pkg/controllers/nodeclass/inplaceupdate/controller.go:124-146 | after a crash between write and patch with a changed list, the next success is as if the crash had not been if and only if every tag only the crashed list names was already there with that value |
| InPlaceTags.UnnamedKeyUntouched | pkg/controllers/nodeclass/inplaceupdate/controller.go:171-199 | a key no list names keeps presence and value through every run of attempts |
| InPlaceTags.ManagedKeysSurvive | pkg/utils/utils.go:54-61 | if all lists pass validation, no run of in-place updates alters a provider-managed key |
| InPlaceTags.ManagedKeysSurviveExactly | pkg/controllers/nodeclass/inplaceupdate/controller.go:101-147 | over all runs with user lists of a family no provider-managed key is altered if and only if all lists of the family pass validation |
| InPlaceTags.MergeSources | pkg/controllers/nodeclass/inplaceupdate/controller.go:171-199 | every merged tag was on the instance or is desired |
| InPlaceTags.MergeKeepsMarksExactly | pkg/controllers/nodeclass/inplaceupdate/controller.go:171-199 | the merge keeps the claim mark of an instance that carries at most one if and only if the desired list sets the claim key to that mark, or does not name it and the previous list does not take it |
| InPlaceTags.ClaimKeyListUnclaims | pkg/controllers/nodeclass/inplaceupdate/controller.go:171-199 | a claim tag added to a live class's list moves an instance's mark to it, and taken out again leaves the instance unmarked |
| Backoff.BackoffTracker.Check | pkg/utils/utils.go:386-397 | rejects exactly while a visible entry's retry time is ahead |
| Backoff.BackoffTracker.RecordFailure | pkg/utils/utils.go:401-410 | the whole new table after a failure |
| Backoff.BackoffTracker.Clear | pkg/utils/utils.go:413-415 | the table without the key |
| Backoff.ClosedForm | pkg/utils/utils.go:401-410 | after any failures from a fresh start the entry counts the streak unbroken by expiry and has the closed-form delay and retry time |
| Backoff.CappedExactly | pkg/utils/utils.go:401-410 | the delay is min(base*2^(n-1), max) after every n if and only if base <= max, because the first delay is not capped |
| Backoff.RejectsExactly | pkg/utils/utils.go:386-397 | Check rejects at a time if and only if it is before the last failure plus its delay and the entry has not expired |
| Backoff.RejectsForTheDelay | pkg/utils/utils.go:380-410 | with base <= max <= one hour no delay is cut short, and doubling stays within twice the maximum |
| Backoff.ObservePoolAttempt | pkg/providers/lke/lke.go:255-264 | an attempt that reached the pool clears the key; a pool failure is handed on |
| Backoff.RunAttempts | pkg/providers/lke/lke.go:217-244 | the retry loop leaves the tracker as the attempts it made, up to deadline, cancellation or a final result, say |
| Backoff.MadeExactly | pkg/providers/lke/lke.go:223-244 | the attempts made all began in time and uncancelled; all but the last found no free instance or failed retryably; the loop stops only at the deadline, a cancellation, a success or a final failure |
| Backoff.OneFailureACall | pkg/providers/lke/lke.go:217-229 | over one Create that nothing interleaves with, the failure count ends as previous + 1, 1, previous or 0, by whether an attempt succeeded or found no free instance and whether the last one made ended in a retryable pool failure |
| Backoff.OpsAreTheCall | pkg/providers/lke/lke.go:255-270 | the clears of a call's attempts followed by its one failure leave what RunAttempts leaves |
| Backoff.CountIsCallsSinceClear | pkg/providers/lke/lke.go:255-270 | whatever the interleaving of the calls on one key, if no entry expires the failures counted are the calls that recorded one since the key was last cleared |
| OfferingCache.UnavailableOfferings.MarkUnavailable | pkg/cache/unavailableofferings.go:80-91 | the mark with its new expiry, and the type's counter one higher |
| OfferingCache.UnavailableOfferings.MarkRegionUnavailable | pkg/cache/unavailableofferings.go:93-96 | the region mark with its new expiry, and the region counter one higher |
| OfferingCache.UnavailableOfferings.Delete | pkg/cache/unavailableofferings.go:98-100 | a mark that is there, expired or not, goes and is counted; otherwise nothing changes |
| OfferingCache.UnavailableOfferings.EvictExpired | pkg/cache/unavailableofferings.go:48-56 | exactly the marks past their expiry go and each type's counter rises by the number of its evicted marks |
| OfferingCache.UnavailableOfferings.EvictRegion | pkg/cache/unavailableofferings.go:57-59 | an expired region mark goes and is counted |
| OfferingCache.OfferingProvider.InvalidateCache | pkg/providers/instancetype/offering/offering.go:61-63 | no cached answer is left, the stored sequence numbers stay |
| OfferingCache.OfferingProvider.CreateOfferings | pkg/providers/instancetype/offering/offering.go:94-142 | the loop over the regions returns and stores what the cached or recomputed answer is |
| OfferingCache.OfferingProvider.InjectOfferings | pkg/providers/instancetype/offering/offering.go:65-92 | the types are answered one after the other over the store the earlier ones left |
| OfferingCache.CacheKeyNamesType | pkg/providers/instancetype/offering/offering.go:144-155 | a cache key determines its type and region hash |
| OfferingCache.StepAgrees | pkg/providers/instancetype/offering/offering.go:103-138 | a usable answer is what the current marks gave when it was stored; every event keeps that |
| OfferingCache.AnswersAreSafe | pkg/providers/instancetype/offering/offering.go:94-142 | after any run, once every stored mark is counted, an answer names every region and offers none that a computation from scratch would not offer now, whatever drops are still to be counted |
| OfferingCache.SafeExactly | pkg/cache/unavailableofferings.go:80-96 | over all runs answers are safe if and only if states with a stored but uncounted mark are left out |
| OfferingCache.StepOffersNothingMarked | pkg/providers/instancetype/offering/offering.go:103-138 | every event keeps that a usable answer offers nothing marked now, if every stored mark is counted |
| OfferingCache.AnswersAreExact | pkg/providers/instancetype/offering/offering.go:94-142 | and, changes being counted, it is the computation from scratch if and only if the cached answer is not used or no region offered has been marked when it was stored and has had all its marks expire since |
| OfferingCache.NoneLingersIsExact | pkg/providers/instancetype/offering/offering.go:94-142 | in particular it is when no expired mark awaits its eviction |
| OfferingCache.CallsAnswerSafely | pkg/cache/unavailableofferings.go:48-100 | after every sequence of calls that count at once an answer is safe, and exact when no expired mark awaits its eviction |
| OfferingCache.UncountedMarkIsMissed | pkg/cache/unavailableofferings.go:87-90 | between the store of a mark and its count a cached answer still offers the marked region |
| OfferingCache.TwoKeysGoStale | pkg/providers/instancetype/offering/offering.go:104-107 | with two cache keys for one type an answer can offer a region that is marked and counted |
| OfferingCache.LingeringMarkIsKept | pkg/providers/instancetype/offering/offering.go:103-109 | an expired mark not yet evicted leaves the cached answer closed though a computation would open it |
| OfferingHistory.ComputedByHistory | pkg/providers/instancetype/offering/offering.go:111-136 | after any run a recomputation names exactly the regions some plan is offered in, and offers the type in one if and only if it is offered there and neither its own last mark nor the region's last mark is still there and at most 180 seconds old |
| OfferingHistory.AnswersByHistory | pkg/cache/unavailableofferings.go:72-76 | with every stored mark counted no answer, cached or not, offers the type in a region where it or the region was marked at most 180 seconds ago and the mark was not dropped |
| OfferingHistory.StateByHistory | pkg/cache/unavailableofferings.go:80-100 | the marks, the time and the availability of a state are those of the last events that set them |
| OfferingHistory.AnswerLives | pkg/providers/instancetype/offering/offering.go:102-138 | an answer is used for 300 seconds while the sequence number stays, then computed anew |
| OfferingHistory.CountedMarkRecomputes | pkg/cache/unavailableofferings.go:62-70 | a counted mark of the type or of any region makes the next call compute anew |
| InstanceTypes.ListKeyNamesAll | pkg/providers/instancetype/instancetype.go:196-203 | the key of a cached list determines image set, NodeClass name and kubelet configuration |
| InstanceTypes.InstanceTypeProvider.List | pkg/providers/instancetype/instancetype.go:100-137 | the cached list, or a fresh one that is then cached, or an error before types and offerings are known |
| InstanceTypes.InstanceTypeProvider.Get | pkg/providers/instancetype/instancetype.go:140-167 | the type of the cached list, or a fresh resolve |
| InstanceTypes.InstanceTypeProvider.UpdateInstanceTypes | pkg/providers/instancetype/instancetype.go:205-232 | the types are replaced and cached lists dropped when they changed |
| InstanceTypes.InstanceTypeProvider.UpdateInstanceTypeOfferings | pkg/providers/instancetype/instancetype.go:234-277 | the collected availability has exactly the reported plans and available regions; both caches are dropped when it changed |
| InstanceTypes.InstanceTypeProvider.UpdateInstanceTypeCapacityFromNode | pkg/providers/instancetype/instancetype.go:279-323 | a report only lowers known quantities and drops the class's list exactly when a quantity changed |
| InstanceTypes.DiscoveredIsMinimum | pkg/providers/instancetype/instancetype.go:279-323 | after any run, with expiries, the discovered capacity of a type and image set is the least memory and the least storage among the nodes that registered since its entry last started, and nothing else of them |
| InstanceTypes.ResolvedByHistory | pkg/providers/instancetype/instancetype.go:169-194 | after any run a fresh resolve succeeds exactly for a known type the resolver accepts, with the predicted overhead and, of each quantity, that least one or else the predicted one |
| InstanceTypes.ReportDropsList | pkg/providers/instancetype/instancetype.go:303-321 | a report drops the class's cached list exactly when it lowers, or first gives, the memory or the storage |
| InstanceTypes.OrderDoesNotMatter | pkg/providers/instancetype/instancetype.go:279-323 | runs with the same set of such reports have the same discovered capacity |
| InstanceTypes.SharedKeysAnswerFresh | pkg/providers/instancetype/instancetype.go:113-128 | when classes with one image set share their list key, List and Get answer as a fresh resolve overlaid with the discovered minimum, unless a discovered entry of the image set has expired since the list was cached |
| InstanceTypes.SharedImagesGoStale | pkg/providers/instancetype/instancetype.go:316-319 | for any two classes with one image set and different keys there is a run after which an answer is stale |
| InstanceTypes.ExpiryGoesStale | pkg/providers/instancetype/instancetype.go:177-185 | for any class there is a run in which a discovered entry expires under its cached list and an answer is stale |
| InstanceTypes.FreshExactly | pkg/providers/instancetype/instancetype.go:100-194 | over all runs the answers are fresh if and only if classes with one image set share their key and runs in which a discovered entry expires under a cached list are left out |
| HashMigration.HashController.UpdateNodeClaimHash | pkg/controllers/nodeclass/hash/controller.go:77-105 | every listed claim at another version is rewritten unless its patch is refused, a drifted one without its hash; the call fails exactly when some patch does |
| HashMigration.HashController.Reconcile | pkg/controllers/nodeclass/hash/controller.go:44-64 | the class follows only when the list and all patches succeeded, and then all claims are at the new version; the call fails if and only if the list or a patch of a pending migration does or the class's own patch is needed and not applied |
| HashMigration.DriftNeedsOneVersion | pkg/cloudprovider/drift.go:35-49 | the drift check spelled out from its definition: a verdict needs all four annotations, equal versions and different hashes |
| HashMigration.NoFalseDrift | pkg/controllers/nodeclass/hash/controller.go:44-105 | in every state of every run, with any failures, retries and crashes, a claim never judged drifted is not found drifted |
| HashMigration.ClassMovesLast | pkg/controllers/nodeclass/hash/controller.go:47-57 | the class reaches the new version only when every claim of its last listing has; a claim that came later has it too, or has no annotations yet and is not found drifted |
| HashMigration.DriftedKeepsHash | pkg/controllers/nodeclass/hash/controller.go:88-97 | a launched claim drifted throughout keeps the hash it had |
| HashMigration.JudgedByOldHash | pkg/cloudprovider/drift.go:41-49 | once the class has moved, such a claim is found drifted if and only if its old hash differs from the new one |
| HashMigration.PassIsReconcile | pkg/controllers/nodeclass/hash/controller.go:44-105 | a pass that nothing interrupts leaves what one call of Reconcile leaves |
| Reservations.KubeReserved | pkg/providers/instancetype/types.go:124-156 | configured values first, else 11Mi a pod plus 255Mi of memory, 1Gi of storage and the sum of the four CPU bands |
| Reservations.CpuMonotone | pkg/providers/instancetype/types.go:130-153 | more CPU never reserves less |
| Reservations.CpuBelowCapacity | pkg/providers/instancetype/types.go:130-153 | the reservation is at most 6% of the CPU, and below it if and only if there is any |
| Reservations.CpuIsRoundedExact | pkg/providers/instancetype/types.go:130-153 | the reservation is the rate of each of the four stretches, each rounded down, less than one milli-CPU lost per stretch |
| Reservations.Pods | pkg/providers/instancetype/types.go:314-325 | the pod count is the limit or the per-core count, whichever is less, and exceeds neither |
| Reservations.StorageEvictionSignal | pkg/providers/instancetype/types.go:198-213 | the greatest threshold the two file-system signals ask for, found exactly when one is given |
| Reservations.EvictionThreshold | pkg/providers/instancetype/types.go:158-196 | memory is the greatest memory signal or 100Mi; storage is present exactly when something applies and is the greatest of all hard, soft and applicable default thresholds, never a sum |
| Reservations.ThresholdWithinExactly | pkg/providers/instancetype/types.go:217-239 | a threshold stays within the capacity if and only if its percentage is at most 100 or the capacity is 0, or its quantity fits |
| Reservations.ThresholdExactly | pkg/providers/instancetype/types.go:217-239 | a percentage gives the least integer that is at least that part of the capacity, 100% gives 0, a quantity itself |
| Reservations.ValuesExactly | pkg/providers/instancetype/types.go:158-196 | the values that count are those of the hard and of the soft signals and, for storage without hard signals, 10% and 15% of the capacity |
| Reservations.StorageWithinExactly | pkg/providers/instancetype/types.go:158-213 | the storage threshold fits the capacity if and only if every file-system signal given does |

## Left out

- lke.go in imperative form: Create and Delete are processes of a state machine on values, one step per API call, since their point is the interleaving; local control flow inside one step is a function.
- ProtocolTheorems.ClaimIsForLife: holds while no claim is forged, because in-place updates merge lists that name the claim key; ForgedExactly shows that this condition is exact.
- ProtocolTheorems.LaterSuccessReturnsHolder: needs that no live instance carries a longer name, because the lookup is a contains filter; LookupPreciseExactly gives the exact condition for a lookup.
- ProtocolTheorems.DeleteRemovesOnly: Delete(0) is outside the runs, because ID 0 stands for every provisioning node; ZeroTakesProvisioningNode, ZeroRemovesExactly and ZeroLocksWrongKey say what it would do.
- OfferingCache.AnswersAreSafe: needs one region hash per type and every stored mark counted; TwoKeysGoStale shows the first is needed and SafeExactly that the second is exact.
- InstanceTypes.SharedKeysAnswerFresh: needs one list key per image set and no discovered entry expired under the cached list; FreshExactly shows that both are needed.
- Backoff.RunAttempts: in the loop itself no other Create call of the same pool key uses the tracker; CountIsCallsSinceClear accounts for any interleaving of what the calls do to it, without expiry.
- Reservations.KubeReserved: exact rationals instead of 64-bit floats, and parsed quantities; a value that does not parse panics in the code.
- OfferingCache.OfferingProvider.CreateOfferings: prices and the requirements of an offering are not modelled, only the availability per region.
- OfferingCache.OfferingProvider.InjectOfferings: gives the offerings of each type, not the copied instance type around them.
- InstanceTypes.InstanceTypeProvider.List: the injection of offerings into the listed types is a separate method, InjectOfferings.
- HashMigration.NoFalseDrift: the spec does not change during the run and the listing of claims is complete.
- Stale reads of the API, actors outside the provider, and retry delays: the protocol takes reads as current and time as a choice of the environment.
- The node cache and the conversion of an instance to its returned form: only the instance's ID and tags matter here.
- Concurrent calls of createOfferings: one call is one step.
- 64-bit wrap-around of the sequence numbers, and type or region names with a colon in the key of a mark: Linode has none.
- UnavailableOfferings.Flush and the provider's Reset: nothing calls them in operation, and they do not move sequence numbers.
- Hash functions other than the 32-bit FNV of claim names (ClaimIdentity): equal hashes are taken to mean equal inputs.
- The JSON codec of the last-applied annotation: it is taken to give back the list it was given.
- CreateTags of the tagging controller, garbage collection, NodeClass validation beyond tags, the instance-mode provider, GPU templates, taints and labels: single calls or filters.
- Requirement labels and the pick of the cheapest type: library calls on lists.
