# A model of qchain's consensus, economics and governance

qchain orders transactions with a Narwhal/Bullshark DAG, pays validators and stakers with integer
economics, and changes its own rules by on-chain vote. This project models those three cores in Dafny
and proves what they promise over whole runs.

**Consensus.** `Stake`, `Schedule`, `Dag`, `Verdict`, `Reach`, `Resolve`, `Walk` and `Order` follow the
code function by function: quorums, epoch committees, the two-index store, the direct verdict, the
tri-state search, indirect resolution, the explicit-stack walk and the engine. `Agreement` proves that
all validators emit one order, `Emission` says without recursion which order that is, `Runs` proves that
it is well-formed and makes progress, `Certify` that certificates are unique, and `Codec` that digests
commit to every field. `Finality` says exactly which skips, and hence which finalized floors, are
permanent. `Collect` and `Transparency` say exactly what garbage collection drops, `Unnoticed` exactly
when it drops nothing, and `Collectors` compares collecting validators with each other and with
themselves after a restart. `Solo`, `Duo` and `Careless` are concrete: views that meet the shared
assumptions, a finalized round that reopens, a collection that shows whatever margin it keeps, and one
that does not.

**Economics.** `Economics` and `HardCap` treat the staking index under a finite reserve, `Fees` the
fee split and its equal distribution, and `Supply` the whole economy under any interleaving of its
operations.

**Governance.** `Governance` states when each instruction is accepted and what it does;
`GovernanceProgram` is the program that checks and updates the account map in place. `Proposals`,
`Mandates`, `Guardians`, `Limits` and `Tallies` are about runs in which governance instructions are
interleaved with arbitrary other activity. `Chronicle` says, from the events alone, exactly which
instructions such a run accepts and how its proposals are decided. `Enactment` holds two concrete runs.

## How to read it

- A class or a looping method mirrors code that updates state; its `ensures` ties it to a function on
  values, and the lemmas are about that function.
- `rank` is a ghost witness that parent links are acyclic. It appears where the code's own loop would
  not end on a cycle; `Reach.Reaches` needs none.
- `Coherent` says no two held certificates share round and author. `Certify.VerifiedStaysCoherent`
  derives it from quorum intersection.
- `Follows(net, net1)` says a schedule was carried forward: later committees installed, frontier raised.
  `Verdict.ChangesFollow` derives it for any timely sequence of the schedule's own operations.
- `Genuine` says that the verifying signatures a certificate lists were cast by their signers. It stands
  for unforgeability and is assumed of the certificates at hand only.
- `Proposals.Harmless` bounds what the rest of the ledger may do between governance instructions. It may
  pay into governance-owned accounts and adjust parameters, but not rewrite those accounts, create
  them, or write the registry and emergency records.
- `Mandates.WalletsPay` says no instruction is signed by a governance-owned account, which has no key.
  The theorems about deposits assume it, because such a payer could be charged a second deposit.

## Where code and comments differ

The model follows the code in each case.

- The engine calls skips and its finalized floor permanent. A round skipped because its leader's
  certificate is absent reopens when that certificate arrives (`Duo.FinalizedRoundReopens`), unless a
  witness stands behind the skip; `Finality.SkipFinalExactly` is the exact condition. Order agreement
  holds regardless, because nothing is emitted past such a round without a witness.
- Collecting a fixed margin below the finalized floor is said to leave the order alone. A certificate
  below the floor that was not yet emitted is lost, however large the margin
  (`Careless.CarelessCollectionShows`), and nothing else ever is (`Transparency.CollectionDrops`). Whether
  that happened can be read off the collector's own store and outputs (`Unnoticed.UnnoticedExactly`), and
  it cannot happen when the row right below each floor has been emitted (`Unnoticed.CollectionTransparent`).
  Either way collectors never fork from the higher of their barriers on (`Collectors.CollectorsComparable`).
- The throttled close is described as the largest floor-safe step. It is the largest exactly backed step
  (`Economics.ThrottleIsLargestBacked`) but not always the largest floored one
  (`Economics.ThrottleNotLargestFloored`); `Economics.ThrottleLargestFlooredExactly` says when it is.
- The escrow equality fails exactly when a distribution pays the escrow account (`Supply.InvariantsHold`).
- Closing is said to conserve the balance always. In a run it does unless the proposal sits at the burn
  address (`Mandates.RunConserves`, `Enactment.CloseCanDestroy`).
- Deduplicating signers looks at each signer's first listed signature only, so a valid one after an
  invalid one does not count (`Certify.MaskedVoteRejects`); this matters exactly when a member has such a
  pair (`Certify.FirstVotesExactly`).
- Activation is described as adding an `Active` algorithm. The entry keeps the status the proposal gives
  it (`Limits.EntriesEnterAsProposed`, `Governance.RetiredAtBirth`).
- A saturated time-lock is described as never elapsing. It elapses at the last representable round
  (`Mandates.TimelockElapsed`, `Mandates.TimelockCanSaturate`).

## Model

| member | source | states |
|---|---|---|
| `Agreement.OrderAgreement` | crates/qchain-consensus/src/lib.rs:236-257 | Over any chain of growing parent-closed views, with the committee schedule carried forward on the way, the concatenated outputs of `advance` (verdict cache included) equal one fresh `advance` on the last view |
| `Agreement.OrdersComparable` | crates/qchain-consensus/src/bullshark.rs:419-463 | The orders derived from any two parent-closed views of one DAG are prefix-comparable: no two validators fork |
| `Agreement.EarlierIsPrefix` | crates/qchain-consensus/src/bullshark.rs:419-495 | From any round and any set of emitted digests, an earlier view emits a prefix of what a later one emits, and the later one, told of that prefix, emits exactly the rest |
| `Agreement.LaterExtendsOrder` | crates/qchain-consensus/src/lib.rs:236-257 | A later view only extends the committed order |
| `Agreement.CacheTransparent` | crates/qchain-consensus/src/lib.rs:103-116 | A cache holding only true commit verdicts changes neither output nor stopping round, and still holds only true ones afterwards |
| `Emission.FreshOrderExactly` | crates/qchain-consensus/src/bullshark.rs:419-463 | A fresh `advance` stops at the first undecided round or past the last held and final one, emits exactly what the committed leaders before that reach, and emits what leaders up to any round reach before the rest |
| `Emission.HistoryExactly` | crates/qchain-consensus/src/bullshark.rs:296-389 | A complete history is emitted in full and nothing else: the held, unemitted certificates reached through unemitted ones down to the barrier |
| `Emission.SmallerParentFirst` | crates/qchain-consensus/src/bullshark.rs:351-388 | Parents are followed in digest order: what is owed to a parent is emitted before whatever is owed to none of the parents up to it |
| `Emission.CachedExactly` | crates/qchain-consensus/src/lib.rs:103-116 | A pass remembers exactly the commits it came across, the one it stopped at included, besides what it knew |
| `Transparency.CollectionDrops` | crates/qchain-consensus/src/lib.rs:202-257 | Over every run in which a node collects up to its own finalized floor (prune, raise the barrier, forget, thin the schedule), each of its outputs is what a node that never collects outputs, less exactly the certificates below the barrier in force; the latter is the fresh order of its last view |
| `Unnoticed.UnnoticedExactly` | crates/qchain-consensus/src/lib.rs:202-257 | Over every such run the two nodes' outputs are equal iff, in the collector's own store and log, whatever it emits at its barrier round has its parents among what it emitted before |
| `Unnoticed.CollectionTransparent` | crates/qchain-consensus/src/lib.rs:218-230 | They are equal when, before each collection at f, every certificate of round f - 1 in the collector's own store is in its own `seen` |
| `Unnoticed.EmittedForReason` | crates/qchain-consensus/src/bullshark.rs:419-463 | Whatever a pass emits is a committed leader or is listed as a parent by something else it emits |
| `Transparency.LockstepAdvance` | crates/qchain-consensus/src/bullshark.rs:339-350 | One `advance` on the pruned store against the barrier, with a thinned schedule, outputs the other's output from the barrier on and keeps the memories equal from there on |
| `Transparency.LockstepCollect` | crates/qchain-consensus/src/lib.rs:202-230 | Raising the barrier to any floor up to the collector's own finalized floor keeps the two validators mirrored |
| `Collectors.CollectorsComparable` | crates/qchain-consensus/src/bullshark.rs:66-71 | Whatever floors two validators collected at, what they emitted from any round at or above both barriers on is prefix-comparable |
| `Collectors.CarefulCollectorsComparable` | crates/qchain-consensus/src/bullshark.rs:66-71 | When each collected only above rows it had emitted, their whole outputs are prefix-comparable |
| `Collectors.CollectorFrom` | crates/qchain-consensus/src/lib.rs:202-257 | From its barrier on, a collector has emitted exactly what one fresh pass over the unpruned view emits |
| `Collectors.RestartRederives` | crates/qchain-consensus/src/bullshark.rs:54-66 | With memory lost and the store pruned below a settled floor, one pass against the barrier emits what a fresh pass over the unpruned store emits from the floor on |
| `Collectors.CollectorRestarts` | crates/qchain-consensus/src/lib.rs:192-201 | After any lawful run the restarted collector re-derives from its pruned store exactly what it had emitted from its barrier on |
| `Careless.CarelessCollectionShows` | crates/qchain-node/src/engine.rs:4223-4247 | For every margin, a lawful run that collects at least that far below its finalized floor, and whose outputs differ from those of the node that never collects |
| `Careless.CarefulCollection` | crates/qchain-consensus/src/lib.rs:202-230 | For every depth and every floor within it, a lawful run that collects above an emitted row and advances afterwards |
| `Collect.TrimmedFate` | crates/qchain-consensus/src/bullshark.rs:465-571 | Above the barrier, resolution on the pruned store gives the verdict of the full store |
| `Collect.TrimmedPlaceOne` | crates/qchain-consensus/src/bullshark.rs:339-350 | The causal history emitted from the pruned store is the one emitted from the full store less what lies below the barrier, whatever has been emitted before |
| `Runs.EmittedOnceAfterParents` | crates/qchain-consensus/src/bullshark.rs:361-388 | Over every run of `advance` on arbitrary views of one DAG, holes included, no digest is emitted twice and every certificate above round 0 comes after all its parents |
| `Runs.RaisingFrontierExtends` | crates/qchain-consensus/src/lib.rs:244-245 | On a fixed store, parent-closed or not, installing later committees and raising the frontier only extends the committed order |
| `Runs.Progresses` | crates/qchain-consensus/src/bullshark.rs:143-222 | When every member of each round's own committee has certified rounds 1 to w+1 and round w commits directly, a fresh `advance` decides every round up to w and stops strictly after it |
| `Runs.FullRoundDecides` | crates/qchain-consensus/src/bullshark.rs:143-222 | With every parent held and the whole next-round committee heard from, the direct verdict is definite |
| `Runs.CommittedIsEmitted` | crates/qchain-consensus/src/bullshark.rs:419-463 | A committed leader whose round a fresh pass gets through has been emitted |
| `Solo.AssumptionsMet` | crates/qchain-consensus/src/bullshark.rs:105-223 | One validator that certified rounds 0 and 1 meets every assumption of agreement, progress and direct verdicts, and its round 0 commits |
| `Resolve.PartialViewsAgree` | crates/qchain-consensus/src/bullshark.rs:465-571 | In two arbitrary partial views the forward walk, whenever it lands in both, lands on the same digest; when both hold the leader's certificate, one never commits what the other skips and no two commits differ |
| `Resolve.UltimateWitness` | crates/qchain-consensus/src/bullshark.rs:507-526 | The forward loop returns exactly the first decided leader digest at or after the start, stopping at the first undecided round |
| `Resolve.ResolveRound` | crates/qchain-consensus/src/bullshark.rs:465-495 | Besides equalling its specification, resolution is fixed by direct verdicts and paths: a round directly skipped with its leader's certificate held is committed iff the first later round not directly skipped is directly committed and reaches that certificate by a path of any length, and skipped iff that round is directly committed, has no such path and everything it reaches is held |
| `Resolve.FateExactly` | crates/qchain-consensus/src/bullshark.rs:465-526 | The same for the specification the ordering uses |
| `Resolve.CommittedFateStays` | crates/qchain-consensus/src/lib.rs:103-116 | A committed verdict is final under growth of a parent-closed view |
| `Resolve.SkippedFateStays` | crates/qchain-consensus/src/lib.rs:74-90 | A skipped verdict is final once a witness stands behind it, or while the leader's certificate does not newly arrive |
| `Finality.SkipFinalExactly` | crates/qchain-consensus/src/bullshark.rs:408-418 | A skipped round stays as it is in every view this one can grow into iff it has no leader, or the leader's certificate is held, or a witness stands behind the skip |
| `Finality.FloorFinalExactly` | crates/qchain-consensus/src/lib.rs:91-97 | A floor up to which all rounds are decided is permanent iff every skip below it is firm in that sense |
| `Finality.ReportedFloorFinalExactly` | crates/qchain-consensus/src/lib.rs:236-257 | The same for the finalized floor a fresh engine reports |
| `Finality.SkipReopens` | crates/qchain-consensus/src/bullshark.rs:465-495 | Otherwise the late, uncited certificate of the absent leader turns the skip into an undecided round |
| `Duo.FinalizedRoundReopens` | crates/qchain-consensus/src/lib.rs:91-97 | A concrete store, and one insertion, after which a round below the reported finalized floor is undecided again |
| `Resolve.ClosedFateDecided` | crates/qchain-consensus/src/bullshark.rs:465-495 | In a parent-closed view a round is open exactly for want of a direct verdict, or of a witness for a held but unsupported leader |
| `Verdict.DirectVerdictsAgree` | crates/qchain-consensus/src/bullshark.rs:105-223 | For arbitrary partial views and schedules carried into a common one, epoch boundaries included: a direct commit in one view is never a skip or a different commit in another |
| `Verdict.CommitsExactly` | crates/qchain-consensus/src/bullshark.rs:143-222 | Direct commit iff more than two thirds of the round's own stake have next-round certificates that cite the held certificate of the leader |
| `Verdict.SkipsExactly` | crates/qchain-consensus/src/bullshark.rs:143-222 | Direct skip iff there is no leader; or its certificate is held and even all outstanding stake would not lift it above two thirds; or it is absent, every next-round parent is held, and outstanding stake does not exceed two thirds |
| `Verdict.CommittedStays` | crates/qchain-consensus/src/bullshark.rs:98-104 | A direct commit survives any growth of the view and any carried schedule |
| `Verdict.SkippedStays` | crates/qchain-consensus/src/bullshark.rs:98-104 | A direct skip survives growth into any parent-closed view and any carried schedule |
| `Verdict.SupportBounded` | crates/qchain-consensus/src/bullshark.rs:143-222 | Support seen in one view was already counted in another view, or was counted there as still possible |
| `Verdict.InstallFlipsNothing` | crates/qchain-consensus/src/bullshark.rs:141-148 | Installing a not-yet-installed epoch and raising the frontier flips no commit or skip of a resolvable round, the last round of the current epoch included; at most an undecided round becomes skipped |
| `Verdict.InstallFollows` | crates/qchain-consensus/src/schedule.rs:130-194 | Installing a later committee and raising the frontier leaves every resolvable round's committee and leader alone, and the round right after unchanged or replacing an inherited guess |
| `Verdict.ChangesFollow` | crates/qchain-consensus/src/schedule.rs:130-173 | Any timely sequence of installations and frontier raises, over many epochs, carries the net forward |
| `Verdict.InstalledJudges` | crates/qchain-consensus/src/schedule.rs:168-194 | After any timely sequence of changes, every round of an installed epoch has the committee installed for it and the leader drawn from it |
| `Verdict.ThinnedAgrees` | crates/qchain-consensus/src/schedule.rs:231-248 | Thinning the schedule below a floor changes neither committee nor leader of any round from the floor on |
| `Verdict.Draw` | crates/qchain-consensus/src/bullshark.rs:87-96 | A leader exists exactly for a non-empty committee and is one of its members |
| `Verdict.DrawExactly` | crates/qchain-consensus/src/bullshark.rs:87-96 | Exactly `ticket` modulo the committee's size members have a smaller id than the leader |
| `Reach.Reaches` | crates/qchain-consensus/src/bullshark.rs:545-571 | The stack search terminates on every view, cyclic or not, and answers yes iff a path of held certificates leads to the target, no iff none does and nothing in reach is missing, and unknown otherwise |
| `Reach.ReachStatusStable` | crates/qchain-consensus/src/bullshark.rs:545-571 | Both definite answers survive any growth of the view |
| `Walk.WalkCausalHistory` | crates/qchain-consensus/src/bullshark.rs:296-389 | The explicit-stack walk ends on every acyclic view, succeeds exactly when the unseen history down to the barrier is complete, then appends the recursive sorted-parent post-order, and otherwise changes nothing |
| `Walk.WalkOutcome` | crates/qchain-consensus/src/bullshark.rs:296-389 | The memoised traversal places its root iff the history is complete, and then in the reference post-order |
| `Walk.TakeStep` | crates/qchain-consensus/src/bullshark.rs:315-380 | One loop iteration preserves what the rest of the loop will do to the buffers |
| `Walk.PlaceOnePlaces` | crates/qchain-consensus/src/bullshark.rs:361-388 | The reference post-order places the root after all of its parents |
| `Walk.PlaceOneStable` | crates/qchain-consensus/src/bullshark.rs:296-389 | A complete history reads the same in every larger view |
| `Walk.EnterOneExact` | crates/qchain-consensus/src/bullshark.rs:315-380 | The memo is exact at every moment: a digest resolves precisely when its own history is complete |
| `Walk.Sort` | crates/qchain-consensus/src/bullshark.rs:351-358 | Parents are visited in digest order, as a permutation of the listed parents |
| `Order.ExtendOrder` | crates/qchain-consensus/src/bullshark.rs:419-463 | The commit loop equals the recursive specification in output, stopping round, emitted set and cache |
| `Order.ConsensusState.Advance` | crates/qchain-consensus/src/lib.rs:236-257 | Emits the specified digests for the window up to the frontier; finalized floor, emitted set and cache move as specified and the start round stays put |
| `Order.ConsensusState.SetGcFloor` | crates/qchain-consensus/src/lib.rs:202-216 | Raises barrier, start round and finalized floor monotonically and drops the cached verdicts below |
| `Order.FloorsJoin` | crates/qchain-consensus/src/lib.rs:202-216 | Raising the floor twice is raising it once to the higher round; on a new engine every floor field becomes that round |
| `Order.StaysAboveBarrier` | crates/qchain-consensus/src/lib.rs:202-257 | Every operation keeps the start round and the finalized floor at or above the barrier and no cached verdict below it |
| `Order.ConsensusState.ForgetSeen` | crates/qchain-consensus/src/lib.rs:226-230 | Removes exactly the given digests from the emitted set |
| `Dag.DagStore.Insert` | crates/qchain-consensus/src/dag_store.rs:27-37 | The two indexes after an insertion; the newest of an equivocating pair takes the slot |
| `Dag.InsertKeepsIndex` | crates/qchain-consensus/src/dag_store.rs:27-37 | Insertion keeps the slot index sound and the tracked round an upper bound, equivocation or not |
| `Dag.InsertKeepsCoherence` | crates/qchain-consensus/src/dag_store.rs:27-46 | Slot lookup stays a lookup by contents exactly when the slot was free or already held this digest |
| `Dag.ByAuthorIsContents` | crates/qchain-consensus/src/dag_store.rs:43-46 | In a coherent store the lookup by round and author finds a digest iff a held certificate has that round and author |
| `Dag.InsertTopFalls` | crates/qchain-consensus/src/dag_store.rs:27-60 | The tracked highest round falls exactly when nothing else is held and the newcomer is lower |
| `Dag.DagStore.PruneBelow` | crates/qchain-consensus/src/dag_store.rs:75-88 | Drops exactly the certificates the low slots name, reports each once, and equals dropping the low rounds when there is no equivocation |
| `Dag.SlotsNameTheLowRounds` | crates/qchain-consensus/src/dag_store.rs:75-88 | Absent equivocation, what the low slots name is exactly the low rounds, and the pruned store stays coherent |
| `Dag.InsertPruned` | crates/qchain-consensus/src/dag_store.rs:27-88 | Arrivals at or above the floor commute with pruning, the tracked round included |
| `Dag.InsertKeepsPeak` | crates/qchain-consensus/src/dag_store.rs:27-37 | Stores built by insertion always track the round of some held certificate, and none above it |
| `Dag.UnionCoherent` | crates/qchain-consensus/src/dag_store.rs:27-46 | Two coherent views of one coherent DAG have a coherent union |
| `Schedule.Anchor` | crates/qchain-consensus/src/schedule.rs:187-194 | The inherited epoch is the highest installed one at or below the round's epoch |
| `Schedule.ForRoundExactly` | crates/qchain-consensus/src/schedule.rs:187-194 | A round gets the committee of the latest installed epoch that has begun |
| `Schedule.FrontierIsLastRoundOfEpoch` | crates/qchain-consensus/src/schedule.rs:141-150 | Short of saturation the frontier is the last round of the frontier epoch |
| `Schedule.FrontierSaturates` | crates/qchain-consensus/src/schedule.rs:141-150 | Beyond 64 bits the frontier round is the last but one round, and the last one for an unbounded frontier |
| `Schedule.FrontierMonotone` | crates/qchain-consensus/src/schedule.rs:130-150 | Raising the frontier epoch never lowers the frontier round, saturation included |
| `Schedule.InstallKeepsEarlier` | crates/qchain-consensus/src/schedule.rs:168-194 | Installing an epoch changes the committee of no earlier round |
| `Schedule.InstallNext` | crates/qchain-consensus/src/schedule.rs:168-194 | Right after the frontier, an installation leaves the committee alone or replaces an inherited guess |
| `Schedule.ValidatorSchedule.Single` | crates/qchain-consensus/src/schedule.rs:85-94 | A single-committee schedule gives that committee to every round and bounds none |
| `Schedule.ValidatorSchedule.Rotating` | crates/qchain-consensus/src/schedule.rs:96-106 | A rotating schedule gives every round the bootstrap committee and may resolve exactly the first epoch |
| `Schedule.ValidatorSchedule.SetFrontierEpoch` | crates/qchain-consensus/src/schedule.rs:130-134 | The frontier round never falls and no committee changes |
| `Schedule.ValidatorSchedule.InstallEpoch` | crates/qchain-consensus/src/schedule.rs:168-173 | Every round of the epoch gets the installed committee, its first round included, and no earlier round changes |
| `Schedule.ValidatorSchedule.PruneEpochsBelow` | crates/qchain-consensus/src/schedule.rs:231-248 | Keeps the bootstrap and everything from the anchor up, so no round at or above the floor changes committee and the frontier stays |
| `Schedule.ThinnedExactly` | crates/qchain-consensus/src/schedule.rs:231-248 | A committee survives iff it is the bootstrap one or some round from the floor on is judged by it |
| `Stake.QuorumsIntersect` | crates/qchain-consensus/src/quorum.rs:57-72 | Two quorums share at least 2*quorum - total stake, which is more than a third of the total |
| `Stake.QuorumLeast` | crates/qchain-consensus/src/quorum.rs:54-67 | A stake reaches the quorum iff it exceeds two thirds of the total |
| `Stake.MinorityExactly` | crates/qchain-consensus/src/quorum.rs:54-67 | All but some members form a quorum iff those members hold less than a third of the stake |
| `Stake.TotalAdds` | crates/qchain-consensus/src/quorum.rs:50-52 | The total grows by exactly the stake of a member added |
| `Stake.Ascending` | crates/qchain-consensus/src/quorum.rs:81-85 | The sorted id list is the strictly ascending enumeration of the committee |
| `Certify.VerifyCertificate` | crates/qchain-consensus/src/lib.rs:41-66 | Accepts iff distinct known members whose first listed signature is valid hold a quorum, that is more than two thirds, of the stake |
| `Certify.VerifiedExactly` | crates/qchain-consensus/src/lib.rs:41-66 | A certificate verifies iff the members it lacks hold less than a third of the stake |
| `Certify.SilentMinority` | crates/qchain-consensus/src/lib.rs:41-66 | While less than a third of the stake is silent, the votes of all the rest verify |
| `Certify.CountsExactly` | crates/qchain-consensus/src/lib.rs:41-66 | A signer with a valid vote listed fails to count exactly when an invalid vote of theirs is listed first; without a valid vote they never count |
| `Certify.FirstVotesExactly` | crates/qchain-consensus/src/lib.rs:41-66 | Counting first votes counts a subset of the members with some valid vote, and all of them iff no member's valid vote stands behind an invalid one |
| `Certify.MaskedVoteRejects` | crates/qchain-consensus/src/lib.rs:41-66 | An invalid vote listed before a valid one of the same member makes that member not count |
| `Certify.CertificateUnique` | crates/qchain-consensus/src/lib.rs:41-66 | Unless members with at least 2*quorum - total stake cast votes for two vertices of one author and round, two such certificates that verify with genuine signatures have the same digest, repeated and unknown signers notwithstanding |
| `Certify.VerifiedStaysCoherent` | crates/qchain-consensus/src/lib.rs:41-66 | A store that admits only verified certificates never finds a slot taken by another digest |
| `Codec.VertexPreimage` | crates/qchain-core/src/dag.rs:89-103 | The bytes fed to the hasher, field by field |
| `Codec.VertexBytesInjective` | crates/qchain-core/src/dag.rs:89-103 | Equal preimages force equal round, author, batch entries and parents, for lists shorter than 2^64 |
| `Codec.VertexLayout` | crates/qchain-core/src/dag.rs:89-103 | At which offset each field of the preimage lies |
| `Codec.VertexBatchAt` | crates/qchain-core/src/dag.rs:89-103 | Batch i takes the 33 bytes from 48 + 33 i on, worker first |
| `Codec.VertexParentAt` | crates/qchain-core/src/dag.rs:89-103 | Parent j takes 32 bytes after the batches and both counts |
| `Codec.LittleEndianValue` | crates/qchain-core/src/dag.rs:89-103 | Lengths and rounds read back from their little-endian bytes |
| `Codec.BatchPreimage` | crates/qchain-core/src/dag.rs:41-53 | The bytes a batch digest hashes: the count, then the transaction hashes |
| `Codec.FramedHashes` | crates/qchain-core/src/dag.rs:41-53 | Equal batch preimages force equal transaction hash lists |
| `Economics.CloseWithinBudget` | crates/qchain-execution/src/economics_v7.rs:170-190 | A budgeted close never exceeds the budget nor overshoots the target, reaches it iff the budget covers the full emission, never lowers the index, and emits exactly the growth in value; saturation included |
| `Economics.ThrottledShortfall` | crates/qchain-execution/src/economics_v7.rs:170-190 | A throttled close leaves at most ceil(total_shares / INDEX_SCALE) of its budget unspent, short of saturation |
| `Economics.ThrottleIsLargestBacked` | crates/qchain-execution/src/economics_v7.rs:180-186 | The throttled index is the largest whose unrounded value growth the budget covers |
| `Economics.ThrottleNotLargestFloored` | crates/qchain-execution/src/economics_v7.rs:160-163 | It is not the largest whose floored emission fits the budget: with one share and no budget the next index also emits nothing |
| `Economics.ThrottleLargestFlooredExactly` | crates/qchain-execution/src/economics_v7.rs:160-186 | No higher index has a floored emission within the budget iff the part already past the last unit plus one more step's growth reaches the next unit |
| `Economics.FlooredFits` | crates/qchain-execution/src/economics_v7.rs:124-134 | A floored emission fits a budget iff the exact growth plus the old fraction stays below one unit more than the budget |
| `Economics.DepositBacked` | crates/qchain-execution/src/economics_v7.rs:112-130 | A deposit never mints shares worth more than was put in |
| `Economics.DepositFloored` | crates/qchain-execution/src/economics_v7.rs:118-123 | The shares minted are the only number whose price the deposit covers while that of one more it does not |
| `Economics.AdvanceFloored` | crates/qchain-execution/src/economics_v7.rs:103-109 | The index grows by exactly the floor of index times rate over the scale |
| `Economics.ValueFloored` | crates/qchain-execution/src/economics_v7.rs:111-114 | A position is worth exactly the floor of shares times index over the scale |
| `Economics.CapFloored` | crates/qchain-execution/src/economics_v7.rs:87-89 | The yearly cap is the floored base times one plus the rate |
| `Economics.CompoundAdds` | crates/qchain-execution/src/economics_v7.rs:90-98 | Compounding for m + n quantos is compounding for m and then for n, one step being one advance |
| `Economics.DeriveQuantoRate` | crates/qchain-execution/src/economics_v7.rs:79-104 | Whatever the starting guess, the loop ends with a rate whose year of compounding stays within the cap, and it is the largest such rate not above the guess |
| `Economics.RateThreshold` | crates/qchain-execution/src/economics_v7.rs:79-109 | Compounding is monotone in the rate, so every rate below a safe one is safe |
| `HardCap.CappedRun` | crates/qchain-execution/src/invariants_v7.rs:175-195 | Over any run of deposits and budgeted closes supply is constant, the index never falls, and reserve >= aggregate value >= sum of separately floored positions |
| `HardCap.EveryClose` | crates/qchain-execution/src/economics_v7.rs:153-188 | Every close of every run emits within the reserve, stays at or below the target, reaches it when the reserve suffices, and otherwise leaves at most ceil(total_shares / INDEX_SCALE) undrawn; the vault moves by exactly that |
| `HardCap.AggregateDominates` | crates/qchain-execution/src/invariants_v7.rs:186-195 | The constant-time aggregate never floors below the per-position reference, short of saturation |
| `HardCap.AggregateNear` | crates/qchain-execution/src/invariants_v7.rs:186-195 | It exceeds that reference by at most one unit per position |
| `HardCap.DepositAllots` | crates/qchain-execution/src/economics_v7.rs:116-123 | A funded deposit moves its amount into the reserve and credits its staker, and the total, with the shares it pays for |
| `Fees.SplitFee` | crates/qchain-execution/src/fees_v7.rs:47-53 | The parts add up to the fee, the burn is the validator share or one more, and administration gets the floored tenth |
| `Fees.SplitIsUnique` | crates/qchain-execution/src/fees_v7.rs:47-53 | Those three facts admit no other split |
| `Fees.DistributionPays` | crates/qchain-execution/src/fees_v7.rs:91-120 | Each account gains one reward per listed occurrence, the pool loses what is paid, the remainder is smaller than the number of payees, and total supply does not move |
| `Fees.PaidExactly` | crates/qchain-execution/src/fees_v7.rs:56-120 | Every entry that is active, activated, at nine tenths participation or more, and with a key neither revoked, expired nor frozen earns its withdrawal address one equal share; nobody else gains anything |
| `Fees.EligibleExactly` | crates/qchain-execution/src/fees_v7.rs:56-63 | Those are exactly the eligible entries, stated without division |
| `Fees.RoutingCredits` | crates/qchain-execution/src/fees_v7.rs:123-133 | Routing credits each of the two pools its own part and no other account; the burn leaves circulation |
| `Fees.Accounts.RouteFee` | crates/qchain-execution/src/fees_v7.rs:123-133 | Credits the two shares of the split in place |
| `Fees.Accounts.DistributeFeePool` | crates/qchain-execution/src/fees_v7.rs:91-120 | The loop pays every account one equal share per entitled entry that names it; reward times payees plus remainder is the old pool |
| `Supply.SupplyRun` | crates/qchain-execution/src/invariants_v7.rs:74-195 | From genesis, over any interleaving of the six operations, nothing aborts, balances equal genesis + minted - burned - slashed, the reserve covers the accumulator, and the escrow holds the escrowed bonds plus exactly what distributions paid into it |
| `Supply.InvariantsHold` | crates/qchain-execution/src/invariants_v7.rs:378-387 | All invariants hold after a run exactly when no distribution paid the escrow account; never registering that account is enough |
| `Supply.EscrowCanDrift` | crates/qchain-execution/src/invariants_v7.rs:137-158 | Registering the escrow account as a validator makes a distribution break the escrow equality |
| `Supply.EarnsExactly` | crates/qchain-execution/src/fees_v7.rs:56-120 | In any world a distribution raises an account other than the pool iff the pool has a unit for every entitled entry and one of those names the account; it lowers none |
| `Supply.SlashedNeverPaid` | crates/qchain-execution/src/fees_v7.rs:56-63 | Once all entries naming an account are slashed, and until it registers again, no later distribution of any run pays it |
| `Supply.SlashExactly` | crates/qchain-execution/src/invariants_v7.rs:364-371 | A slash burns one bond for the first bonded entry of that validator, marks that entry slashed and leaves every other one alone; without such an entry it changes nothing |
| `Supply.EscrowCounted` | crates/qchain-execution/src/invariants_v7.rs:133-158 | After every run from genesis the escrow holds one bond per entry registered and not slashed, plus what distributions paid into it |
| `Supply.BondsCounted` | crates/qchain-execution/src/invariants_v7.rs:133-158 | With exact bonds, the escrowed total is one bond per entry that is pending, active or jailed |
| `Supply.DepositCredits` | crates/qchain-execution/src/invariants_v7.rs:289-298 | A funded deposit moves its amount and credits its staker, and the total, with the shares it pays for |
| `Supply.CloseMints` | crates/qchain-execution/src/invariants_v7.rs:303-312 | A close moves the index and mints exactly the growth in value, to the reserve only |
| `Supply.FeeCharges` | crates/qchain-execution/src/invariants_v7.rs:318-326 | A funded fee leaves the founder in full; what the pool, administration and the burn get is the one 45/45/10 split |
| `Supply.RegisterPosts` | crates/qchain-execution/src/invariants_v7.rs:335-361 | A funded registration locks one bond and appends one entry that is entitled to fees at once |
| `Supply.StepKeepsSupply` | crates/qchain-execution/src/invariants_v7.rs:289-371 | Every operation keeps the supply equation |
| `Supply.StepEscrow` | crates/qchain-execution/src/invariants_v7.rs:335-371 | Every operation moves the escrow surplus by exactly what it pays there, and a slash always finds its bond |
| `Supply.StepKeepsReserve` | crates/qchain-execution/src/invariants_v7.rs:289-315 | Every operation keeps the share total exact and the reserve above the accumulator |
| `Supply.EconWorld.Stake` | crates/qchain-execution/src/invariants_v7.rs:289-298 | Founder to reserve transfer with shares minted at the current index; nothing without funds |
| `Supply.EconWorld.CloseQuanto` | crates/qchain-execution/src/invariants_v7.rs:303-312 | Advances the index and mints the value growth into the reserve |
| `Supply.EconWorld.RouteFee` | crates/qchain-execution/src/invariants_v7.rs:318-326 | Charges the founder, routes the split, tallies the burn |
| `Supply.EconWorld.DistributeFees` | crates/qchain-execution/src/invariants_v7.rs:330-332 | Distributes the pool; reward times payees plus remainder is the old pool |
| `Supply.EconWorld.RegisterValidator` | crates/qchain-execution/src/invariants_v7.rs:335-361 | Locks exactly one bond in escrow and appends an active entry |
| `Supply.EconWorld.SlashValidator` | crates/qchain-execution/src/invariants_v7.rs:364-371 | Burns the bond of the first matching escrowed entry |
| `Supply.EconWorld.CheckBondEscrow` | crates/qchain-execution/src/invariants_v7.rs:142-158 | Passes iff every escrowed bond is exact and their sum is the escrow balance; tells the two failures apart |
| `Supply.EconWorld.CheckAll` | crates/qchain-execution/src/invariants_v7.rs:378-387 | Passes iff every invariant holds |
| `Mandates.Provenance` | crates/qchain-execution/src/governance.rs:384-548 | In every run, interleaved with anything the rest of the ledger does, each change an instruction makes to the registry or the parameters is the action of one proposal that was opened, decided in favour after its voting period, and executed while not paused after its whole time-lock, unless that would end beyond the last 64-bit round |
| `Mandates.RegistryOnlyByGovernance` | crates/qchain-execution/src/governance.rs:501-520 | The registry changes in no other way |
| `Mandates.ExecutesOnce` | crates/qchain-execution/src/governance.rs:464-547 | A proposal executes at most once in any run |
| `Mandates.NothingAfterClose` | crates/qchain-execution/src/governance.rs:668-682 | After a close no instruction about that proposal is accepted again, a new proposal at its address included |
| `Mandates.DepositSettled` | crates/qchain-execution/src/governance.rs:632-682 | A close pays the proposer exactly the deposit if turnout reached its floor and nothing otherwise, sends all the rest to the burn address, and touches no other balance |
| `Mandates.DepositHeld` | crates/qchain-execution/src/governance.rs:252-273 | An open proposal's account always holds at least its deposit |
| `Mandates.RunConserves` | crates/qchain-execution/src/governance.rs:168-560 | In every run an instruction conserves the total balance iff it is not the close of a proposal at the burn address that holds more than its refund; so all do when no proposal address is the burn address |
| `Mandates.SelfProposedIsFree` | crates/qchain-execution/src/governance.rs:252-273 | A proposal at its own proposer's address carries no deposit, so a close never refunds an account to itself |
| `Enactment.CloseCanDestroy` | crates/qchain-execution/src/governance.rs:632-682 | A run in which a proposal is opened, rejected and closed at the burn address, and its deposit vanishes |
| `Mandates.ExecutionMandated` | crates/qchain-execution/src/governance.rs:424-548 | Every execution has its opening and deciding events, in order, with the voting period and (short of 64-bit overflow) the time-lock between them |
| `Mandates.TimelockElapsed` | crates/qchain-execution/src/governance.rs:478-487 | An accepted execution has waited out its whole time-lock iff the time-lock ends at a 64-bit round |
| `Mandates.TimelockCanSaturate` | crates/qchain-execution/src/governance.rs:478-487 | At the last round a proposal that passed one round earlier is executed |
| `Enactment.EnactingRun` | crates/qchain-execution/src/governance.rs:174-548 | A run that opens, votes on, decides and executes a proposal meets the assumptions of the run theorems |
| `Proposals.EveryProposalTraced` | crates/qchain-execution/src/governance.rs:264-273 | Every proposal on the ledger sits at its derived address, was opened by a recorded instruction and keeps its voting end; every passed one was decided by a recorded instruction |
| `Proposals.EventMoves` | crates/qchain-execution/src/governance.rs:168-560 | Everything an event can mean for one proposal account: opened, turned in the phase it requires, closed, or left alone |
| `Governance.Conservation` | crates/qchain-execution/src/governance.rs:168-560 | An accepted instruction conserves the total balance iff it is not a close that pays a positive amount to the account it clears |
| `Governance.CloseConserves` | crates/qchain-execution/src/governance.rs:632-682 | Where a close sends the balance, and exactly when it conserves the total |
| `Governance.OthersMoveNothing` | crates/qchain-execution/src/governance.rs:276-422 | Votes, decisions, executions and emergency approvals move no balance |
| `Governance.CreateCharges` | crates/qchain-execution/src/governance.rs:252-273 | Opening a proposal moves exactly the deposit from the proposer into the new account |
| `Governance.PassedExactly` | crates/qchain-governance/src/lib.rs:345-375 | A proposal passes iff turnout reaches its share of the creation-time snapshot and two thirds of the decided stake say yes, stated without division |
| `Chronicle.VoteAcceptedExactly` | crates/qchain-execution/src/governance.rs:276-382 | In every run a vote is accepted iff the proposal was opened and not decided, the voting period counted from the opening is not over, the signer owns the position, a staking-program account with stake that is no newer than the proposal, that position has not voted, and fewer than 100,000 have |
| `Chronicle.VotesAreOwn` | crates/qchain-execution/src/governance.rs:291-325 | Every counted vote was signed by the owner of its position, no newer than the proposal, before voting ended |
| `Chronicle.TallyIsOwn` | crates/qchain-execution/src/governance.rs:291-360 | So a tally is, up to 64-bit saturation, stake committed by the owners of positions no newer than the proposal |
| `Chronicle.VoteLocks` | crates/qchain-execution/src/governance.rs:345-382 | A vote locks its position until the proposal could be executed, never shortens a lock and changes nothing else of it |
| `Chronicle.OpeningAcceptedExactly` | crates/qchain-execution/src/governance.rs:174-274 | In every run a proposal is opened iff its signer is listed first and can pay the deposit, the address is the derived one and unused, and the singletons are named and readable |
| `Chronicle.DecisionAcceptedExactly` | crates/qchain-execution/src/governance.rs:384-422 | A decision is accepted iff the voting period counted from the opening is over and there has been none |
| `Chronicle.DecidedExactly` | crates/qchain-governance/src/lib.rs:345-375 | It is in favour iff the stake cast since the opening reaches its share of the stake there was at the opening and two thirds of the decided stake said yes |
| `Chronicle.ExecutionAcceptedExactly` | crates/qchain-execution/src/governance.rs:424-548 | An execution is accepted iff governance is not paused, the proposal was decided in favour and not yet executed, has waited its time-lock from the deciding event, and its action applies to the one account of its kind |
| `Chronicle.CloseAcceptedExactly` | crates/qchain-execution/src/governance.rs:589-683 | A close is accepted iff the proposal was rejected or executed and not closed, has been kept 5,000 rounds past its voting period, names its proposer and both credits fit |
| `Chronicle.RecordHeld` | crates/qchain-execution/src/governance.rs:137-160 | An account holds a proposal iff one was opened there and not closed, and its phase and fixed terms are those the events gave it |
| `Governance.ActivationKeepsStatus` | crates/qchain-execution/src/governance.rs:765-772 | An activated algorithm is Active iff the proposal's entry is |
| `Governance.RetiredAtBirth` | crates/qchain-execution/src/governance.rs:765-772 | Any unused id can enter already retired |
| `Guardians.FlipBacked` | crates/qchain-execution/src/governance.rs:692-757 | Every pause and unpause in a run is backed by at least `threshold` distinct guardians who approved it since the previous flip |
| `Guardians.ApprovalsBacked` | crates/qchain-execution/src/governance.rs:726-753 | Between flips each approval list names distinct guardians who approved since the last flip |
| `Guardians.ApprovalFlipsExactly` | crates/qchain-execution/src/governance.rs:692-757 | In every run an approval is accepted iff a configured guardian asks for the other state, and it flips iff the guardians who asked since the last flip, itself included, reach the threshold |
| `Limits.GrowthBounded` | crates/qchain-execution/src/governance.rs:853-1000 | After n executed settings a parameter is inside its floor and cap and within 2^n times its start plus (2^n - 1) allowances, upwards and downwards |
| `Limits.DriftBounded` | crates/qchain-execution/src/governance.rs:967-999 | The basis-point rates move at most one allowance per executed setting |
| `Limits.SettingBounded` | crates/qchain-execution/src/governance.rs:853-1000 | One accepted setting is inside its bounds, within its change limit, and touches no other parameter |
| `Limits.SettingAcceptedExactly` | crates/qchain-execution/src/governance.rs:853-1000 | A setting is accepted iff it is inside its bounds and at most doubled, at most halved or within its allowance (for the basis-point rates within the allowance), and then takes the proposed value |
| `Limits.RegistryAcceptedExactly` | crates/qchain-execution/src/governance.rs:759-822 | With unique ids an algorithm is activated iff new, deprecated iff active, retired iff deprecated and past its grace, and nothing else changes |
| `Limits.RegistryForward` | crates/qchain-execution/src/governance.rs:759-822 | Over any stretch of any run registry entries are never dropped, moved or rewritten, statuses never go back, and ids stay unique |
| `Limits.EntriesEnterAsProposed` | crates/qchain-execution/src/governance.rs:765-772 | Whenever the registry grows in a run, the new entry is the one an executed activation names, status included |
| `Limits.GraceRespected` | crates/qchain-execution/src/governance.rs:790-812 | A deprecated algorithm keeps its retirement round and is retired only by an instruction at or after it |
| `Tallies.TallyExact` | crates/qchain-governance/src/lib.rs:317-337 | The tally of an open proposal is exactly the stake cast on it, up to 64-bit saturation |
| `Tallies.VotesOnce` | crates/qchain-execution/src/governance.rs:345-360 | Two accepted votes on one proposal come from different stake accounts |
| `Tallies.VotersDistinct` | crates/qchain-governance/src/lib.rs:313-337 | The voter list has no repeats and never exceeds its bound |
| `GovernanceProgram.Program.Process` | crates/qchain-execution/src/governance.rs:161-560 | Succeeds exactly when the instruction's conditions hold, and then makes the specified change |
| `GovernanceProgram.Program.CreateProposal` | crates/qchain-execution/src/governance.rs:174-274 | Accepts iff accounts, address, payer, singletons and deposit are right; charges the deposit and opens the proposal with the snapshot |
| `GovernanceProgram.Program.CastVote` | crates/qchain-execution/src/governance.rs:276-382 | Accepts iff the position is genuine, the payer's, non-empty, old enough and new to the open proposal; tallies it and locks the position |
| `GovernanceProgram.Program.FinalizeProposal` | crates/qchain-execution/src/governance.rs:384-422 | Accepts iff voting is over and undecided; records the outcome and, when passed, the round |
| `GovernanceProgram.Program.ExecuteProposal` | crates/qchain-execution/src/governance.rs:424-548 | Accepts iff unpaused, passed, past the time-lock and applicable to the one allowed target |
| `GovernanceProgram.Program.ApproveEmergency` | crates/qchain-execution/src/governance.rs:692-757 | Accepts iff a configured guardian asks for the other state; records the approval or flips and clears |
| `GovernanceProgram.Program.CloseProposal` | crates/qchain-execution/src/governance.rs:589-683 | Accepts iff terminal, past retention and correctly addressed; settles the balance and clears the record |
| `GovernanceProgram.Program.Settle` | crates/qchain-execution/src/governance.rs:640-682 | Succeeds iff neither credit overflows, and then refunds what is due, burns the rest and clears the record |
| `GovernanceProgram.Program.ReadProposal` | crates/qchain-execution/src/governance.rs:137-148 | Reads a proposal iff the account exists, is governance-owned and decodes |
| `GovernanceProgram.ApplyRegistryAction` | crates/qchain-execution/src/governance.rs:759-822 | The search and update on the algorithm list |
| `GovernanceProgram.ApplyEconomicAction` | crates/qchain-execution/src/governance.rs:868-1000 | Accepts iff inside floor and cap and within the change limit; sets that parameter only |

## Left out

- Signature schemes, SHA3 and key handling: validity is a predicate, digests are natural numbers, the leader lottery and the proposal address derivation are arbitrary functions.
- Saturating stake sums in consensus: stakes are natural numbers, so the sums are exact.
- 64-bit balances in fees and in the economy's run: balances are natural numbers; index arithmetic does saturate at 128 bits, and governance credits and rounds do check 64 bits.
- Floating point in the rate derivation: the starting guess is an arbitrary natural number.
- Byte layouts and legacy decoding of accounts: an account's data is one typed value or undecodable.
- Error texts: a failing instruction fails with a kind, and the contracts fix exactly when it succeeds.
- `can_advance_round`, `lowest_round`, `is_known_in_any_committee`, monikers, the supply-cap gate and the state root: they would only add easy members.
- Reloading a store from disk: a restart is modelled at the last barrier, while the program uses the lowest round it reloads.
- The networking layer, the ledger, WASM, the staking program and the validator lifecycle: only the fields other operations read are modelled.
- Order.ConsensusState.Advance: takes the leader draw as a parameter and requires acyclic parent links, which certificates' hashes guarantee in the program.
- GovernanceProgram.Program.Process: promises nothing about the account map on failure, because the caller discards it.
- Unnoticed.CollectionTransparent: one way only. A row certificate that nothing cites later is harmless to lose, and whether one will be cited depends on future arrivals; `Unnoticed.UnnoticedExactly` is exact once the run is known.
- Supply.SlashedNeverPaid: leaves out the pool account, which a distribution debits, and runs in which the account registers again, after which it may be paid.
- Supply.DepositCredits: stated where the products stay below 128 bits and the index is positive.
- HardCap.DepositAllots: stated where the products stay below 128 bits and the index is positive.
- HardCap.AggregateNear: stated where the products stay below 128 bits.
- Economics.DepositFloored: stated where the products stay below 128 bits and the index is positive.
- Economics.AdvanceFloored: stated where the products stay below 128 bits.
- Economics.ValueFloored: stated where the products stay below 128 bits.
- Economics.CapFloored: stated where the products stay below 128 bits.
- Limits.RegistryAcceptedExactly: stated for unique ids, which `Limits.RegistryForward` shows every run keeps.
- Emission.FreshOrderExactly: stated for parent-closed views, as agreement is; the walk itself is exact on every acyclic view.
- Economics.ThrottleLargestFlooredExactly: stated where the products stay below 128 bits.
- Economics.FlooredFits: stated where the products stay below 128 bits.
- Economics.ThrottledShortfall: stated where the products stay below 128 bits; `HardCap.EveryClose` shows that every run with 64-bit balances is such a case.
- HardCap.AggregateDominates: stated below saturation, where flooring a sum can indeed fall under the sum of floors.
- Limits.GrowthBounded: counts governance settings only, so it assumes the ledger's own fee adjustment leaves the parameter alone meanwhile.
