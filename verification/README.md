# Residency of KV-cache blocks: a verified model

A Dafny model of the trace-driven residency simulator, its six eviction policies and its prefix index,
of the two policies the serving engine loads, of the multi-group lookup arithmetic and of the
least-squares fit, with proofs about whole runs of them.

`dafny verify dfyconfig.toml` checks everything.

## How it is built

The simulator and its parts are objects that change step by step, and so are the Dafny classes
`PrefixIndex`, `TierPolicy`, `HBMTier`, `Simulator`, `AcrValuePolicy` and `SessionTtlPolicy`, with the
loops of the source.  Beside each class stand functions on immutable values (`Touch`, `Evicted`, `Fill`
and `Shed`, `OneTurn`, ...) that say what a call does; every method is proved to do just that.  The
theorems are about those functions, folded over a trace, and so they hold of every run of the objects.

| file | what it holds |
|---|---|
| `Base.dfy`, `Trace.dfy` | options, infinite times, the stable sort; turns, block keys, tiers and the cost model |
| `Prefix.dfy`, `Leases.dfy`, `Reuse.dfy` | the prefix index; chains, leases, roll-back, overcharge; reuse probabilities |
| `Policies.dfy`, `Evictions.dfy`, `Lifetimes.dfy`, `Expired.dfy` | the host tier's policies; what a round frees; how long entries live and what a turn is served; a round that empties the tier for nothing |
| `Hbm.dfy`, `HbmInclusion.dfy` | the engine's LRU pool; a larger pool never recomputes more |
| `Replay.dfy`, `Simulation.dfy`, `HostFacts.dfy` | one turn and a whole trace as functions; the simulator object; what every turn does to the host tier |
| `Bounds.dfy`, `Capacity.dfy`, `Overflow.dfy` | byte conservation of the host tier; exactly which turns take it past its capacity; in which configurations a trace can |
| `Foresight.dfy`, `Belady.dfy` | the oracle's next uses are exact; it misses least on equal one-block turns |
| `LruStack.dfy`, `LruUnits.dfy`, `LruTrial.dfy`, `LruBlocks.dfy` | when a larger LRU tier holds all a smaller one holds, and recomputes no more: always on one-block turns; in general, exactly when; the five turns that tell two tiers apart |
| `ChainEviction.dfy`, `PrefixKept.dfy`, `PrefixRuns.dfy` | a round of the adaptive policy keeps prefixes; exactly when a whole turn of any policy keeps the prefix of a session; what that means for the adaptive policy |
| `Rates.dfy`, `Uncontended.dfy` | hardware speeds do not steer the adaptive policy; policies agree when nothing must go |
| `Servers.dfy` | the two FIFO servers |
| `EngineValue.dfy`, `EngineTtl.dfy` | the engine-side policies |
| `Lookup.dfy`, `LookupOrder.dfy`, `LeastSquares.dfy` | the lookup arithmetic; when its order does not matter; the quadratic fit |

## Reading the model

* Times, probabilities, seconds and rates are exact reals; nothing is said about rounding.  `math.exp` is
  a parameter: only `Reuse.dfy` assumes anything of it, that it maps non-positive numbers into [0, 1].
* Rates, bandwidths and efficiencies are positive, a token takes at least one byte, and a block at least
  one token (the index itself raises a smaller width to one).
* Sessions and roles are numbers in the order in which Python compares the strings.  A block key is
  `Shared(role, i)` or `Private(session, i)` where the source formats a string, so two keys that differ
  never collide.  A chain id is a datatype for the same reason.
* The six policy classes differ in lifetimes, admission and eviction only; class `TierPolicy` is all six,
  with the kind of policy as a constant.
* Python dictionaries whose order matters are sequences in insertion order.  `sorted` is a stable
  insertion sort, proved sorted, a permutation, and stable.
* The docstring of `chain` says that a partial trailing block gets a length-qualified key.  The code
  gives it a positional key, as the comment inside it says; the model follows the code.
* The base class says that `evict` changes nothing when it returns `None`.  The expiring policies drop
  what has expired first; `NoneIff` says exactly when `None` comes back and exactly when the entries are
  then as before, and `EmptiedForNothing` exhibits a turn that empties the tier and stores nothing.
* The comment in `AcrValuePolicy.touch` says that an announced return shifts the last use forward.
  The `min` with the current time undoes that; `EtaFold` says exactly when the fold changes anything.
* Host occupancy can pass the capacity.  `WithinIff` says exactly at which turns, by a condition on the state
  before the turn that does not look at the ranking; `CapacityCanBePassed` says exactly in which
  configurations a trace in order of time can do it; `OccupancyBound` and `DemandBound` say by how much at most.
* No policy protects the resident part of the path it makes room for, so a turn can break the prefix of the
  session it serves, or of another.  `PrefixKeptIff` says exactly when, and `ServedPrefixIff` for the session
  that is served, by conditions on the state before the turn; `ServedPrefixBreaks` exhibits it.
* For the same reason a larger host tier need not hold what a smaller one holds, nor recompute less, turn by
  turn or in the report.  `InclusionIff`, `RecomputeIff` and `ReportsIff` say exactly in which configurations
  it does under LRU, whatever the pool, and `LargerTierCanCostMore` gives the trace on which it does not.
  They count capacity in slots: in full blocks, for traces of whole blocks; or in tokens, for every trace, when
  a token takes a whole number of bytes, as it does with the values in src/acr/config.py:39 and
  src/acr/vllm/policy.py:84.
* One pass of `predict` does not go back to a group.  `OrderIrrelevantIff` says exactly when the order of
  the list does not matter, windowed groups among them, `OrderMatters` is an input on which it does, and
  `SecondPassIff` says for all groups when the result would survive another pass.
* The lookup lists of the repository name each group once (experiments/connector_ring_classify_probe.py:149-169).
  A list that names a group with a tail to drop twice would break monotonicity: `TailTwiceHurts`.

## Model

| member | source | states |
|---|---|---|
| `Prefix.PathOf` | src/acr/index.py:88-97 | the keys of a turn are pairwise distinct and the key at place i has position i |
| `Prefix.PrefixIndex.constructor` | src/acr/index.py:49-56 | a new index knows no block, path, role, last-seen time or invalidation |
| `Prefix.PrefixIndex.BuildChain` | src/acr/index.py:60-86 | the four steps (full and partial shared, full and partial private blocks) produce the prompt cut block by block: block i is shared up to the shared part's ceiling and private after it, with its own token count |
| `Prefix.PrefixIndex.TouchPath` | src/acr/index.py:88-123 | the whole new state of the index: the path is registered or grown and leased, exactly the keys of the old path that are not on the new one lose the lease, and an aborted shorter path invalidates the tail of the old one |
| `Prefix.PrefixIndex.RegisterParts` | src/acr/index.py:106-118 | every block of the path is created, or grown when the turn has more tokens in it, and its use recorded; no other block changes |
| `Prefix.PrefixIndex.DropLeases` | src/acr/index.py:119-122 | exactly the listed blocks lose the session's lease |
| `Prefix.PrefixIndex.ReleaseSession` | src/acr/index.py:127-131 | closing a session forgets its path and last-seen time and drops its leases, and keeps its blocks |
| `Leases.ChainHoldsPrompt` | src/acr/index.py:60-86 | a chain's keys are distinct and its tokens add up to the prompt |
| `Leases.ChainGrows` | src/acr/index.py:60-86 | same session, role and shared prefix: the keys of a shorter prompt are a prefix of the keys of a longer one |
| `Leases.ReplaySound` | src/acr/index.py:88-131 | after any interleaving of turns and closings leases and paths agree, block sizes match their tokens and stay within the width, and every path is a chain |
| `Leases.LeaseSymmetry` | src/acr/index.py:133-138 | in every reachable index a session leases a block exactly when the block is on its path, has then a last-seen time, and counts as live exactly when it was seen within the limit: the infinite default never decides |
| `Leases.NoLeaseLeft` | src/acr/replay.py:183-184 | closing every session leaves every block in the index without a lease |
| `Leases.RollbackIsExact` | src/acr/index.py:98-122 | an aborted shrink invalidates exactly the keys whose lease is dropped, and none of the new path |
| `Leases.OverchargeBound` | src/acr/index.py:106-115 | in every sound index the index tokens of the current path lie between the prompt and the prompt plus two partly filled blocks |
| `Leases.TouchGrows` | src/acr/index.py:106-115 | a turn never removes a block from the index or shrinks one |
| `Reuse.LiveReuseIsProbability` | src/acr/index.py:140-155 | the lease-aggregated reuse value lies between zero and one |
| `Reuse.LeasesLift` | src/acr/index.py:154-155 | more leases never lower the aggregate, raise it strictly up to eight, and change nothing past eight |
| `Reuse.MoreLeasesMoreReuse` | src/acr/index.py:133-155 | of two indexes that know the same of a block but its leases, the one with more live leases gives it no less reuse |
| `Reuse.HintsOnlyRaise` | src/acr/policies.py:47-69 | announced returns and role priors only raise the reuse probability, which stays a probability, and a prior counts only until the block has a history |
| `Reuse.AnnouncedReturn` | src/acr/policies.py:62-66 | a block one of whose live sessions is still within its announced absence is worth at least nine tenths |
| `Policies.TierPolicy.constructor` | src/acr/policies.py:133-135 | a new tier is empty |
| `Policies.TierPolicy.Occupancy` | src/acr/policies.py:139-141 | the sum of the entries' bytes |
| `Policies.TierPolicy.Insert` | src/acr/policies.py:150-157 | an absent block is added at the end with one use, a present one keeps its place and bytes and counts a use; either way its lifetime is set by the policy |
| `Policies.TierPolicy.Touch` | src/acr/policies.py:159-165 | each present key counts a use, is touched now and has its lifetime renewed; absent keys change nothing |
| `Policies.TierPolicy.Remove` | src/acr/policies.py:167-168 | exactly the entry of the key goes, and is returned |
| `Policies.TierPolicy.Clear` | src/acr/policies.py:170-171 | nothing is left |
| `Policies.TierPolicy.AdmitChain` | src/acr/policies.py:322-332 | every policy but the adaptive one keeps the chain; the adaptive one refuses it exactly when pressure is at least nine tenths and its value per byte is below the worst resident's |
| `Policies.TierPolicy.Appraise` | src/acr/policies.py:327-329 | total bytes and byte-weighted value of a chain |
| `Policies.TierPolicy.Take` | src/acr/policies.py:414-433 | the first entry and then as many as are needed, in the given order; none, and nothing changed, when there is no entry |
| `Policies.TierPolicy.Choose` | src/acr/policies.py:359-365 | the shortest prefix of the order that frees what is needed, with the bytes it frees |
| `Policies.TierPolicy.ChooseChains` | src/acr/policies.py:355-364 | the chain-by-chain loops take the shortest sufficient prefix of the chains laid end to end, each from the leaf end |
| `Policies.TierPolicy.GroupChains` | src/acr/policies.py:346-348 | the candidates grouped by chain, groups in order of first appearance, members in order |
| `Policies.TierPolicy.Evict` | src/acr/policies.py:192-198 | for each of the six policies: what has expired is dropped first, then victims go in the policy's order until enough is freed; which keys are reported and what stays |
| `Policies.TierPolicy.EvictRanked` | src/acr/policies.py:206-242 | eviction of the five policies that rank single entries |
| `Policies.TierPolicy.EvictChains` | src/acr/policies.py:334-365 | eviction of the adaptive policy: chains ranked by sharing and density, each from the leaf end |
| `Evictions.EvictFreesEnough` | src/acr/policies.py:414-433 | every policy frees what was asked for or gives up every unprotected unexpired entry, and its last victim was needed |
| `Evictions.NoneIff` | src/acr/policies.py:192-198 | `None` comes back exactly when there is no candidate (or the adaptive policy is asked for nothing); what is then left is what has not expired, and that is everything exactly when the policy drops nothing on its own or nothing has expired |
| `Expired.EmptiedForNothing` | src/acr/policies.py:233-242 | for both lifetime policies, in every configuration with room for one smallest block and not for two: one block is stored, and once its life is over the turn of another session empties the tier and stores nothing |
| `Evictions.PoolFits` | src/acr/replay.py:52-62 | after every turn of every run the pool is within its capacity or holds only blocks of that turn |
| `Lifetimes.FixedLifetime` | src/acr/policies.py:235-236 | the flat lifetime is at least its base and never falls with the block's bytes |
| `Lifetimes.ContinuumWithin` | src/acr/policies.py:260-265 | the cost-scaled lifetime lies, past the announced absence, between its two limits |
| `Lifetimes.LongerPathLivesLonger` | src/acr/policies.py:260-265 | and of two blocks with the same announced absence the one on the longer path lives no shorter |
| `Lifetimes.NothingExpires` | src/acr/policies.py:173-174 | at every turn of every run of the other policies all residents are current: none is ever lost to the clock |
| `Lifetimes.StepRenews` | src/acr/policies.py:159-165 | after a turn an entry is on the path, touched now and with a lifetime counted from now, or is as it was before |
| `Lifetimes.ServedPrefix` | src/acr/replay.py:197-210 | a turn is served the longest prefix of its path of which every block is resident, and pays for exactly the blocks of it that are in the host tier only |
| `Hbm.HBMTier.constructor` | src/acr/replay.py:32-34 | a new pool is empty |
| `Hbm.HBMTier.Touch` | src/acr/replay.py:39-42 | the blocks of the keys that are held go to the recent end, in the order of the keys, at the sizes they are held with: touching is filling with them |
| `HbmInclusion.FillShape` | src/acr/replay.py:46-51 | filling leaves the other blocks in their order and then the items in theirs, each at the size it was first stored with |
| `Hbm.HBMTier.Store` | src/acr/replay.py:44-62 | held blocks move to the recent end at the size they were first stored with, new ones are added; then unprotected blocks go, oldest first, until the pool fits |
| `Hbm.HBMTier.FillUp` | src/acr/replay.py:46-51 | the filling loop, with the byte count kept equal to the sum |
| `Hbm.HBMTier.DropOldest` | src/acr/replay.py:57-62 | the one forward pass drops the same blocks as dropping the oldest unprotected block again and again |
| `HbmInclusion.LargerPoolRecomputesLess` | src/acr/replay.py:188-243 | for every trace and policy: after every turn the smaller pool is a suffix of the larger one with the same sizes, index and host tier are the same, and no turn recomputes more with the larger pool |
| `HbmInclusion.LargerPoolReportsLess` | src/acr/replay.py:289-297 | so the larger pool never reports more recompute tokens or prefill seconds |
| `Replay.ControlIsIndependent` | src/acr/replay.py:188-278 | index, announced times and host tier of a run can be computed without the pool and the servers |
| `HostFacts.RunHoused` | src/acr/replay.py:242-278 | in every run the host tier holds blocks of the index only, once each, none empty and none larger than its block in the index |
| `HostFacts.VictimsAreResidents` | src/acr/policies.py:192-198 | under every policy the victims are distinct unexpired residents outside the protected set |
| `HostFacts.OrderIsPermutation` | src/acr/policies.py:346-352 | grouping, ranking and leaf-first sorting lose no candidate and repeat none |
| `Bounds.OccupancyBound` | src/acr/replay.py:257-273 | after every turn, under every policy, occupancy is at most the capacity plus the bytes by which the victims so far had grown in the index since they were stored |
| `Bounds.WholeBlocksFit` | src/acr/replay.py:257-273 | when shared and private parts are whole blocks nothing grows and the tier never passes its capacity |
| `Capacity.StoreWithin` | src/acr/replay.py:242-278 | under every policy a store leaves at most the capacity, or what the tier held before, or the fresh bytes |
| `Capacity.PassesIffOverfills` | src/acr/replay.py:257-273 | a store takes a tier within its capacity past it exactly when there is something to give up and the fresh blocks that fit into the index bytes of everything there is exceed the capacity, whatever the ranking |
| `Capacity.WithinIff` | src/acr/replay.py:257-273 | for every policy and trace: the tier is within its capacity after every turn exactly when no turn overfills it in that sense |
| `Capacity.DemandBound` | src/acr/replay.py:257-273 | a bound without growth: the tier never holds more than its capacity or the missing bytes of some turn |
| `Capacity.PathsFit` | src/acr/replay.py:257-273 | a tier with room for each path of a trace never passes its capacity, whatever the policy |
| `Bounds.RecomputeBound` | src/acr/replay.py:211 | no turn of any run recomputes more than its prompt plus two partly filled blocks |
| `Overflow.CapacityCanBePassed` | src/acr/replay.py:257-273 | for every configuration and every policy: some trace in order of time takes the tier past its capacity exactly when a block can hold more than one token, the tier has room for a block of one, and the policy does not let every block expire at once |
| `Overflow.PassingPasses` | src/acr/replay.py:264-273 | the trace: as many sessions as fit store a one-token block and grow it to a full one, announcing an absence where the policy asks for one, then another asks for as many full blocks |
| `Foresight.ForesightIsExact` | src/acr/replay.py:163-170 | on strictly increasing times, when a turn arrives every resident block outside its path carries its first access after now, and every block of its path carries now |
| `Foresight.VictimsRankFirst` | src/acr/policies.py:201-242 | for the policies that rank single entries, a victim ranks no later than any unprotected resident that stays |
| `Foresight.VictimsNeededLast` | src/acr/policies.py:403-406 | no victim of the oracle is needed sooner than an unprotected resident that stays, the blocks of the current path being needed now; so a block of the path goes only when every candidate outside it goes |
| `Belady.FarthestMissesLeast` | src/acr/policies.py:394-406 | Belady on request sequences: a cache that evicts the block requested farthest in the future misses no more often than any cache of the same size that admits every request |
| `Belady.OracleIsFarthest` | src/acr/policies.py:403-406 | on equal-sized one-block turns at strictly increasing times the oracle's host tier is such a cache |
| `Belady.PlainIsDemand` | src/acr/policies.py:201-218 | on such turns LRU, LFU and the oracle admit every requested block and stay within the slots |
| `Belady.OracleMissesLeast` | src/acr/policies.py:394-406 | so the oracle has no more host misses than any cache of as many blocks that admits every request |
| `Belady.OracleBeatsLruAndLfu` | src/acr/policies.py:394-406 | in particular no more than LRU or LFU on the same trace |
| `LruStack.TierInclusion` | src/acr/policies.py:201-209 | on such turns, after each of them, a larger tier under LRU holds all a smaller one holds, whatever the slots, with the same last touches, and what only it holds is older |
| `LruStack.LargerTierMissesLess` | src/acr/policies.py:201-209 | so on one-block turns it has no more host misses |
| `LruStack.LargerTierRecomputesLess` | src/acr/policies.py:201-209 | and on one-block turns no turn recomputes more with it |
| `LruUnits.SameRuns` | src/acr/replay.py:242-278 | under LRU two host tiers of as many slots go through the same states on every trace: of whole blocks, with slots of a block; or any trace, with slots of a token of a whole number of bytes |
| `LruTrial.Stages` | src/acr/replay.py:257-278 | five turns of one session after which the smaller of two tiers holds the session's first block and the larger does not |
| `LruBlocks.InclusionIff` | src/acr/policies.py:201-209 | in slots of either kind: under LRU a larger tier holds all a smaller one holds after every such trace exactly when the smaller one has no slot or as many |
| `LruBlocks.RecomputeIff` | tests/test_replay.py:51-56 | for every pool: no turn of any such trace recomputes more in the larger tier exactly in those two cases |
| `LruBlocks.ReportsIff` | tests/test_replay.py:51-56 | for every pool: no report on such a trace shows more recompute tokens for the larger tier exactly in those two cases |
| `LruBlocks.LargerTierCanCostMore` | tests/test_replay.py:51-56 | in all other configurations, whatever the pool, a trace whose last turn recomputes nothing in the smaller tier and something in the larger one, and whose report shows more recompute tokens for the larger one |
| `LruBlocks.IncludedRecomputesLess` | src/acr/replay.py:197-211 | on any trace, after which the larger tier holds all the smaller one holds, no turn recomputes more in it |
| `ChainEviction.LeafEndFirst` | src/acr/policies.py:355-363 | within a chain no resident deeper than a victim survives |
| `ChainEviction.OnePartialChain` | src/acr/policies.py:355-365 | a round leaves at most one chain partly resident |
| `ChainEviction.SharedLast` | src/acr/policies.py:349-350 | a chain of shared blocks is touched only when every other chain is gone |
| `ChainEviction.NothingLeftPast` | src/acr/policies.py:334-365 | when no chain of shared blocks is taken, a live session loses every resident block past the first it loses |
| `ChainEviction.PrefixesSurvive` | src/acr/policies.py:334-341 | and what a live session had as a resident prefix of its path is a resident prefix afterwards |
| `PrefixRuns.EveryRoundOpen` | src/acr/replay.py:242-266 | at every turn of every run the index is sound, no resident is protected or expired and the served session is live: what the theorems on a round ask for |
| `PrefixRuns.WaitingPrefixKept` | src/acr/replay.py:242-278 | under the adaptive policy a live session that waits keeps a resident prefix through the whole turn of another, when before the turn there is no round to come, nothing in a chain of shared blocks is resident, or enough bytes are ahead of all that is |
| `PrefixRuns.SparesIff` | src/acr/policies.py:349-365 | that condition holds exactly when the round takes no chain of shared blocks |
| `PrefixKept.PrefixKeptIff` | src/acr/replay.py:242-278 | for every policy, every turn of every run and every session: a session whose residents are a prefix of its path has one after the turn exactly when, as the bytes ahead of its blocks in the eviction order tell before the turn, the blocks it loses are the last of the prefix, and none if the next block is stored |
| `PrefixKept.ServedPrefixIff` | src/acr/replay.py:242-278 | for the session that is served: exactly when it has no resident block, there is no round, nothing can be stored, or no resident of the path has expired and enough bytes are ahead of all of them |
| `PrefixKept.LosesIff` | src/acr/policies.py:192-198 | a resident is lost exactly when there is a round and it has expired or fewer bytes than needed are ahead of it in the order of the policy |
| `PrefixKept.IdleIff` | src/acr/replay.py:257-273 | nothing is stored exactly when nothing is offered, or there is nothing to give up, or everything goes and the first fresh block does not fit into its room |
| `PrefixRuns.ServedPrefixBreaks` | src/acr/replay.py:242-278 | with room for two full blocks and not for three, two turns of one session that leave its first and third block |
| `Rates.SavingIffWorth` | src/acr/config.py:54-63 | the saving per byte is positive exactly when the tier is above break-even |
| `Rates.DensitiesScale` | src/acr/policies.py:306-312 | every density of a block that is not empty is the reuse probability times the saving per byte |
| `Rates.SameAdmission` | src/acr/policies.py:322-332 | two speeds admit the same chains, for the adaptive policy on the same side of break-even |
| `Rates.SameEviction` | src/acr/policies.py:334-391 | and evict the same blocks |
| `Rates.ControlIgnoresRates` | src/acr/policies.py:192-391 | so index and host tier of a whole run do not depend on prefill rate, bandwidth or efficiency: the adaptive policy needs the same side of break-even, the one whose lifetimes are recompute times the same prefill rate, the other four nothing |
| `Rates.RunsIgnoreRates` | src/acr/replay.py:188-240 | nor do any turn's recompute tokens and restore bytes, the pool, thrash, demotions and peak |
| `Uncontended.StoresAll` | src/acr/replay.py:254-273 | with room to spare every policy stores all missing blocks of the path and evicts nothing |
| `Uncontended.PoliciesAgree` | src/acr/replay.py:188-278 | if nine tenths of the capacity exceed the final bytes of the trace's blocks, then after every turn any two policies agree on the host tier's blocks and bytes, the pool, the servers and every recorded figure, and nothing has left the host tier |
| `Uncontended.ReportsAgree` | tests/test_replay.py:90-100 | so their reports are equal and count no reacquired block |
| `Servers.ServiceNeverOverlaps` | src/acr/replay.py:216-221 | service intervals on each server are disjoint and in the order of the turns; a prefill waits for its transfer |
| `Servers.BusyIsMaxPlus` | src/acr/replay.py:219-221 | the prefill engine is free exactly at the greatest of zero plus all work and every earlier ready time plus the work since |
| `Servers.TtftMonotone` | src/acr/replay.py:213-222 | a time to first token never falls when the turn or any turn before it transfers or recomputes more |
| `Servers.RunIsJobs` | src/acr/replay.py:213-239 | the servers and recorded times of every run are those of its list of jobs |
| `Servers.LessWorkLessWait` | src/acr/replay.py:213-239 | of two runs over a trace, whatever their pools and policies, the one whose turns never recompute or restore more never makes a turn wait longer |
| `Servers.ReportAddsUp` | src/acr/replay.py:293-297 | reported prefill and transfer seconds are the sums of the seconds charged turn by turn |
| `Simulation.Simulator.constructor` | src/acr/replay.py:127-148 | a new simulator is in the start state |
| `Simulation.Simulator.FutureAccesses` | src/acr/replay.py:152-161 | the schedule lists for every key exactly the times of the turns, in time order, whose path holds it |
| `Simulation.Simulator.RefreshOracle` | src/acr/replay.py:163-170 | exactly the path's entries note their first scheduled access after now |
| `Simulation.Simulator.ServeFrom` | src/acr/replay.py:197-210 | the longest prefix of which every block is in the pool or the host tier, the bytes restored for it, and the restores of blocks that left the pool within the window |
| `Simulation.Simulator.Charge` | src/acr/replay.py:213-222 | what the two servers are busy until, and the time to first token |
| `Simulation.Simulator.FillHbm` | src/acr/replay.py:226-228 | the pool is filled with the path, which is protected, and every dropped block counts as a demotion now |
| `Simulation.Simulator.StoreBatchToHost` | src/acr/replay.py:242-278 | the missing blocks of the path are offered, room is made in one round, and the prefix that fits is stored |
| `Simulation.Simulator.RoomFor` | src/acr/replay.py:257-266 | one eviction round when the fresh blocks do not fit; the victims leave now and their index bytes count as room |
| `Simulation.Simulator.Admit` | src/acr/replay.py:267-278 | the leading blocks that fit are stored in path order, and those that had left before count as reacquired |
| `Simulation.Simulator.One` | src/acr/replay.py:188-240 | a turn takes the whole simulator from one state to the state the specification of a turn gives |
| `Simulation.Simulator.CloseSessions` | src/acr/replay.py:183-184 | every path is gone and every lease that belonged to one, in whatever order the sessions close |
| `Simulation.Simulator.Run` | src/acr/replay.py:174-186 | the turns are taken in order of time, with the schedule of the trace for the oracle, then every session closes and the report adds up the metrics |
| `Simulation.Simulator.Finalize` | src/acr/replay.py:289-303 | the totals of the report |
| `Simulation.RunLeavesNoLease` | src/acr/replay.py:183-184 | after a run no block is leased and no session has a path or a last-seen time |
| `EngineValue.AcrValuePolicy.constructor` | src/acr/vllm/policy.py:73-97 | a new policy holds nothing |
| `EngineValue.AcrValuePolicy.InsertBlock` | src/acr/vllm/policy.py:104-110 | the block is held, is evictable when nothing references it, and an existing record is kept |
| `EngineValue.AcrValuePolicy.RemoveBlock` | src/acr/vllm/policy.py:112-115 | the key leaves all three containers |
| `EngineValue.AcrValuePolicy.TouchBlocks` | src/acr/vllm/policy.py:117-136 | one use of each known key, in order, with the hints folded in |
| `EngineValue.AcrValuePolicy.MarkEvictable` | src/acr/vllm/policy.py:138-139 | the key joins the evictable set; the containers stay in step exactly when the policy holds the block |
| `EngineValue.AcrValuePolicy.MarkNonEvictable` | src/acr/vllm/policy.py:141-142 | the key leaves the evictable set |
| `EngineValue.AcrValuePolicy.Clear` | src/acr/vllm/policy.py:144-147 | nothing is left |
| `EngineValue.AcrValuePolicy.Evict` | src/acr/vllm/policy.py:149-164 | atomic: `None` and no change when there are too few candidates, else exactly n distinct unprotected evictable blocks, least by score, last use and uses, leave all three containers |
| `EngineValue.EtaFold` | src/acr/vllm/policy.py:130-133 | the announced return changes a record exactly when it is negative |
| `EngineValue.ColdStartIsLru` | src/acr/vllm/policy.py:156-160 | without reuse history, at equal size, leases and weight, blocks rank by last use and then by uses |
| `EngineValue.NoGeometryIsLru` | src/acr/vllm/policy.py:89-93 | without a block geometry every score is zero and the ranking is last use and then uses |
| `EngineValue.RunInStep` | src/acr/vllm/policy.py:104-164 | over any sequence of calls the three containers stay in step exactly when every mark names a held block |
| `EngineValue.PinnedStays` | src/acr/vllm/policy.py:138-153 | a held block that is not evictable stays until a call frees it |
| `EngineTtl.SessionTtlPolicy.constructor` | src/acr/vllm/ttl.py:46-57 | a new policy holds nothing |
| `EngineTtl.SessionTtlPolicy.InsertBlock` | src/acr/vllm/ttl.py:63-65 | the block is held in its place, and a lifetime it has is kept |
| `EngineTtl.SessionTtlPolicy.RemoveBlock` | src/acr/vllm/ttl.py:67-71 | the key leaves all four containers |
| `EngineTtl.SessionTtlPolicy.TouchBlocks` | src/acr/vllm/ttl.py:73-85 | each sighting of a held block renews its lifetime by the sender's role and notes the role |
| `EngineTtl.SessionTtlPolicy.MarkEvictable` | src/acr/vllm/ttl.py:87-88 | the key is no longer pinned |
| `EngineTtl.SessionTtlPolicy.MarkNonEvictable` | src/acr/vllm/ttl.py:90-91 | the key is pinned |
| `EngineTtl.SessionTtlPolicy.Clear` | src/acr/vllm/ttl.py:93-97 | nothing is left |
| `EngineTtl.SessionTtlPolicy.Evict` | src/acr/vllm/ttl.py:99-112 | the first n of the queue of expired blocks and then the others by lifetime leave all four containers, or nothing changes |
| `EngineTtl.EvictTakesExpiredFirst` | src/acr/vllm/ttl.py:99-112 | `evict` is atomic, takes exactly n distinct blocks that are neither protected nor pinned, expired ones first and then the soonest to expire, and keeps the containers in step |
| `EngineTtl.QueueIsLive` | src/acr/vllm/ttl.py:103-108 | the queue holds exactly the unprotected unpinned blocks, once each |
| `EngineTtl.RunInStep` | src/acr/vllm/ttl.py:63-112 | over any sequence of calls every held block has a lifetime, and only held blocks have one, or a role |
| `EngineTtl.PinnedStays` | src/acr/vllm/ttl.py:87-103 | a held pinned block stays, expired or not, until a call frees it |
| `EngineTtl.OnlySightingsRenew` | src/acr/vllm/ttl.py:63-85 | as long as a block is held, only a touch that names it moves its lifetime |
| `Lookup.CountLeading` | experiments/connector_lookup_veto_probe.py:260-267 | the number of leading resident keys |
| `Lookup.CountTrailing` | experiments/connector_lookup_veto_probe.py:269-281 | the end of the last full window of resident keys, else the length of the leading run |
| `Lookup.LookUpGroup` | experiments/connector_lookup_veto_probe.py:303-330 | what one group makes of the boundary, with its three ways of returning zero |
| `Lookup.OnePass` | experiments/connector_lookup_veto_probe.py:293-335 | the loop over the groups with the set of verified tail groups |
| `Lookup.Predict` | experiments/connector_lookup_veto_probe.py:247-338 | the prediction, or a failed key-count assertion; the worklist empties after one round, so the convergence guard never fires |
| `Lookup.StopsIff` | experiments/connector_lookup_veto_probe.py:296-301 | the assertion fails exactly when some group has fewer keys than whole chunks of tokens and the pass over the groups before it has not returned zero |
| `Lookup.CdivLeast` | experiments/connector_lookup_veto_probe.py:239-240 | the ceiling quotient is the least n with a <= n * b |
| `Lookup.PredictedRange` | experiments/connector_lookup_veto_probe.py:247-338 | the prediction is zero or at most the tokens not computed locally, and never negative |
| `Lookup.MoreResidentNeverHurts` | experiments/connector_lookup_veto_probe.py:247-338 | making more keys resident never lowers the prediction, when no group that drops its tail is named twice |
| `Lookup.FewerGroupsNeverHurt` | experiments/connector_lookup_veto_probe.py:247-338 | on such lists, dropping a group from the lookup and sliding lists never lowers the prediction while one lookup group remains |
| `Lookup.PredictedIsServed` | experiments/connector_lookup_veto_probe.py:296-335 | a positive prediction is served: every full-prefix group has all chunks from its computed start to the ceiling of the boundary, and the last group, when windowed, its full window there or everything from its start |
| `Lookup.ServableIsPredicted` | experiments/connector_lookup_veto_probe.py:296-335 | when no group drops a tail, the prediction reaches every boundary that all groups can serve |
| `Lookup.RingVeto` | experiments/connector_lookup_veto_probe.py:301-330 | with nothing computed locally, a full-prefix group that holds only its first chunk forces zero when it drops its tail or a later group is wider |
| `LookupOrder.FullShrink` | experiments/connector_lookup_veto_probe.py:303-330 | a full-prefix group that drops no tail cuts the boundary to the end of its leading resident keys, or makes the result zero when that leaves less than a chunk |
| `LookupOrder.BestIsAlone` | experiments/connector_lookup_veto_probe.py:288-335 | the best is the least prediction of a list of one of the groups |
| `LookupOrder.LargestFirstIsBest` | experiments/connector_lookup_veto_probe.py:288-335 | on lists that drop no tail, windowed groups among them, no order gives more than the least that one of the groups gives alone, and listing those that give most alone first gives just that |
| `LookupOrder.OrderIrrelevantIff` | experiments/connector_lookup_veto_probe.py:288-335 | on such lists the order does not matter exactly when some group gives nothing alone or all groups can serve the least that one gives alone |
| `LookupOrder.AllOrdersIff` | experiments/connector_lookup_veto_probe.py:288-335 | every order reaches a positive best exactly when all groups can serve it, and every order gives zero exactly when some group does alone |
| `LookupOrder.FullServableIff` | experiments/connector_lookup_veto_probe.py:303-330 | full-prefix groups can all serve a positive best exactly when it is a whole chunk for each |
| `LookupOrder.WidestFirstIsBest` | experiments/connector_lookup_veto_probe.py:288-335 | for full-prefix groups listing the widest first is best too |
| `LookupOrder.SettlesIff` | experiments/connector_lookup_veto_probe.py:288-335 | with windowed and tail groups: a positive prediction survives a second pass exactly when all groups can serve it |
| `LookupOrder.SettledOrdersIff` | experiments/connector_lookup_veto_probe.py:288-335 | on lists that drop no tail, windowed groups among them: what survives a second pass in one order is a lower bound in every order, and is reached exactly by the orders whose prediction survives one |
| `LookupOrder.SettledIsGreatest` | experiments/connector_lookup_veto_probe.py:288-335 | and it is the greatest number of tokens that all groups can serve |
| `LookupOrder.SecondPassIff` | experiments/connector_lookup_veto_probe.py:288-335 | for all groups: a positive prediction survives a second pass with verified tails exactly when it is a whole chunk for every group and every windowed group serves it |
| `LookupOrder.OrderMatters` | experiments/connector_lookup_veto_probe.py:288-335 | two groups in either order, with different results |
| `LookupOrder.TailsDropTwice` | experiments/connector_lookup_veto_probe.py:298-334 | two groups that drop their tails: zero in either order, though neither gives zero alone |
| `LookupOrder.TailTwiceHurts` | experiments/connector_lookup_veto_probe.py:298-334 | a list that names a tail group twice, on which one more resident key lowers the prediction |
| `LeastSquares.Pivot` | bench/cold_prefill_curve.py:76 | the first row from the diagonal down whose entry is largest in absolute value |
| `LeastSquares.ClearColumn` | bench/cold_prefill_curve.py:78-82 | the inner loop clears the column in the other two rows |
| `LeastSquares.FitQuadratic` | bench/cold_prefill_curve.py:68-83 | the fit divides by zero exactly on points with fewer than three distinct abscissae; otherwise it solves the normal equations, no other quadratic has as small a sum of squared residuals, and points on a quadratic give back that quadratic |
| `LeastSquares.SingularIff` | bench/cold_prefill_curve.py:71-74 | the normal matrix is singular exactly when there are fewer than three distinct abscissae |
| `LeastSquares.NormalMinimises` | bench/cold_prefill_curve.py:71-74 | a solution of the normal equations has the least residual, alone so on three distinct abscissae |

## Left out

- Rounding of floating-point numbers and the values of `exp`: results are over exact reals and an abstract function.
- Loading of configuration, trace files and YAML, the command line, Markdown tables, percentiles and per-role rows of a report: input and presentation.
- The names of policies, tiers and reports, and the registry that builds a policy from a name.
- `admit`, `value`, `lambda_mem`, `chain_reuse_prob`, `has_history`, `has_live_lease`, `recompute_seconds_per_byte`, `roles`, `recompute_bytes`, `ordered_tiers`, `objective`, and `get` of the engine-side policies: not used by the simulator, or a single expression.
- The defaults and tuning values of the policies and configurations: they are parameters.
- Engine-side configuration from environment variables, the shape of request contexts, and the clock: constructor arguments, an optional record of hints, and a time argument.
- EngineValue.AcrValuePolicy: a block's reference count is read when it is inserted; later changes by the engine reach the policy only through the marking calls, as in the source, but the block object it returns is modelled as a value.
- EngineValue.Params.ReuseProb: the power function is a parameter, because lease counts from hints need not be whole.
- Policies.TierPolicy.EvictChains: all victims are chosen first and removed then; the source removes each as it is chosen, which leaves the same state because nothing in between reads it.
- Prefix.PrefixIndex.ReleaseSession: requires that the path's keys are in the index, where the source would raise; every index a simulator reaches satisfies it.
- Simulation.Simulator: always builds its own index, and its policy has the capacity of its tier, as `run_policy` sets them up; requires that paths and host keys are in the index, which every method keeps.
- EngineValue.AcrValuePolicy.Evict: requires containers in step; after a mark of a block that the policy does not hold the source fails with a key error when that key is chosen.
- Belady.OracleMissesLeast: only for equal-sized one-block turns at strictly increasing times and room for one block.
- LruBlocks.InclusionIff: when a token takes a fractional number of bytes, the sizes of partly filled blocks are no multiples of one unit, and traces of whole blocks only are covered.
- Overflow.CapacityCanBePassed: the parameters of the flat lifetime are durations, not negative.
- LookupOrder.OrderIrrelevantIff: lists that drop no tail; with tails dropped the condition is no longer exact, as `TailsDropTwice` shows.
- Lookup.Predict: the trace strings and the reason of a halt are left out, and a window has at least one chunk.
- Lookup.MoreResidentNeverHurts: for lists that name no group with a tail to drop twice, as the repository's do; with one named twice it can fail, as `TailTwiceHurts` shows.
- The scheduler-building, printing and engine-calling parts of the experiments, the offload harness and the HTTP benchmark: calls into code that is not visible, or network input and output.
- Empirical claims of the documents (speedups, rankings of policies, hit rates): measurements, not consequences of the code.
