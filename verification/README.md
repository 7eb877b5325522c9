# Tarmac society: a verified model

The repository runs a negotiation between agents that compete for scarce units: seats, a crew, gates, hotel rooms.
Claims are sealed and opened against a ledger that grants all or nothing; challenges cost credibility; a detector turns
waiting and repeated conflict into deadlocks; a mediator rules on them; everything is written to a hash-chained log that
an auditor replays. This project models that engine and the planners that drive it, and proves what they promise: of every
run, for every agent and every mediator.

The project is checked with `dafny verify dfyconfig.toml`.

## How it is laid out

| files | part |
|---|---|
| `Order`, `Schemas`, `Scenario` | sorting and orders; claims, positions, rulings, log events, hashing; passengers and flights |
| `Graph`, `Tarjan`, `Detector`, `DetectorObject`, `Escalation` | reachability and what a cycle report must be; the iterative search; scans and streaks on values; the detector object; which disputes are reported, when, and with whom |
| `Ledger`, `Books`, `LedgerFacts`, `LedgerEffects`, `LedgerObject` | the claim ledger on values; what a reader of the log can rebuild; what every call keeps; what each call does; the ledger object |
| `ChainLog`, `Verify`, `AuditFacts`, `AuditMeaning` | the hash-chained log object and its checker; the auditor; when the audit accepts and when it raises; what acceptance means, line by line |
| `Bank`, `BankObject` | contests and their exact accounting; the bank object |
| `Rounds`, `RoundFacts`, `RunTheorems`, `ResolverFacts`, `SocietyObject`, `EndToEnd` | the round engine on values; what each phase keeps; theorems over whole runs; which resolvers keep logs acceptable; the society object; building, running and auditing one |
| `PositionFacts`, `SettlementFacts`, `MediationFacts`, `RoundStory`, `FinalStory`, `Views` | what a position, a ruling, a round and the end at the cap do to balances, contests, claims and the log; what views show |
| `Baseline`, `PlannerRun` | the single planner: stability, the factor two, its whole run |
| `Fiat`, `FiatFacts`, `SeatRuling`, `SeatRulingFacts`, `ManyDisputes`, `DoublePick`, `FairTurns`, `CreditFacts` | the duty manager's fiat and seat rulings; which of their ops the ledger accepts; a ruling that fails; fairness turn by turn; who wins and who loses |
| `Rebooking`, `RebookingFacts`, `RebookingRounds`, `Advocate`, `Impasse`, `Polite`, `StormSociety` | the two policies that collide, and the guarantee that they do |
| `Roles`, `RoleFacts`, `PolicyFacts`, `TarmacRun` | the other three role agents; what all five ask for and challenge; the society as built for a storm |

Each component that the program updates in place is a class whose methods are proved equal to functions on values
(`Value()` after the call is the specified function of `Value()` before, and the log grows by exactly the specified
lines). The theorems are about those functions, so they hold of the objects. Agents and the mediator are arbitrary
functions of the view they are shown: each is called once per round, so a function covers every behaviour of one run,
random or not. A run is `Returned` or `Aborted`: an exception that the program lets escape aborts it, and what is stated
of every run is stated of aborted runs too.

What is abstract: SHA-256, canonical JSON and the nonce source are functions in `Crypto` and `Config`. Collision freedom,
injectivity of the canonical form, and hexadecimal digests are assumptions stated where they are used, and only of the
messages actually hashed. Nonces have 16 bytes inside a society run, as they are drawn; the ledger itself takes any.

Where the code and its documentation differ, the code is followed:

- The status diagram of `schemas.py:8-13` has no step from WITHDRAWN to VOIDED; `void_claim` makes it, and so does the model.
- Rulings are applied op by op (`society.py:247-255`); ops before one that fails stay applied.
- A ruling's grant may name beneficiaries outside the claim's proposal, and the model allows it.
- A ruling is rejected only if no citation resolves, so a recorded ruling may be left with blank citations only.
  `ResolverFacts.SpaceIsUnsafe` is a run whose audit fails for it, and `ResolverFacts.AlwaysAcceptedIffSafe` says exactly
  which resolvers rule that out; `RunTheorems.EveryReturnedRunVerifies` is for those.
- The ledger rejects a reveal with a nonce of the wrong length, but the audit raises on its log line:
  `AuditFacts.TwoCallsThatRaise` is the shortest such history, and `AuditFacts.RaisesIffMalformed` says exactly when.
- A contested report is keyed by its claims alone, so whoever joins a challenge already reported is in no report:
  `Escalation.SecondChallengerUnlisted`. `Escalation.EscalatesInTime` says exactly when a lasting dispute is reported.
- A cycle deadlock's resources include those of waits between a member and agents outside the group.
- `_rule_seats` picks holders for each claim from the same view, so with several claims on one flight it can bump one holder
  twice, and the ledger refuses the second op: `DoublePick.TwoClaimsOneHolder`. `ManyDisputes.SeatRulingRunsIffClean` says
  exactly when all the ops are accepted, for any number of claims.

## Model

| member | source | states |
|---|---|---|
| `Tarjan.FindCycles` | src/tarmac_society/deadlock.py:28-87 | The iterative search terminates on every finite graph and returns exactly the list `Graph.Cycles` defines from mutual reachability alone, sorted inside and out. |
| `Tarjan.Explore` | src/tarmac_society/deadlock.py:50-86 | The loop over the stack of (node, child) frames: from a root not yet visited it discovers exactly what the root reaches, keeps the lowlink and stack invariants, and only adds finished components. |
| `Tarjan.PopComponent` | src/tarmac_society/deadlock.py:74-80 | The pop loop takes exactly the stack suffix from the root on, and keeps the on-stack marks exact. |
| `Tarjan.RootComponent` | src/tarmac_society/deadlock.py:73-82 | When a finished frame has its own index as lowlink, the stack from it upwards is its whole strongly connected component. |
| `Graph.CyclesSound` | src/tarmac_society/deadlock.py:28-33 | A listed group is sorted and duplicate-free, its members are exactly the nodes mutually reachable with any of them, and it has two nodes or a self-loop. |
| `Graph.CyclesComplete` | src/tarmac_society/deadlock.py:28-33 | Every edge that lies on a cycle has both ends in one listed group. |
| `Graph.CyclesDisjoint` | src/tarmac_society/deadlock.py:28-33 | Two listed groups that share a node are the same group. |
| `Graph.CyclesSorted` | src/tarmac_society/deadlock.py:87-87 | The list of groups is sorted and names no group twice. |
| `Detector.CycleGenuine` | src/tarmac_society/deadlock.py:117-156 | In every cycle a scan reports, each agent has a blocked claim on a resource that another agent of the report holds, and that claim and that resource are in the report. |
| `Detector.CycleComplete` | src/tarmac_society/deadlock.py:132-156 | If the wait-for relation has a cycle through two agents, their component was reported in this scan or its key had fired before with the same agents and claims. |
| `Detector.CycleReported` | src/tarmac_society/deadlock.py:132-156 | In every history, once a scan sees a cycle of the wait-for relation its component is on record, with its agents and claims. |
| `Detector.NeverTwice` | src/tarmac_society/deadlock.py:138-204 | Over a whole run, however scans and resets follow each other, no key is reported twice, and the fired keys are exactly those of the reports. |
| `Detector.StreakExact` | src/tarmac_society/deadlock.py:103-105 | After any history a streak is the number of latest scans in a row, since its last reset, in which the resource was contested. |
| `Detector.ContestedMeansStreak` | src/tarmac_society/deadlock.py:185-204 | In every history, a contested report is of one resource and means at least `contested_rounds` consecutive contested scans. |
| `Detector.FiresAtThreshold` | src/tarmac_society/deadlock.py:187-204 | A contested report is at the threshold, contested in this very scan, and not covered by a cycle of this scan. |
| `Escalation.ContestedReportExact` | src/tarmac_society/deadlock.py:158-204 | A contested report is of one resource in dispute and lists exactly its blocked claims, its challenged grants, the grants holding what is waited for, their owners, and the challengers; nobody else. |
| `Escalation.EscalatesInTime` | src/tarmac_society/deadlock.py:158-204 | A resource in dispute in each of the last `threshold` scans, blocked or challenged, with no reset in between: this scan reports it, with all parties, if and only if no cycle of the scan takes it in and no report of it with the same claims is on record. |
| `Escalation.ChallengeIsReported` | src/tarmac_society/deadlock.py:169-204 | A grant challenged through those scans is on a resource of a cycle of this scan, or in a contested report of that resource on record. |
| `Escalation.SecondChallengerUnlisted` | src/tarmac_society/deadlock.py:187-204 | A second challenger of a grant already reported is in no report: the key is made of the claims only. |
| `Escalation.CycleReportExact` | src/tarmac_society/deadlock.py:117-156 | A cycle report lists exactly the claims and resources its agents are involved with, as waiting or as waited on. |
| `DetectorObject.DrawGraph` | src/tarmac_society/deadlock.py:117-132 | The nested loops over blocked claims and holders draw exactly the wait-for graph, with each agent's resources and claims. |
| `DetectorObject.GatherContested` | src/tarmac_society/deadlock.py:158-182 | The two loops collect exactly the contested resources, with their agents and claims. |
| `DetectorObject.DeadlockDetector.FireAll` | src/tarmac_society/deadlock.py:132-156 | The cycle loop reports each component whose key is new and updates fired keys, counter and covered resources. |
| `DetectorObject.DeadlockDetector.FireStreaks` | src/tarmac_society/deadlock.py:184-204 | Stale streaks go, the others advance one by one, and each resource is judged as it advances. |
| `DetectorObject.DeadlockDetector.Scan` | src/tarmac_society/deadlock.py:107-206 | A scan leaves the detector in the state, and returns the reports, of the specification the properties above are about. |
| `DetectorObject.DeadlockDetector.Reset` | src/tarmac_society/deadlock.py:103-105 | A ruling on a resource forgets its streak and nothing else. |
| `LedgerFacts.LedgerInvariants` | src/tarmac_society/ledger.py:244-392 | After any sequence of calls, including those that raise or roll back: no resource over capacity, no beneficiary twice in one group, every allocation under its resource's group, and the log replays to `manifest()`. |
| `LedgerFacts.ClaimLifecycle` | src/tarmac_society/ledger.py:350-468 | Between any two moments of any run a claim only moves forward, only granted claims hold anything, and a claim that has ended is never granted or blocked again and never regains a holder. |
| `LedgerFacts.DoGood` | src/tarmac_society/ledger.py:130-468 | Any single call keeps the ledger sound, moves claims forward only, and writes exactly the lines that tell what changed. |
| `LedgerFacts.PlacedGood` | src/tarmac_society/ledger.py:313-347 | A successful all-or-nothing allocation keeps capacity, exclusivity and backing, and its `alloc` lines tell it. |
| `LedgerFacts.TakeBackGood` | src/tarmac_society/ledger.py:350-392 | Taking units back keeps the ledger sound and is told by its `dealloc` lines; a claim left with no holder changes status. |
| `LedgerFacts.VoidGood` | src/tarmac_society/ledger.py:453-461 | Voiding an existing claim never fails, and leaves it in a final status. |
| `LedgerFacts.RevealGood` | src/tarmac_society/ledger.py:173-231 | An opened commitment is told exactly; an accepted one re-derives its digest and a rejected one does not. |
| `LedgerFacts.EndedHoldsNothing` | src/tarmac_society/ledger.py:463-468 | A claim that is not granted holds nothing. |
| `LedgerEffects.RegisterAdds` | src/tarmac_society/ledger.py:130-140 | A resource is added exactly when the capacity is not negative and the id is new, and nothing else changes. |
| `LedgerEffects.CommitStores` | src/tarmac_society/ledger.py:156-165 | A commitment is stored, unopened, under a number no commitment had. |
| `LedgerEffects.AttemptMeans` | src/tarmac_society/ledger.py:313-347 | An allocation to people named once succeeds if and only if they fit the capacity and none holds the resource, or another of its group; the storage refuses exactly the ungrouped repeat with room. |
| `LedgerEffects.InsertFiles` | src/tarmac_society/ledger.py:244-311 | A filed claim is granted, with exactly its people given units, when they fit, and otherwise blocked with nothing given; an unknown resource is an error, and what the storage refuses leaves no trace. |
| `LedgerEffects.SubmitFiles` | src/tarmac_society/ledger.py:233-242 | A plain claim takes the next number and is filed so. |
| `LedgerEffects.RevealOpensOwn` | src/tarmac_society/ledger.py:173-231 | A reveal needs the agent's own unopened commitment; it files the claim if and only if claim and nonce re-derive the digest, and otherwise records the rejection. |
| `LedgerEffects.ReleaseGivesUp` | src/tarmac_society/ledger.py:350-368 | A release is accepted exactly for one's own granted claim and names that hold something under it, once each; exactly those lose it, all holders when none are named, and a claim left with nobody is released. |
| `LedgerEffects.WithdrawEnds` | src/tarmac_society/ledger.py:443-451 | Exactly one's own blocked claim can be withdrawn, and nothing else changes. |
| `LedgerEffects.VoidEnds` | src/tarmac_society/ledger.py:453-461 | Voiding takes exactly what the claim holds and ends it, and leaves voided, revoked and released claims as they are. |
| `LedgerEffects.RevokeTakes` | src/tarmac_society/ledger.py:398-404 | A revoke is accepted exactly for a granted claim and holders under it, and takes exactly from the named. |
| `LedgerEffects.GrantGives` | src/tarmac_society/ledger.py:405-429 | A grant to people named once is accepted exactly for a blocked claim and people who fit, and gives exactly them a unit each. |
| `LedgerObject.ClaimLedger.constructor` | src/tarmac_society/ledger.py:88-113 | A ledger over stored tables has those tables, and its counters resume at the highest stored numbers. |
| `LedgerFacts.ReopenedSound` | src/tarmac_society/ledger.py:97-113 | Reopening a sound ledger leaves it sound with the same tables, and gives out no number twice. |
| `LedgerObject.ClaimLedger.Register` | src/tarmac_society/ledger.py:130-140 | Registers a resource and logs it; a negative capacity or a known id is an error and changes nothing. |
| `LedgerObject.ClaimLedger.Commit` | src/tarmac_society/ledger.py:156-165 | Stores the sealed digest under the next number and logs it. |
| `LedgerObject.ClaimLedger.SealAndCommit` | src/tarmac_society/ledger.py:167-171 | Seals a proposal with a 16-byte nonce and commits its digest. |
| `LedgerObject.ClaimLedger.OpenBid` | src/tarmac_society/ledger.py:173-231 | Checks owner and digest, records acceptance or rejection, and files the claim, in the specified state, outcome and log lines. |
| `LedgerObject.ClaimLedger.SubmitPlain` | src/tarmac_society/ledger.py:233-242 | Files a claim without a commitment. |
| `LedgerObject.ClaimLedger.InsertAndApply` | src/tarmac_society/ledger.py:244-311 | The transaction: a claim is granted whole or blocked, and a storage violation rolls both tables back. |
| `LedgerObject.ClaimLedger.TryAllocate` | src/tarmac_society/ledger.py:313-347 | The two pre-checks, then one guarded insert per beneficiary, decide exactly as the specification: no room, already held, violated, or allocated. |
| `LedgerObject.ClaimLedger.Deallocate` | src/tarmac_society/ledger.py:370-392 | All targets or none, each held under this very claim. |
| `LedgerObject.ClaimLedger.Release` | src/tarmac_society/ledger.py:350-368 | The owner gives up all or some of a granted claim; every error leaves the tables as they were. |
| `LedgerObject.ClaimLedger.Withdraw` | src/tarmac_society/ledger.py:443-451 | The owner withdraws a blocked claim. |
| `LedgerObject.ClaimLedger.VoidClaim` | src/tarmac_society/ledger.py:453-461 | Voids a claim, taking back what it holds; revoked, released and voided claims are left alone, withdrawn ones are not. |
| `LedgerObject.ClaimLedger.RuleOne` | src/tarmac_society/ledger.py:396-441 | One binding op: revoke, grant or void. |
| `LedgerObject.ClaimLedger.ApplyRulingOps` | src/tarmac_society/ledger.py:394-441 | Ops in order; the first that raises ends the call and what was applied stays. |
| `LedgerObject.OnlyTheKeyGuards` | src/tarmac_society/ledger.py:338-346 | After the pre-checks, the capacity trigger never refuses an insert, and the group index only one the primary key refuses too. |
| `ChainLog.VerifyChain` | src/tarmac_society/chainlog.py:120-145 | Accepts exactly the chains whose rows all pass, and otherwise names the first bad row and why. |
| `ChainLog.BuiltChainVerifies` | src/tarmac_society/chainlog.py:69-91 | Every log that opens with its genesis entry verifies, however it was extended. |
| `ChainLog.HeadPinsLog` | src/tarmac_society/chainlog.py:51-91 | Unless two of the hashed messages collide, two verifying logs with the same head hash are equal entry by entry. |
| `ChainLog.MessageUnambiguous` | src/tarmac_society/chainlog.py:51-54 | A previous hash in hexadecimal followed by a JSON object splits in one way only. |
| `ChainLog.CommitmentBinds` | src/tarmac_society/commitment.py:40-57 | With 16-byte nonces a digest opens to one claim and one nonce, unless those two messages collide. |
| `ChainLog.ChainLog.constructor` | src/tarmac_society/chainlog.py:59-67 | Reopening over stored rows restores sequence number and head. |
| `ChainLog.ChainLog.Begin` | src/tarmac_society/chainlog.py:69-73 | Writes the genesis entry, once. |
| `ChainLog.ChainLog.Append` | src/tarmac_society/chainlog.py:75-93 | Appends one row chained to the head; refused before genesis. |
| `Verify.ReplayManifest` | src/tarmac_society/verify.py:74-89 | The loop rebuilds the allocation table from `alloc` and `dealloc` lines alone. |
| `Verify.CheckCapacity` | src/tarmac_society/verify.py:96-113 | True exactly when no resource of the manifest is over the capacity it was registered with. |
| `Verify.CheckExclusivity` | src/tarmac_society/verify.py:115-132 | True exactly when no beneficiary is in two resources of one group. |
| `Verify.CheckReveals` | src/tarmac_society/verify.py:135-172 | Both verdicts are exact over the whole log, and a nonce of the wrong length makes the check raise. |
| `Verify.CheckCitations` | src/tarmac_society/verify.py:175-190 | True exactly when every recorded ruling cites something that is not blank. |
| `Verify.RunChecks` | src/tarmac_society/verify.py:193-235 | All checks in order, over one replay. |
| `Verify.VerifyLog` | src/tarmac_society/verify.py:193-236 | Raises exactly when a reveal has a malformed nonce, and otherwise reports ok exactly when every invariant holds and every domain check passes. |
| `Verify.VerifyReport.Failures` | src/tarmac_society/verify.py:52-53 | Lists exactly the failed checks, and is empty exactly when the report is ok. |
| `AuditFacts.SoundPasses` | src/tarmac_society/verify.py:193-235 | The log of a sound ledger that ends with its manifest passes every check. |
| `AuditMeaning.PassesMeans` | src/tarmac_society/verify.py:74-236 | The audit passes a chained log if and only if, read line by line: nobody still holds what was not registered, capacities and groups are kept, reveals agree with what was committed, rulings cite, and the last manifest lists exactly who still holds what. |
| `AuditFacts.RaisesIffMalformed` | src/tarmac_society/verify.py:155-155 | Over any history of ledger calls the audit raises if and only if one of them was a reveal, of the caller's own unopened commitment, with a nonce that is not 16 bytes. |
| `AuditFacts.TwoCallsThatRaise` | src/tarmac_society/verify.py:155-155 | A commit and a reveal with a short nonce, both taken without an error, are such a history. |
| `Bank.BankInvariants` | src/tarmac_society/currency.py:109-221 | In every reachable bank state each balance is budget + premium·won − cost·(open + lost), so open + lost contests are at most (budget + premium·won)/cost; at most one open contest per agent and target; the total is conserved. |
| `Bank.DoKept` | src/tarmac_society/currency.py:109-221 | Every call, with any arguments, keeps the accounts balanced. |
| `Bank.SummaryReconciles` | src/tarmac_society/currency.py:240-260 | A balance is its budget, less what was staked, plus refunds and premiums. |
| `Bank.SpendSummary` | src/tarmac_society/currency.py:240-260 | The accumulating loop computes those sums for an agent. |
| `BankObject.CredibilityBank.constructor` | src/tarmac_society/currency.py:60-89 | A bank over stored tables keeps stored balances, gives other agents their budget, and resumes numbering at the highest contest. |
| `BankObject.CredibilityBank.OpenContest` | src/tarmac_society/currency.py:109-156 | Charges the stake and opens a contest; declines who cannot pay; a second challenge of the same target is the first. |
| `BankObject.CredibilityBank.Settle` | src/tarmac_society/currency.py:175-204 | Pays stake and premium to a winner, burns a loser's stake; only an open contest settles. |
| `BankObject.CredibilityBank.VoidContest` | src/tarmac_society/currency.py:206-221 | Returns the stake of an open contest. |
| `SocietyObject.Society.Run` | src/tarmac_society/society.py:280-360 | The round loop, for any agents, any mediator and any cap, ends in exactly the run the theorems below are about. |
| `SocietyObject.Society.RunRound` | src/tarmac_society/society.py:286-332 | One round: rotation, commit and reveal, positions, detection, mediation, closing line. |
| `SocietyObject.Society.SealEveryone` | src/tarmac_society/society.py:129-139 | Every agent seals before any bid is opened. |
| `SocietyObject.Society.OpenBids` | src/tarmac_society/society.py:140-153 | Bids opened in order; a ledger error is noted, a storage violation escapes. |
| `SocietyObject.Society.Process` | src/tarmac_society/society.py:168-195 | What each stance does to ledger and bank, and when an exception escapes. |
| `SocietyObject.Society.HearEveryone` | src/tarmac_society/society.py:155-166 | Positions filed and processed agent by agent. |
| `SocietyObject.Society.LookForDeadlocks` | src/tarmac_society/society.py:296-299 | Scans, records and logs. |
| `SocietyObject.Society.ResolveCitations` | src/tarmac_society/society.py:202-233 | Keeps, in order, the citations that resolve, with their hashes, and lists the others as dropped. |
| `SocietyObject.Society.SignAndApplyRuling` | src/tarmac_society/society.py:197-260 | A ruling with nothing left to cite is rejected; any other is recorded, applied op by op, and settles contests and streaks. |
| `SocietyObject.Society.SettleContests` | src/tarmac_society/society.py:262-277 | Winners are credited, losers burned, untouched challenges left open, the rest refunded. |
| `SocietyObject.Society.FinalizeRun` | src/tarmac_society/society.py:362-402 | At the cap: fiat with a mediator, quarantine without, then everything still open or blocked is voided. |
| `SettlementFacts.SettlesAll` | src/tarmac_society/society.py:262-277 | Each open contest ends Won if its agent is among the winners, otherwise Lost if among the losers, otherwise Refunded if an op or the deadlock touches its target, otherwise stays open; balances grow by stake and premium per win and the stake per refund; each end is logged. |
| `PositionFacts.BlockStakes` | src/tarmac_society/society.py:178-189 | A block of somebody else's grant: with the stake and no open contest on it, exactly one contest is added, the balance drops by the stake, nothing else changes, and the opening is logged; short of the stake only the decline is logged; with an open contest nothing happens. |
| `PositionFacts.BlockWithoutAccount` | src/tarmac_society/currency.py:109-156 | Without an account such a block escapes as an exception and changes nothing. |
| `PositionFacts.YieldGivesUp` | src/tarmac_society/society.py:190-192 | A yield of one's own granted claim takes exactly the named holders off it, all when none are named, and releases it when nobody is left; a name that holds nothing under it aborts the run. |
| `PositionFacts.YieldGivesIn` | src/tarmac_society/society.py:193-194 | A yield of one's own blocked claim withdraws it. |
| `PositionFacts.OthersJustNoted` | src/tarmac_society/society.py:168-195 | Every other position changes nothing but the log, by at most a note. |
| `MediationFacts.RulingDoes` | src/tarmac_society/society.py:197-260 | A ruling that is not aborted takes the next number; with no known citation it is logged as rejected and nothing else; otherwise it is recorded with its known citations, its ops are tried in order and each logged, every open contest is settled as above, and the streaks of the deadlock's resources are forgotten. |
| `RoundStory.FileAllTells` | src/tarmac_society/society.py:155-166 | All positions of an agent are filed under its own name and take effect in order. |
| `RoundStory.DetectTells` | src/tarmac_society/society.py:296-299 | The scan sees the ledger and exactly the open contests, and its reports are recorded and logged one by one. |
| `RoundStory.RotatedRotates` | src/tarmac_society/society.py:288-288 | Round by round the next agent speaks first. |
| `RoundStory.RoundTells` | src/tarmac_society/society.py:286-332 | A round that is not aborted: bids on the view before the phase, everybody heard in turn on the view of the moment, a scan, the mediator if there is one, and the closing line; and it is the last exactly when nothing was bid or said and nothing is blocked or contested. |
| `RoundStory.RoundAsksMediator` | src/tarmac_society/society.py:301-310 | With a mediator, ruling numbers grow by exactly the deadlocks the round reports; the k-th is answered by `rule` on it, the filed positions whose target or agent it names, and the view of the moment, and the answer takes effect. |
| `FinalStory.QuarantineStory` | src/tarmac_society/society.py:387-402 | Without a mediator the end at the cap voids exactly the blocked claims and the granted claims under an open contest, refunds every open contest, and nothing else. |
| `FinalStory.FiatStory` | src/tarmac_society/society.py:363-386 | With one, exactly one ruling by fiat is made, on everything blocked or contested, all positions and the view of the moment; it takes effect; then the open contests left are refunded and the blocked claims left are voided. |
| `Views.ViewShowsAll` | src/tarmac_society/society.py:100-117 | A view shows every resource with its free units, exactly the granted and the blocked claims with their holders, the agent's own among them, exactly the open contests, the rulings and all balances. |
| `RoundFacts.SealedBidNonInterference` | src/tarmac_society/society.py:129-139 | Every agent's bids answer the world as it stood before the phase, so no proposal of the round can influence another. |
| `RoundFacts.CommitRevealFacts` | src/tarmac_society/society.py:129-153 | A society never counts a rejected reveal. |
| `RoundFacts.FineRound` | src/tarmac_society/society.py:286-332 | A round keeps ledger, log, bank and reports healthy, whether it ends or is aborted. |
| `RunTheorems.EveryReturnedRunVerifies` | src/tarmac_society/society.py:280-360 | For arbitrary agents, mediator and cap, the log of every run that returns passes all checks of the audit, chain included, and the audit does not raise. |
| `RunTheorems.EveryRunStaysSound` | src/tarmac_society/society.py:280-360 | Returned or aborted: the ledger is sound, the log replays to its manifest, no reveal was rejected, and no deadlock key was reported twice. |
| `ResolverFacts.PassesIffRulingsCite` | src/tarmac_society/verify.py:193-235 | Whatever the resolver, a returned run passes the audit if and only if each ruling on its log cites something that is not blank; no other check can fail, and none raises. |
| `ResolverFacts.AlwaysAcceptedIffSafe` | src/tarmac_society/society.py:203-233 | Every returned run passes, for every mediator and cap, if and only if the resolver resolves no blank id, or else resolves every id that is not blank. |
| `ResolverFacts.BlankRulingFails` | src/tarmac_society/society.py:203-233 | For a resolver that resolves a blank id but not some proper one: the mediator whose fiat cites both returns a run that fails the audit. |
| `ResolverFacts.SpaceIsUnsafe` | src/tarmac_society/society.py:203-233 | A resolver that knows only a single space is one. |
| `RunTheorems.EveryReturnedRunCloses` | src/tarmac_society/society.py:328-402 | Every run that returns leaves no blocked claim and no open contest, and total balances equal budgets + premium·won − cost·lost. |
| `RunTheorems.ChallengedClaimsLoseAll` | src/tarmac_society/society.py:387-402 | Finalizing without a mediator leaves a claim under an open contest no allocation. |
| `RunTheorems.UnmediatedRunStripsChallenged` | src/tarmac_society/society.py:328-402 | In every run without a mediator that returns at the cap, whatever claim was under an open contest when the rounds were used up holds nothing in the end. |
| `EndToEnd.RunAndAudit` | src/tarmac_society/verify.py:193-235 | Building a society over an empty store, running it and auditing its log: if the run returned, the audit does not raise and passes. |
| `EndToEnd.BuildSociety` | src/tarmac_society/tarmac/run.py:90-158 | The objects put together are the fresh society the theorems start from. |
| `Baseline.PlannerIsStable` | src/tarmac_society/tarmac/baseline.py:105-122 | From any ledger with nobody seated: every legal flight a passenger would prefer to what they got ends full and held only by passengers earlier in commercial order; no seat claim is blocked. |
| `Baseline.PlannerSeatsHalf` | src/tarmac_society/tarmac/baseline.py:105-122 | No assignment of passengers to legal flights within capacity seats more than twice as many. |
| `Baseline.SeatOneProgress` | src/tarmac_society/tarmac/baseline.py:107-122 | One passenger's turn keeps all of this for those already dealt with. |
| `Baseline.Packed` | src/tarmac_society/ledger.py:313-347 | If each flight carries at least its riders, all the flights together carry at least all their riders. |
| `PlannerRun.PlannerRunIsStable` | src/tarmac_society/tarmac/baseline.py:53-122 | Stability of the whole run, crew and gates included, in terms of the scenario's seat counts. |
| `PlannerRun.PlannerRunSeatsHalf` | src/tarmac_society/tarmac/baseline.py:53-122 | The factor two for the whole run. |
| `PlannerRun.PlannerRunVerifies` | src/tarmac_society/tarmac/baseline.py:53-135 | The audit accepts every planner run. |
| `PlannerRun.SeatPassengers` | src/tarmac_society/tarmac/baseline.py:104-122 | The nested loop on the ledger object does exactly the specified seating. |
| `PlannerRun.SeatNext` | src/tarmac_society/tarmac/baseline.py:107-122 | The inner loop takes the first flight with a seat and stops. |
| `Fiat.FiatShares` | src/tarmac_society/tarmac/personas.py:758-782 | Closed form: a claim gets what earlier claims left of its resource's free units, up to its quantity, for its first beneficiaries, and is voided if that is nothing. |
| `Fiat.FiatHandsOut` | src/tarmac_society/tarmac/personas.py:758-782 | Per resource exactly the free units are handed out, or all that is asked if that is less. |
| `Fiat.FiatCutsOff` | src/tarmac_society/tarmac/personas.py:765-778 | Once a claim gets less than it asked, every later claim on that resource is voided. |
| `Fiat.FiatDecidesEach` | src/tarmac_society/tarmac/personas.py:730-782 | Each blocked claim of the view gets exactly one op, a grant or a void. |
| `Fiat.CrewPartExact` | src/tarmac_society/tarmac/personas.py:743-756 | Exactly the challenged crew claims whose crew is short of duty time are voided, once each. |
| `Fiat.QueueByProtection` | src/tarmac_society/tarmac/personas.py:761-764 | Claims are served by best-protected beneficiary, then id, and none is lost. |
| `CreditFacts.FiatCredits` | src/tarmac_society/tarmac/personas.py:743-784 | Its winners are exactly the agents with a blocked claim it grants and the challengers of crew claims short of duty; its losers exactly the owners of those and the challengers of legal crew claims. |
| `Fiat.RuleFiat` | src/tarmac_society/tarmac/personas.py:730-799 | The loops compute exactly that ruling. |
| `FiatFacts.FiatOpAccepted` | src/tarmac_society/ledger.py:394-441 | Applied one by one, a fiat void is always accepted, and a fiat grant exactly when none of the people it names holds the resource, or another of its group, by then; room is never the reason. |
| `FiatFacts.LoopApplies` | src/tarmac_society/society.py:247-255 | That is how the society's loop applies them. |
| `SeatRulingFacts.SeatRulingExecutes` | src/tarmac_society/tarmac/personas.py:633-689 | With one blocked seat claim of unseated passengers the ops are all accepted in order; as many are bumped as are short or eligible; all bumped are less protected and can fly otherwise; nobody eligible who is spared is less protected; with a shortfall the flight ends exactly full. |
| `SeatRulingFacts.MediatedSeatRuling` | src/tarmac_society/society.py:247-255 | In a run, on the view the mediator is shown, such a ruling goes through without a rejected op or an exception. |
| `SeatRulingFacts.ProtectedStay` | src/tarmac_society/tarmac/personas.py:641-657 | No holder with medical cargo is bumped by such a ruling, and an unaccompanied minor only for a claim that names somebody with it. |
| `CreditFacts.SeatsCredit` | src/tarmac_society/tarmac/personas.py:663-704 | For any number of claims: an agent wins exactly when the ops grant one of its blocked claims, and loses exactly when the ops revoke from a claim it owns, or it challenges a claim of the deadlock and does not win. |
| `CreditFacts.SeatsCite` | src/tarmac_society/tarmac/personas.py:706-712 | A seat ruling cites the base source and exactly those of the flags of the people the disputed claims name. |
| `FairTurns.EveryTurnFair` | src/tarmac_society/tarmac/personas.py:603-689 | For any number of claims: one turn for each disputed seat claim, the best protected first; each bumps the first of those who may be bumped by then, as many as it is short of, least protected first, then by claim, then by name from the end; each is promised the first legal flight with room; and room counts what earlier turns won back, gave and promised. |
| `FairTurns.OpsMean` | src/tarmac_society/tarmac/personas.py:658-688 | A turn's ops revoke from exactly its victims, each under its claim, and grant the claim to the first of its people, as many as it gives seats to. |
| `ManyDisputes.SeatRulingRunsIffClean` | src/tarmac_society/tarmac/personas.py:603-689 | For any number of blocked claims the ops are all accepted if and only if no holder is bumped twice from a seat and nobody is given a seat who has one by then; then exactly those seats have changed hands. |
| `ManyDisputes.SeparateDisputesRun` | src/tarmac_society/tarmac/personas.py:603-689 | Claims on different flights, for different people none of whom has a seat: all ops are accepted. |
| `ManyDisputes.TurnRuns` | src/tarmac_society/tarmac/personas.py:633-689 | One claim's ops are accepted exactly when its turn is clean, and the manager's tally of free seats is then still the ledger's. |
| `ManyDisputes.RevokesAccepted` | src/tarmac_society/ledger.py:396-404 | A turn's revokes are accepted if and only if every victim still holds the seat under the claim the view showed. |
| `DoublePick.TwoClaimsOneHolder` | src/tarmac_society/tarmac/personas.py:633-662 | Two claims on one full flight with one holder to bump: the ruling picks the holder twice and the ledger refuses an op. |
| `SeatRulingFacts.GatherEligible` | src/tarmac_society/tarmac/personas.py:626-654 | The candidates are exactly the eligible holders, once each. |
| `SeatRulingFacts.VictimsFacts` | src/tarmac_society/tarmac/personas.py:655-657 | The victims are as many as needed or eligible, and the least protected ones. |
| `SeatRulingFacts.RevokesRun` | src/tarmac_society/ledger.py:396-404 | The revokes, applied in order, are all accepted and take exactly the victims off. |
| `SeatRuling.RuleSeats` | src/tarmac_society/tarmac/personas.py:603-727 | The loops compute exactly that ruling, for any number of blocked claims. |
| `SeatRuling.FindCandidates` | src/tarmac_society/tarmac/personas.py:639-654 | The loops over granted claims and holders. |
| `SeatRuling.CountVictims` | src/tarmac_society/tarmac/personas.py:658-662 | Frees seats, reserves alternatives, and groups victims by claim. |
| `Rebooking.WavesAreBids` | src/tarmac_society/tarmac/personas.py:118-213 | The seat claims of one call name only passengers open to their flight, are pairwise disjoint, follow (−risk, id) order, and leave an eligible passenger out only when full and in favour of higher risk. |
| `Rebooking.NoClaimMeansNobody` | src/tarmac_society/tarmac/personas.py:144-148 | A wave with room makes no claim only if nobody is eligible. |
| `RebookingRounds.WavesAre` | src/tarmac_society/tarmac/personas.py:159-213 | What the desk goes for in each round, and at what quantity: in terms of the view's free seats, its own blocked claims and what rivals hold. |
| `RebookingRounds.BidsWithin` | src/tarmac_society/tarmac/personas.py:159-213 | Every seat bid is for a flight the desk goes for, within the quantity. |
| `RebookingRounds.NobodyLeftOut` | src/tarmac_society/tarmac/personas.py:159-213 | Whoever could take a flight the desk goes for is named in some bid of the round, unless that flight is bid for at the full quantity. |
| `RoleFacts.DeskBids` | src/tarmac_society/tarmac/personas.py:118-213 | Each seat bid names, the riskiest first, only people legal for the flight, shown without a seat and not spoken for, and nobody riskier is left without any bid. |
| `Rebooking.PlaceBids` | src/tarmac_society/tarmac/personas.py:159-213 | The loop that remembers whom it has placed makes exactly these bids. |
| `RebookingFacts.SeatBidsGranted` | src/tarmac_society/tarmac/personas.py:159-213 | In rounds other than 2 every seat claim of the call is granted when all its bids, the ferry's of round 1 included, are opened back to back on the viewed ledger. |
| `RebookingFacts.RevealAdds` | src/tarmac_society/ledger.py:173-231 | Opening a bid only adds: its claim, and units for its own beneficiaries on its own resource. |
| `Impasse.OpeningBids` | src/tarmac_society/tarmac/personas.py:162-186 | With enough takers the first seat claim is for every seat of QW441. |
| `Impasse.AdvocateBlocks` | src/tarmac_society/tarmac/personas.py:287-317 | Whoever else bids in between, the advocate's claim on QW441 ends round 1 blocked. |
| `Impasse.SecondScanReports` | src/tarmac_society/deadlock.py:184-204 | The second scan in a row that finds the resource contested reports, if nothing was reported before. |
| `Impasse.DeadlockByRoundTwo` | src/tarmac_society/tarmac/seed.py:16-20 | Whatever the other agents and the mediator do, a deadlock is on record by the second round's detection, unless an exception ends the run first. |
| `Impasse.RunRecordsDeadlock` | src/tarmac_society/society.py:280-360 | Every run of two or more rounds that returns has recorded a deadlock. |
| `Polite.RaisesIff` | src/tarmac_society/ledger.py:338-346 | The storage refuses an insert if and only if an ungrouped resource has room and one of the named holds it already. |
| `Polite.PoliteRoundFinishes` | src/tarmac_society/society.py:129-195 | If every agent uses its own name, and on every view a run can show yields each claim at most once and only what it holds, no exception cuts a round short before detection. |
| `Polite.PoliteDeadlockByRoundTwo` | src/tarmac_society/tarmac/seed.py:16-20 | Among such agents the guarantee is unconditional. |
| `Polite.CrewIsPolite` | src/tarmac_society/tarmac/personas.py:383-433 | The crew agent is such an agent. |
| `Polite.GateIsPolite` | src/tarmac_society/tarmac/personas.py:439-488 | So is the gate agent. |
| `Polite.HotelIsPolite` | src/tarmac_society/tarmac/personas.py:494-540 | So is the hotel desk: it yields each of its claims once, and only rooms of its own holders. |
| `Polite.RebookingIsPolite` | src/tarmac_society/tarmac/personas.py:118-280 | So is the rebooking desk. |
| `Polite.AdvocateIsPolite` | src/tarmac_society/tarmac/personas.py:284-378 | So is the advocate. |
| `Roles.ChallengeEach` | src/tarmac_society/tarmac/personas.py:393-403 | The loop over granted claims challenges exactly the crew claims of others that are condemned and not challenged yet. |
| `Roles.AssignGates` | src/tarmac_society/tarmac/personas.py:442-463 | Gates go to departures in order, skipping those that have one. |
| `Roles.ReturnRooms` | src/tarmac_society/tarmac/personas.py:521-540 | The loop yields, claim by claim, exactly the rooms of holders who have a seat. |
| `RoleFacts.CrewBlocks` | src/tarmac_society/tarmac/personas.py:393-417 | Crew legality blocks exactly the granted crew claims of others whose crew is known to be short of duty and which it does not contest yet. |
| `RoleFacts.GateBlocks` | src/tarmac_society/tarmac/personas.py:465-488 | The gate desk blocks exactly the granted crew claims of others it does not contest yet. |
| `RoleFacts.GatesInOrder` | src/tarmac_society/tarmac/personas.py:442-463 | A bid pairs the i-th gate with the i-th flight by departure, exactly when the desk has no gate claim for that flight. |
| `RoleFacts.RoomsReturned` | src/tarmac_society/tarmac/personas.py:521-540 | The hotel desk yields exactly the rooms, claim by claim, of holders who are shown with a seat. |
| `PolicyFacts.HotelBids` | src/tarmac_society/tarmac/personas.py:497-519 | From round 3 on, one bid for as many of those without seat and room as there are rooms, none less needy than one left out; otherwise none. |
| `PolicyFacts.CrewBacks` | src/tarmac_society/tarmac/personas.py:418-433 | Crew legality backs the first of the advocate's blocked claims on QW441 exactly while the advocate contests anything. |
| `PolicyFacts.FirstRoundNames` | src/tarmac_society/tarmac/personas.py:287-317 | The advocate's first bids name all couriers and minors, couriers first, and the first wheelchair passenger by id; the others are bid for on QW519. |
| `PolicyFacts.WheelchairsAre` | src/tarmac_society/tarmac/personas.py:293-293 | The wheelchair passengers are those of the table with that need, each once, by id. |
| `PolicyFacts.FallbackRound` | src/tarmac_society/tarmac/personas.py:319-346 | Later it bids one seat each, exactly for those unseated whose claim, if any, has been blocked for two rounds, on the first compliant flight with a seat that is not the one fought for. |
| `PolicyFacts.AdvocateChallenges` | src/tarmac_society/tarmac/personas.py:348-378 | It challenges the biggest rival claim on QW441 it does not contest yet, exactly while it waits for that flight. |
| `PolicyFacts.RebookingAnswers` | src/tarmac_society/tarmac/personas.py:215-280 | The rebooking desk does the same on QW519, and speaks up for exactly those of its grants that are contested. |
| `StormSociety.StormSocietyDeadlocks` | src/tarmac_society/tarmac/seed.py:16-20 | For any resources with no more seats on QW441 than takers and any advocate's table with two wheelchair passengers, a freshly built society whose agents are polite in that sense has a deadlock on record by its second round, with or without a mediator. |
| `StormSociety.StormRunDeadlocks` | src/tarmac_society/tarmac/run.py:90-158 | With any other agents beside these two, polite or not, every run that returns has one on record. |
| `TarmacRun.TarmacAlwaysDeadlocks` | src/tarmac_society/tarmac/run.py:90-158 | For the five role agents as built: for every storm with at least as many takers as QW441 has seats and two wheelchair passengers, any private tables, mediator, resolver and budget, a deadlock is on record by round two, and at the end of every run of two or more rounds, returned or aborted. |
| `TarmacRun.StormHasResources` | src/tarmac_society/tarmac/run.py:73-87 | Seats, ferry crew, gates and hotel are registered under different names; seats are in the seat group, and what is in no group is a single unit. |
| `TarmacRun.PlannerRegistersTheSame` | src/tarmac_society/tarmac/baseline.py:72-72 | The single planner opens with the same resources. |
| `TarmacRun.RunTarmac` | src/tarmac_society/tarmac/run.py:167-198 | Built, run and audited, the storm's society has a deadlock on record. |

## Left out

- SQLite, file paths and thread locks: tables are maps; a transaction is a snapshot restored on failure.
- Thread interleavings: operations happen one at a time.
- Formatted identifiers (`c-001`, `x-01`, `d-01`) are natural numbers, so ordering past the padding width is numeric.
- The detector's keys are tuples of agents and claims, not comma-joined text.
- Claim payloads, free text in positions and rulings, and the validation of both beyond what the proofs use.
- The allocation table's round column, and the spend curve snapshot taken each round.
- Exceptions raised by an agent or the mediator itself: their calls return.
- The scenario shown in an agent's view and the private tables are parameters of the policies.
- Lookups that raise in Python for an unknown passenger (priority, risk, legal flights) return a default; the storm's tables are complete.
- The policies' positions are without arguments, citations and concessions.
- The flights of the advocate's service-level table are any list per passenger.
- SeatRulingFacts.SeatRulingExecutes: on the ledger, for one blocked claim; for several, `FairTurns` says whom each turn bumps and `ManyDisputes` when the ops are accepted.
- SocietyObject.Society.SignAndApplyRuling: the Ed25519 signature put on a recorded ruling, because nothing in the engine or the audit reads it.
- ChainLog.ChainLog.constructor: opens over rows that form a chain; rows altered in the store are what `ChainLog.VerifyChain` is for.
- BankObject.CredibilityBank.constructor: prices and budgets are natural numbers, so their rejection when negative, or for a stake of 0, is not modelled.
- LedgerObject.ClaimLedger.constructor: always over an open log; so is the bank.
- The ruling on crew deadlocks; the theorems hold for any ruling.
- Reading a log from a file.
- The language-model transport, command line, site, benchmarks and metrics.
