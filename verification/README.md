# SEBAK in Dafny

A model of the core of a SEBAK node, and proofs of what that core is for: the ISAAC voting protocol over
whole runs, the ledger transition, the storage overlay and its iterator, the transaction pool and the
building of proposals, and four small cores (block time, sync scheduling, running-round index, RLP list header).

Verify everything with `dafny verify dfyconfig.toml`.

## Layout

| file | what it holds |
|---|---|
| `Voting.dfy` | the vote count of one round and its decision from a partial view |
| `Isaac.dfy` | one validator: its state and the atomic effect of each handler chain and timer case |
| `Agreement.dfy` | N validators, any interleaving, loss and duplication of ballots; agreement over whole runs |
| `Handlers.dfy`, `Rounds.dfy`, `InitVote.dfy` | what each handler and timer case leaves behind; whole rounds and why no node gets stuck; what a SIGN YES rests on |
| `SingleVoting.dfy` | order of the manager's states and one ballot per slot, over whole runs of one node |
| `StaleVote.dfy`, `StaleOwnBallot.dfy`, `LateVote.dfy` | two concrete runs in which an own ballot comes late, and when a late own vote matters |
| `RunningRounds.dfy`, `NodeRunner.dfy` | votes nested by round, proposer, state and voter; the validator as an object that votes, counts and removes through them, refining `Isaac` |
| `Amount.dfy`, `Operations.dfy`, `Accounts.dfy`, `FinishBallot.dfy` | 64-bit amounts, operations, accounts, applying a block |
| `ClosedForm.dfy`, `Conservation.dfy` | the net effect of a block, its order independence, conservation, arithmetic safety |
| `Validation.dfy`, `ValidBlock.dfy`, `BallotBlock.dfy` | the checks on transactions, and what they and a YES imply for a block |
| `Chain.dfy`, `ChainRecords.dfy`, `Funding.dfy`, `Frozen.dfy` | whole chains of finished ballots: blocks against stored transactions, public funding against stored votes, frozen accounts |
| `Batch.dfy`, `Pagination.dfy` | the batch overlay; the cursor iterator and paging |
| `Pool.dfy`, `Proposal.dfy`, `BallotTransactions.dfy` | the pool; the proposer's ballot against the checkers, as values and as loops |
| `BlockTime.dfy`, `Sync.dfy`, `Rlp.dfy` | block-time control, sync scheduling, RLP list headers |

## Modelling choices

- Each handler chain and each timer case of a validator is one atomic step. Sent ballots form a bag: any of
  them may be delivered to any node at any time, any number of times, or never.
- The voting threshold is an integer T; a configuration is valid if 1 <= T <= V and 2T > V.
- Hashes: a block hash in the protocol stands for the chain it identifies; in `Chain` it is an arbitrary
  function of the block, and is taken to be injective only where a lemma says so.
- Heights, rounds and counters are unbounded; amounts, fees and sequence ids are 64-bit and wrap where the program wraps.
- The inflation amount, the proposed times, out-of-date votes, the free
  room of the sync pool and the height found in storage are parameters.
- A step of a validator takes the verdict on a foreign proposal as a parameter; `InitVote` puts the verdict of
  the checks in its place.
- The index of operations is written with its block, and a check may see any prefix of what an account or a
  transaction recorded, since the program fills it in the background.

## Where the code and its promises differ

Each of these has a lemma with a concrete input, named in parentheses, and an exact condition.

- A node's own ballot skips the basis check. A node votes once per slot, EXP renewals aside, if and only if
  every own ballot it handles casts nothing or casts into a slot that is recorded or unused
  (`StaleOwnBallot.StaleProposalBreaksSingleVoting`, `SingleVoting.SingleVotingIff`). Agreement holds while
  own ballots arrive at the height they were sent for; for two validators that must both vote YES, all runs
  with own ballots up to d heights late agree if and only if d is zero (`StaleVote.StaleVoteBreaksAgreement`,
  `StaleVote.PairAgreesIff`). A late own vote decides anything only where all validators must agree
  (`LateVote.LateVoteDecidesIff`).
- `Amount.Add` wraps silently: it keeps its promise if and only if the integer sum is below 2^64
  (`Amounts.AddWraps`, `Amounts.AddExactIff`).
- `ValidateTx` compares a balance with the wrapped 64-bit total. A block of passed transactions does what its
  amounts say if and only if no account is created twice and no integer total passes the ceiling
  (`ValidBlock.WrappingIsApplied`, `ValidBlock.TwoCreationsFail`, `ValidBlock.PassedBlockExactIff`).
- `GetLatestBlock` looks for the latest proposed time. The chain can grow if and only if its highest block
  has the latest time; one earlier time stops it for good (`Chain.ChainStopsAtTwo`, `Chain.GrowsIff`).
- A read through a batch after a delete still sees the stored value; it matches the log if and only if the
  key was not last deleted while stored (`Batch.DeletedKeyIsStillRead`, `Batch.ReadMatchesReplayIff`).
- A forward iterator steps over the first key above a cursor that is not itself a key
  (`Pagination.KeyAfterCursorIsSkipped`, `Pagination.CursorIsExactIff`).
- Two pooled transactions of one source: the bijection between sources and pool survives an accepted
  transaction if and only if its source was not pooled (`Pool.CarelessCallersLoseNames`, `Pool.AddKeepsNamesIff`).
- After the end of inflation the proposer still asks for inflation: its amounts are expected if and only if
  inflation has not ended or is zero (`Proposal.LateProposalIsRefused`, `Proposal.ProposalIsExpectedIff`).
- The proposer adds fees modulo 2^64, the checkers with a panic: the ballot gets YES if and only if their sum
  does not panic (`Proposal.CostlyProposalPanics`, `Proposal.ProposalGetsYes`).
- The block-time target is fixed at 5 s; the drift vanishes from every start if and only if 5 s lie strictly
  within delta of the goal (`BlockTime.SixSecondsNeverCatchUp`, `BlockTime.ConvergesIff`).

## Model

| member | source | states |
|---|---|---|
| Voting.DecidedIsFinal | lib/consensus/round_vote.go:70-119 | with 2T > V, an outcome decided on a partial view is the outcome on every larger view |
| Voting.PartialViewsAgree | lib/consensus/round_vote.go:70-119 | any two views of one assignment of votes that both decide, decide alike |
| Voting.FullViewIsDecided | lib/consensus/round_vote.go:70-119 | once all V have voted YES, NO or EXP there is an outcome |
| Voting.MajorityIsNecessary | lib/consensus/round_vote.go:70-119 | with 2T <= V there are two views of one assignment that decide YES and NO |
| Voting.ConsistencyNeedsMajority | lib/consensus/round_vote.go:70-119 | views always agree if and only if 2T > V |
| Voting.MajorityIsPossibleIff | lib/consensus/round_vote.go:102-119 | some end of the vote has T for YES or T for NO if and only if enough voters have not voted otherwise |
| Voting.VerdictIff | lib/consensus/round_vote.go:70-119 | on any partial view: YES if and only if T voted YES, NO if and only if T voted NO and not T YES, a draw if and only if no end of the vote can have a majority, open in all other cases |
| Voting.Tally | lib/consensus/round_vote.go:78-91 | the counting loop yields the sizes of the YES, NO and EXP voter sets |
| Agreement.QuorumExcludesBlocked | lib/consensus/round_vote.go:117-119 | under the protocol invariant, a YES quorum and enough NO or EXP ballots to rule it out never exist for one slot |
| Agreement.AcceptNeedsSign | lib/node/runner/checker.go:683-709 | under the invariant, a quorum of ACCEPT votes implies a quorum of SIGN votes in that round |
| Agreement.QuorumIsNotLeft | lib/node/runner/checker.go:449-472 | under the invariant, a round with an ACCEPT quorum is abandoned by nobody |
| Agreement.StepKeeps | lib/node/runner/node_runner.go:518-576 | every start, delivery and timeout keeps the protocol invariant |
| Agreement.DeliverKeeps | lib/node/runner/node_runner.go:518-576 | handling any sent ballot keeps the protocol invariant |
| Agreement.TimerKeeps | lib/node/runner/isaac_state_manager.go:199-227 | every timer case keeps the protocol invariant |
| Agreement.ExpiredSignKeeps | lib/node/runner/checker.go:449-472 | a draw in SIGN: the EXP ballot and the abandoned round are justified by the votes |
| Agreement.AcceptBallotKeeps | lib/node/runner/checker.go:683-720 | a decided SIGN round: the ACCEPT ballot is justified by the votes |
| Agreement.StoreKeeps | lib/node/runner/checker.go:723-785 | storing a block on a YES quorum keeps the invariant |
| Agreement.SameBlock | lib/node/runner/checker.go:723-759 | under the invariant, any two nodes hold the same round, proposer and transactions at every common height |
| Agreement.RunKeeps | lib/node/runner/node_runner.go:518-576 | the invariant holds after every regular run |
| Agreement.ChainsAgree | lib/node/runner/checker.go:723-759 | after every regular run the chains of any two nodes are prefixes of one another |
| Agreement.StoredRoundIsNeverLeft | lib/node/runner/checker.go:449-472 | no node ever leaves, by NO or EXP, a round some node stored |
| Agreement.StoredBlockWasProposed | lib/node/runner/checker.go:723-785 | every stored block is the proposal of the selected proposer on that chain, with T SIGN and T ACCEPT votes |
| Handlers.ResultIsOutcome | lib/consensus/isaac.go:285-316 | the verdict of a validator is the outcome of the votes it holds: majority of YES, of NO, draw or open, stated without the counting |
| Handlers.TransitLeaves | lib/node/runner/isaac_state_manager.go:146-174 | the manager moves only to a later state, and into INIT with exactly one proposal of the given transactions if it is the node's turn |
| Handlers.RenewLeaves | lib/node/runner/checker.go:389-418 | exactly the out-of-date votes of that proposer and slot are dropped; if the own vote is among them exactly one EXP ballot goes out, otherwise nothing is sent or recorded as sent |
| Handlers.StaleVoteIsRenewed | lib/node/runner/checker.go:389-418 | through the whole handler: an own vote that is out of date when another vote of its slot arrives goes out again as EXP |
| Handlers.LeaveLeaves | lib/node/runner/checker.go:449-472 | a left round is the latest one, its votes and older ones are gone, and the next round begins, with a proposal if it is the node's turn |
| Handlers.SignLeaves | lib/node/runner/checker.go:335-472 | after any new SIGN vote: an ACCEPT of the majority's vote, an EXP and the next round for a draw, nothing more while open |
| Handlers.StoreLeaves | lib/node/runner/checker.go:723-785 | the block is on top, votes and send records up to its height are gone, and round 0 of the next height begins |
| Handlers.AcceptLeaves | lib/node/runner/checker.go:723-759 | after any new ACCEPT vote: the block for a majority of YES, the round left for NO and for a draw, nothing more while open |
| Handlers.ForeignBallotLeaves | lib/node/runner/checker.go:170-345 | a ballot of no validator, off the top of the chain or already voted changes nothing; one ahead is recorded exactly if it is a new ACCEPT for YES or EXP |
| Handlers.TimerLeaves | lib/node/runner/isaac_state_manager.go:199-274 | what each timer case leaves in the manager, the sent ballots and the send records |
| Handlers.StartLeaves | lib/node/runner/isaac_state_manager.go:183-190 | a start goes to round 0 on top of the chain, with a proposal if it is the node's turn |
| Rounds.SignMajorityAccepts | lib/node/runner/checker.go:335-472 | T SIGN votes for YES, in any order and from any T validators, make a node send ACCEPT YES unless that slot was used |
| Rounds.AcceptMajorityStores | lib/node/runner/checker.go:723-785 | T ACCEPT votes for YES, in any order, make a node store the proposal as its next block |
| Rounds.YesRoundGivesBlock | lib/node/runner/checker.go:335-785 | T SIGN and then T ACCEPT votes for YES, for any configuration, lead a node that awaits them to its own ACCEPT and to the block |
| Rounds.LastSignSettles | lib/node/runner/checker.go:421-472 | the vote that completes a SIGN round makes the node answer it or leave it |
| Rounds.LastAcceptSettles | lib/node/runner/checker.go:421-447 | the vote that completes an ACCEPT round makes the node store the block or leave the round, by the majority |
| Rounds.NeverStuck | lib/node/runner/checker.go:335-785 | after every regular run no node holds the ACCEPT votes of all validators for its height, and it has answered every round whose SIGN votes it holds from all |
| InitVote.ForeignProposalAnswered | lib/node/runner/checker.go:592-681 | a foreign proposal in an unused slot gets exactly one SIGN vote: YES if and only if it was accepted and is of the selected proposer, NO otherwise, none if the checks stopped |
| InitVote.OwnProposalAnswered | lib/node/runner/checker.go:592-598 | an own proposal is answered with YES |
| InitVote.SignYesIsGrounded | lib/node/runner/checker.go:592-672 | over any run every SIGN YES of a node answers an own proposal or an accepted one of the selected proposer |
| InitVote.JudgedIff | lib/node/runner/checker.go:101-166 | the checks accept a proposal if and only if its proposer transaction is well-formed, its amounts are expected and its transactions are acceptable |
| InitVote.SignYesWasDeserved | lib/node/runner/checker.go:581-672 | over any run judged by the checks, every SIGN YES is for an own proposal or for one of the selected proposer that was acceptable by what the node knew |
| InitVote.VoteIsVerdict | lib/node/runner/checker.go:592-672 | a foreign proposal of the selected proposer gets YES if and only if it is acceptable, and NO if and only if the transaction checks refuse it |
| InitVote.StoredTransactionIsRefused | lib/node/runner/checker_ballot_transaction.go:66-87 | a well-formed proposal with a stored transaction gets NO |
| SingleVoting.IsLaterIsStrictTotalOrder | lib/consensus/isaac_state.go:17-25 | `IsLater` is irreflexive, transitive and total |
| SingleVoting.StepMovesForward | lib/node/runner/isaac_state_manager.go:146-252 | every event leaves the manager's state or makes it strictly later |
| SingleVoting.ManagerNeverGoesBack | lib/node/runner/isaac_state_manager.go:146-252 | over any run the manager's state is unchanged or strictly later |
| SingleVoting.StepOnce | lib/consensus/ballot_send_record.go:29-69 | every event keeps the link between send record and broadcast ballots |
| SingleVoting.NodeVotesOnce | lib/node/runner/node_runner.go:741-773 | over any run in which own ballots arrive at their height, a second ballot for one (height, round, state) is an EXP renewal |
| SingleVoting.OwnBallotVotesOnceIff | lib/node/runner/checker.go:335-720 | an own ballot of any state and height keeps single voting if and only if what it casts goes to a slot that is recorded or unused |
| SingleVoting.SingleVotingIff | lib/node/runner/node_runner.go:741-773 | over any run, late own ballots and renewals included, a node votes once per slot if and only if every own ballot is harmless in that sense |
| StaleOwnBallot.StaleProposalBreaksSingleVoting | lib/node/runner/checker.go:316-332 | a concrete run: an own proposal that returns after a block makes the node vote EXP and then YES in one slot |
| StaleVote.StaleVoteBreaksAgreement | lib/node/runner/checker.go:316-332 | a concrete run of two validators, with no renewal, no sync and one own ballot one height late, that ends with different blocks at one height |
| StaleVote.PairAgreesIff | lib/node/runner/checker.go:316-332 | for two validators with T = 2, all runs with own ballots at most d heights late agree if and only if d is zero |
| LateVote.LateVoteDecidesIff | lib/consensus/round_vote.go:93-119 | an own vote of a lower height decides its round if and only if it is an EXP and T = V |
| LateVote.LateVoteIsHarmless | lib/node/runner/checker.go:335-472 | after any run with T < V, a late own SIGN or ACCEPT vote is recorded and nothing else of the node changes |
| StaleVote.BothVote | lib/node/runner/checker.go:649-720 | a proposal and all SIGN votes lead both nodes to their ACCEPT votes, from any ready state |
| StaleVote.Stores | lib/node/runner/checker.go:723-785 | all ACCEPT votes lead a node to store, from any state in which the basis is valid |
| NodeRunner.Runner.BroadcastBallot | lib/node/runner/node_runner.go:741-773 | sends at most once per slot, as the abstract step |
| NodeRunner.Runner.ProposeNewBallot | lib/node/runner/isaac_state_manager.go:292-310 | proposes exactly if selected, as the abstract step |
| NodeRunner.Runner.TransitIsaacState | lib/node/runner/isaac_state_manager.go:146-174 | moves only to a later state, as the abstract step |
| NodeRunner.Runner.GoToNextRound | lib/node/runner/isaac_state_manager.go:176-181 | the round after the latest voting basis |
| NodeRunner.Runner.RemoveRunningRoundsLowerOrEqualBasis | lib/consensus/isaac.go:369-386 | removing the nested rounds is dropping exactly the votes at or below the basis |
| NodeRunner.Runner.RemoveLowerOrEqualHeight | lib/consensus/isaac.go:355-367 | removing nested rounds and send records is dropping exactly those at or below the height |
| NodeRunner.Runner.RemoveSendRecordsLowerThanOrEqualHeight | lib/consensus/ballot_send_record.go:57-69 | the loop deletes exactly the records at or below the height |
| NodeRunner.Runner.BallotRenewal | lib/node/runner/checker.go:389-418 | the loop and the EXP ballot are the abstract step, of which Handlers.RenewLeaves says what it drops and sends |
| NodeRunner.Runner.LeaveRound | lib/node/runner/checker.go:449-472 | leaves a round as the abstract step |
| NodeRunner.Runner.Vote | lib/node/runner/checker.go:347-354 | voting in the nested rounds records exactly that vote of the abstract validator |
| NodeRunner.Runner.IsVoted | lib/node/runner/checker.go:335-342 | looks the voter up in the nested rounds |
| NodeRunner.Runner.VotingResult | lib/consensus/isaac.go:285-316 | the counting loop over the nested votes gives the verdict on the abstract ones |
| NodeRunner.Runner.RecordAhead | lib/node/runner/checker.go:209-229 | a vote of a height not reached yet is recorded once |
| NodeRunner.Runner.HandleInitBallot | lib/node/runner/checker.go:592-681 | the INIT chain is the abstract step, of which InitVote.VoteIsVerdict says which vote it sends |
| NodeRunner.Runner.HandleSignBallot | lib/node/runner/checker.go:335-472 | the SIGN chain is the abstract step, of which Handlers.SignLeaves says what it leaves |
| NodeRunner.Runner.HandleAcceptBallot | lib/node/runner/checker.go:723-759 | the ACCEPT chain is the abstract step, of which Handlers.AcceptLeaves says what it leaves |
| NodeRunner.Runner.StoreBlock | lib/node/runner/checker.go:761-807 | stores only on the latest block, as the abstract step |
| NodeRunner.Runner.HandleBallotMessage | lib/node/runner/node_runner.go:518-576 | the whole dispatch is the abstract step |
| NodeRunner.Runner.OnTimeout | lib/node/runner/isaac_state_manager.go:199-274 | the timer case is the abstract step, of which Handlers.TimerLeaves says what it leaves |
| RunningRounds.IndexIsInjective | lib/voting/basis.go:13-15 | different (height, round) have different index strings |
| RunningRounds.RoundVoteRecords | lib/consensus/round_vote.go:17-68 | a vote is recorded under its own state only, in old and in new round votes |
| RunningRounds.VotedWellIndexed | lib/consensus/isaac.go:214-242 | a vote leaves every round under the index of its own basis and with its selected proposer |
| RunningRounds.VotedHolds | lib/consensus/running_round.go:21-71 | voting in the nested maps records exactly that vote and no other |
| RunningRounds.VotedRound | lib/consensus/running_round.go:21-71 | a vote joins the ballots of its round, which keeps its basis and proposer; other rounds and proposers are untouched |
| RunningRounds.DroppedHolds | lib/consensus/isaac.go:369-386 | removal by basis deletes the votes of exactly the rounds at or below it |
| RunningRounds.DroppedHeightHolds | lib/consensus/isaac.go:355-367 | removal by height deletes the votes of exactly the rounds at or below it |
| RunningRounds.DropsExactly | lib/consensus/isaac.go:369-386 | after removal by basis a vote is found if and only if it was found and its round is later |
| RunningRounds.DropsExactlyHeight | lib/consensus/isaac.go:355-367 | after removal by height a vote is found if and only if it was found and its height is greater |
| RunningRounds.PrunedHolds | lib/consensus/isaac.go:248-283 | removing old ballots drops exactly the out-of-date votes of one proposer and state |
| RunningRounds.ResultsAreEqual | lib/consensus/isaac.go:285-316 | the verdict on the nested votes is the verdict on the flat ones |
| RunningRounds.ISAAC.CanGetVotingResult | lib/consensus/round_vote.go:70-115 | counts the nested votes by the loop and gives the verdict that Voting.VerdictIff characterises, with the cases of a missing round or proposer |
| RunningRounds.ISAAC.RemoveOldBallots | lib/consensus/isaac.go:248-283 | the loop deletes exactly the out-of-date votes and reports whether the own one was among them |
| RunningRounds.ISAAC.HasSameProposer | lib/consensus/isaac.go:341-349 | compares with the proposer selected for the round |
| RunningRounds.ISAAC.IsVoted | lib/consensus/isaac.go:201-212 | says whether the nested maps hold a vote at the ballot's place |
| RunningRounds.ISAAC.Vote | lib/consensus/isaac.go:214-242 | adds the vote, opening the round or the proposer's votes if new, and keeps the index |
| RunningRounds.ISAAC.RemoveRunningRoundsLowerOrEqualHeight | lib/consensus/isaac.go:355-367 | the deletion loop removes exactly the lower or equal heights |
| RunningRounds.ISAAC.RemoveRunningRoundsLowerOrEqualBasis | lib/consensus/isaac.go:369-386 | the deletion loop removes exactly the lower or equal rounds |
| Amounts.AddExactIff | lib/common/amount.go:78-85 | an addition is exact or an error if and only if the integer sum is below 2^64 |
| Amounts.AddWraps | lib/common/amount.go:78-85 | two full balances add up to a smaller one without an error |
| Amounts.SubIsExact | lib/common/amount.go:89-110 | a subtraction is exact or an error; a sum below 2^64 that must succeed is exact or a panic |
| Amounts.MultIsExact | lib/common/amount.go:136-147 | a multiplication is exact or an error, never wrapped |
| Operations.ComputeTotalAmount | lib/transaction/transaction.go:162-177 | the loop computes the 64-bit total, panics included |
| Operations.TotalAmountExactIff | lib/transaction/transaction.go:162-177 | the 64-bit total is the integer total if and only if that is at most the ceiling |
| FinishBallot.AccountStore.CreditAccount | lib/node/runner/finish_ballot.go:230-243 | credits an existing account or changes nothing |
| FinishBallot.AccountStore.FinishOperation | lib/node/runner/finish_ballot.go:162-270 | one operation, with its errors |
| FinishBallot.AccountStore.FinishTransaction | lib/node/runner/finish_ballot.go:134-155 | operations first, then debit and sequence id of the source |
| FinishBallot.CreditsComeFirst | lib/node/runner/finish_ballot.go:134-155 | an account that can pay only from what its own transaction mints: the operations are applied before the debit |
| FinishBallot.CreditNeedsAccount | lib/node/runner/finish_ballot.go:198-270 | without the account, a funding of zero does nothing and every other funding, payment or creation fails |
| ClosedForm.OpsFlow | lib/node/runner/finish_ballot.go:134-139 | covered operations all succeed, credit their targets exactly and touch nothing else |
| ClosedForm.TxFlow | lib/node/runner/finish_ballot.go:134-155 | a covered transaction succeeds with its closed-form effect and loses exactly its fee from the supply |
| ClosedForm.BlockFlow | lib/node/runner/finish_ballot.go:128-159 | a ready block succeeds and every account ends at the closed form of balance, sequence id and link |
| ClosedForm.ClosedFormUnique | lib/node/runner/finish_ballot.go:128-159 | the closed form determines all accounts, whatever the order |
| ClosedForm.AppliedCreatesOnce | lib/node/runner/finish_ballot.go:204-210 | an applied block creates no account twice and none that existed |
| ClosedForm.BlockSucceedsIff | lib/node/runner/finish_ballot.go:128-159 | a ready block succeeds if and only if it creates no account twice |
| ClosedForm.OrderDoesNotMatter | lib/node/runner/finish_ballot.go:128-159 | any permutation of a ready block leaves the same accounts |
| Conservation.TxsConserve | lib/node/runner/finish_ballot.go:128-159 | transactions take the fees out of the supply and add the minting, for any mix of operations |
| Conservation.BlockConserves | lib/node/runner/finish_ballot.go:128-352 | a finished block changes the sum of balances by exactly inflation plus public funding |
| Conservation.SupplyKeepsBlockExact | lib/common/amount.go:78-110 | a supply plus minting under the ceiling makes every step of a block succeed with no sum reaching 2^64 |
| Validation.ValidateOpsIff | lib/node/runner/checker_ballot_transaction.go:265-269 | the operations pass if and only if each of them does; Validation.ValidateOpIff says when one does |
| Validation.FundingVotedIff | lib/node/runner/checker_ballot_transaction.go:362-458 | a public funding is voted if and only if it refers to a stored result that refers to a stored vote for exactly that account and amount |
| Validation.ValidateOpIff | lib/node/runner/checker_ballot_transaction.go:287-495 | every kind of operation passes if and only if accounts, source, stored votes and recorded operations allow it |
| Validation.ValidateTxIff | lib/node/runner/checker_ballot_transaction.go:238-272 | a transaction passes if and only if its source exists, version and sequence id are current, the balance covers the 64-bit total and every operation is allowed |
| Validation.FundingErrors | lib/node/runner/checker_ballot_transaction.go:362-458 | which error a funding with no reference, another amount or another account gets |
| Validation.OperationLimits | lib/transaction/checker.go:70-96 | the least and greatest amounts of payments and creations, and what counts as a repetition |
| Validation.CheckOperations | lib/transaction/checker.go:70-96 | the loop accepts if and only if no operation pays its source, is malformed or repeats a kind and target |
| ValidBlock.PassedIsCovered | lib/node/runner/checker_ballot_transaction.go:238-360 | a passed transaction finds its targets, creates only new accounts, and is covered if its total is exact |
| ValidBlock.PassedTxExactIff | lib/node/runner/checker_ballot_transaction.go:257-263 | a passed transaction is applied and does what its amounts say if and only if its integer total is at most the ceiling |
| ValidBlock.PassedBlockExactIff | lib/node/runner/finish_ballot.go:128-159 | a block of passed transactions of different sources does so if and only if no account is created twice and every total is at most the ceiling |
| ValidBlock.PassedBlockApplies | lib/node/runner/checker_ballot_transaction.go:134-164 | under the second condition it succeeds if and only if the first holds, and then in closed form and in any order |
| ValidBlock.PassedBlockConserves | lib/node/runner/finish_ballot.go:128-352 | under both conditions a block with its fees and inflation neither errs nor wraps, and conserves the supply |
| ValidBlock.WrappingIsApplied | lib/transaction/transaction.go:162-177 | three payments past 2^64 pass, are applied in full, and raise the sum of balances by 2^64 less the fee |
| ValidBlock.TwoCreationsFail | lib/node/runner/finish_ballot.go:204-210 | two passed transactions that create one account make their block fail |
| BallotBlock.FeesWithinSupply | lib/node/runner/checker_ballot_transaction.go:257-263 | the fees of a passed block sum to at most the supply |
| BallotBlock.YesCollectsFees | lib/node/runner/checker_ballot_transaction.go:169-204 | a ballot of passed transactions that got YES collects exactly the integer sum of their fees |
| BallotBlock.YesBlockConserves | lib/node/runner/finish_ballot.go:55-109 | such a ballot, with expected amounts, makes a block that adds exactly inflation and public funding to the supply |
| BallotBlock.FinishBook | lib/node/runner/finish_ballot.go:55-109 | storing a ballot does to the accounts what its block does |
| BallotBlock.SoundFinishConserves | lib/node/runner/finish_ballot.go:55-109 | a stored ballot that got YES adds exactly what it mints to the sum of all balances |
| BallotBlock.SupplyOverRun | lib/node/runner/finish_ballot.go:15-109 | over any run of such or refused ballots the sum of all balances is the old sum plus what was minted |
| BallotBlock.SupplyIsGranted | lib/node/runner/finish_ballot.go:15-109 | over such a run the sum of all balances grows by nothing but inflation and the funding that stored votes back |
| Chain.Latest | lib/block/block.go:232-243 | the found block is stored and none has a later (time, height) |
| Chain.FinishNeedsTop | lib/node/runner/checker.go:787-807 | a ballot is only ever stored on the highest block, and links to it |
| Chain.AddBlockIff | lib/block/block.go:77-103 | a block is added if and only if the ballot names the latest block and its own hash and height are free |
| Chain.LastOneWins | lib/node/runner/finish_ballot.go:288-310 | of several fee or inflation operations of a proposer transaction the last counts |
| Chain.ApplyAllKeeps | lib/block/transaction.go:106-140 | transactions keep hashes unique and sequence ids counted |
| Chain.FinishKeeps | lib/node/runner/finish_ballot.go:55-109 | a finished ballot keeps the chain invariant and adds exactly its block; ChainRecords.FinishSound says what that block lists |
| Chain.ChainInvariant | lib/node/runner/finish_ballot.go:15-109 | over any run of ballots: contiguous heights, linked hashes, no transaction twice, sequence ids count applied transactions |
| Chain.GenesisOk | lib/block/genesis.go:34-120 | a genesis state satisfies the chain invariant |
| Chain.LatestIsTopIff | lib/block/block.go:232-243 | the latest block is the highest if and only if no block has a later time |
| Chain.GrowsIff | lib/block/block.go:77-103 | some ballot can be stored if and only if the highest block has the latest proposed time |
| Chain.EarlierTimeStops | lib/block/block.go:68-103 | once a block has an earlier time than one below it, no run changes the chain |
| Chain.ChainStopsAtTwo | lib/block/block.go:68-103 | from a genesis state, a second block with an earlier time stops the chain whatever follows |
| Chain.SequenceIdsHaveNoGaps | lib/node/runner/checker_ballot_transaction.go:251-255 | the applied transactions of every account carry 0, 1, 2, ... in order |
| Chain.Store.FinishTransaction | lib/node/runner/finish_ballot.go:129-155 | one turn of the loop, with the stored record |
| Chain.Store.FinishTransactions | lib/node/runner/finish_ballot.go:128-159 | the loop over the transactions of a block |
| Chain.Store.FinishProposerTransaction | lib/node/runner/finish_ballot.go:272-352 | collects the fees, mints the inflation and stores the transaction |
| Chain.Store.SaveNextBlock | lib/node/runner/finish_ballot.go:55-83 | checks the round and saves the block, refusing a taken hash or height; Chain.AddBlockIff says when, ChainRecords.RunSound what the block holds |
| Chain.Store.FinishBallotWithProposedTxs | lib/node/runner/finish_ballot.go:55-109 | stores the block and applies it, with every error case |
| Chain.Store.FinishBallot | lib/node/runner/finish_ballot.go:15-53 | on an error the store is as before |
| ChainRecords.FinishRecords | lib/node/runner/finish_ballot.go:76-109 | a finished ballot stores exactly its transactions, in order, and then its proposer transaction |
| ChainRecords.FinishSound | lib/node/runner/finish_ballot.go:55-109 | it keeps blocks and records in step: each block above genesis lists the transactions stored at its height, in order, and carries round, proposer, time and hashes of its ballot |
| ChainRecords.RunSound | lib/node/runner/finish_ballot.go:15-109 | over any run of ballots, finished or refused, the same holds of every height, records are never rewritten, and every new block is that of a ballot of the run |
| ChainRecords.TotalsOverRun | lib/block/block.go:38-49 | over any run whose ballots carry the totals of the top block, every block counts the transactions and operations stored up to its height |
| ChainRecords.GenesisIsSound | lib/block/genesis.go:47-131 | the genesis block, its transaction and its two accounts satisfy all of this |
| ChainRecords.ChainFromGenesis | lib/node/runner/finish_ballot.go:15-109 | from the genesis block on, over any run, blocks, records, operation index and totals agree |
| Funding.PassedFundingIsBacked | lib/node/runner/checker_ballot_transaction.go:362-458 | a funding that passes its check comes from the common account and is backed by a stored vote and its stored result |
| Funding.FundingIsBacked | lib/node/runner/checker_ballot_transaction.go:362-458 | over any chain of checked ballots every funding comes from the common account and was backed before its block |
| Funding.MintedIsBacked | lib/node/runner/finish_ballot.go:250-270 | all that a block of such a chain mints beyond inflation is backed by stored votes of those amounts |
| Funding.VotesAreCongress | lib/node/runner/checker_ballot_transaction.go:460-491 | over any such chain every stored vote and result was submitted by the congress account |
| Funding.FundingWasVoted | lib/node/runner/checker_ballot_transaction.go:362-491 | over any such chain no funding without a vote for exactly it and a result, both stored before by the congress account |
| Frozen.FinishExtends | lib/node/runner/finish_ballot.go:198-244 | blocks never remove an account, change a link or rewrite recorded operations |
| Frozen.PassedOpIsSafe | lib/node/runner/checker_ballot_transaction.go:287-361 | a check that passed in one state keeps its meaning for frozen accounts in every later state |
| Frozen.FrozenInBlock | lib/node/runner/checker_ballot_transaction.go:287-361 | one block: a frozen balance never rises and loses exactly its fees before the unfreezing period is over |
| Frozen.FrozenOverChain | lib/node/runner/checker_ballot_transaction.go:287-361 | any number of blocks: the same, the period counting from the first recorded operation, an unfreezing request |
| Frozen.CreationInBlock | lib/node/runner/finish_ballot.go:198-222 | at the end of the block that creates it, an account holds exactly the amount and link of its creation |
| Frozen.FrozenSinceCreation | lib/node/runner/checker_ballot_transaction.go:287-361 | from its creation on a frozen account never holds more than that amount and loses exactly its fees before the period is over |
| Batch.ReadMatchesReplayIff | lib/storage/batch.go:29-51 | a read matches the replay of the log if and only if the key was not last deleted while stored |
| Batch.DeletedKeyIsStillRead | lib/storage/batch.go:106-114 | a deleted stored key is still read |
| Batch.BatchRefinesCopy | lib/storage/leveldb.go:144-247 | any caller gets through the batch the responses of a private copy, and the log leads to that copy |
| Batch.StoreLaws | lib/storage/leveldb.go:144-247 | `New` wants a free key, `Set` a taken one, both are read back, an error changes nothing, other keys are untouched |
| Batch.RunAnswersAll | lib/storage/leveldb.go:144-247 | a run gives one response to each request and keeps the earlier ones |
| Batch.Core.Write | lib/storage/batch.go:92-104 | writing a batch replays its log |
| Batch.BatchCore.Has | lib/storage/batch.go:29-39 | the overlay first, then the store |
| Batch.BatchCore.Get | lib/storage/batch.go:41-51 | the overlay first, then the store |
| Batch.BatchCore.PutValue | lib/storage/batch.go:58-66 | appends to the log and keeps the overlay in step |
| Batch.BatchCore.DeleteKey | lib/storage/batch.go:106-114 | appends to the log and keeps the overlay in step |
| Batch.BatchCore.Discard | lib/storage/batch.go:85-90 | empties the batch and leaves the store alone |
| Batch.BatchCore.Commit | lib/storage/batch.go:92-104 | the store becomes the replay of the log |
| Batch.BatchCore.ServeRequest | lib/storage/leveldb.go:144-247 | `Has`, `Get`, `New` and `Set` with their errors |
| Batch.BatchCore.Execute | lib/storage/leveldb.go:144-247 | any number of requests, each chosen by the responses before |
| Batch.RunInBatch | lib/node/runner/finish_ballot.go:22-50 | responses of a private copy; the store becomes the copy on success and is unchanged on failure |
| Pagination.UnderIs | lib/storage/leveldb.go:301-306 | the keys under a prefix are exactly those that start with it, in order |
| Pagination.ZeroMeansAll | lib/storage/leveldb.go:333-355 | a limit of zero gives all keys, in the asked direction |
| Pagination.Iterator.MoveNext | lib/storage/leveldb.go:333-355 | one call yields the next key ahead, and says whether it belongs to the page |
| Pagination.Iterator.Collect | lib/storage/leveldb.go:291-359 | a page is the first `limit` keys ahead of the cursor |
| Pagination.AheadOfMember | lib/storage/leveldb.go:311-331 | from a key as cursor, exactly the rest lies ahead, in both directions |
| Pagination.PagingIsComplete | lib/storage/leveldb.go:291-359 | following cursors yields every key of the prefix once and in order, every page but the last being full |
| Pagination.CursorIsExactIff | lib/storage/leveldb.go:311-331 | nothing after the cursor is skipped if and only if it is a key, the direction is reverse, or nothing lies after it |
| Pagination.KeyAfterCursorIsSkipped | lib/storage/leveldb.go:325-329 | two keys and a cursor between them: the page is empty |
| Pool.PoolStaysConsistent | lib/transaction/pool.go:67-152 | over any run list, pool and sources agree and no hash is listed twice |
| Pool.InsertionOrder | lib/transaction/pool.go:154-177 | over any run the list is in the order in which its hashes were put in |
| Pool.AddAcceptedIff | lib/transaction/pool.go:67-89 | a transaction is taken if and only if its hash is new and the pool is below a positive limit |
| Pool.LimitHolds | lib/transaction/pool.go:67-101 | over any run whose callers ask for a limit, the pool never holds more |
| Pool.RemoveAllIs | lib/transaction/pool.go:103-126 | removing hashes removes exactly their transactions, and only names of their sources |
| Pool.RemoveSourcesIs | lib/transaction/pool.go:128-152 | removing sources removes exactly the transactions named for them, and those names |
| Pool.SourcesAndPoolInBijection | lib/transaction/pool.go:179-186 | if callers ask `IsSameSource` first, every pooled transaction is the one named for its source |
| Pool.AddKeepsNamesIff | lib/transaction/pool.go:82-83 | an accepted transaction keeps that bijection if and only if its source was not pooled |
| Pool.CarelessCallersLoseNames | lib/transaction/pool.go:103-126 | two transactions of one source: removing one leaves the other without a name |
| Pool.RemoveSourceIsRemoveOne | lib/transaction/pool.go:128-152 | removal by source is removal of the transaction named for it |
| Pool.TransactionPool.AddTransaction | lib/transaction/pool.go:67-89 | adds at the end, or refuses a known hash or a full pool |
| Pool.TransactionPool.RemoveElement | lib/transaction/pool.go:116-119 | unlinking the element of a hash removes exactly that hash from the list |
| Pool.TransactionPool.RemoveTransactions | lib/transaction/pool.go:103-126 | removes the given hashes from all four structures |
| Pool.TransactionPool.RemoveTransactionsOf | lib/transaction/pool.go:128-152 | removes the transactions named for the given sources from all four structures |
| Pool.TransactionPool.AvailableTransactions | lib/transaction/pool.go:154-177 | the first n hashes of the list, none for n < 1 |
| Pool.TransactionPool.IsSameSource | lib/transaction/pool.go:179-186 | whether a transaction is named for the source |
| Proposal.CandidatesAre | lib/node/runner/checker_ballot_transaction.go:66-164 | the candidates are pooled, not stored, of different sources, and within the limit |
| Proposal.NewOnesNext | lib/node/runner/checker_ballot_transaction.go:66-87 | a further hash is kept if and only if it is not stored |
| Proposal.FoundOnesNext | lib/node/runner/checker_ballot_transaction.go:91-108 | a further hash is kept if and only if it is found |
| Proposal.OnePerSourceNext | lib/node/runner/checker_ballot_transaction.go:134-164 | a further transaction is kept if and only if it is found and its source is new |
| Proposal.FirstOfEachSource | lib/node/runner/checker_ballot_transaction.go:134-164 | every source that is found and not yet seen has its first transaction in the result |
| Proposal.PackIs | lib/node/runner/node_runner.go:676-700 | the packed transactions are candidates and stay within the operation limit |
| Proposal.PackIsMaximal | lib/node/runner/node_runner.go:689-699 | whatever the packer leaves out would pass the limit, or has no operations |
| Proposal.PackNext | lib/node/runner/node_runner.go:689-699 | a further transaction is packed if and only if the ballot is not full and it fits |
| Proposal.InitCheckIff | lib/node/runner/checker_ballot_transaction.go:66-217 | the INIT checks give YES if and only if all transactions are new, found, of different sources, within the limit and the fee matches |
| Proposal.FoldIsWrapped | lib/ballot/proposer_transaction.go:38-41 | the proposer's and the checker's sums of fees agree whenever the checker's does not panic |
| Proposal.ProposalGetsYes | lib/node/runner/node_runner.go:634-735 | the ballot of any pool is within the limits and gets YES at every node that finds its transactions, unless the fee sum panics |
| Proposal.ProposeIff | lib/node/runner/node_runner.go:634-735 | a proposal is made if and only if the initial balance is within the ceiling, and then of the picked transactions on the given basis |
| Proposal.PtxIsDetermined | lib/ballot/proposer_transaction.go:124-188 | up to the end of inflation, a ballot that passes all checks holds exactly the proposer transaction an honest proposer makes, up to the order of its two operations |
| Proposal.ProposalIsWellFormedIff | lib/ballot/proposer_transaction.go:124-188 | its proposer transaction is well-formed if and only if proposer and configuration allow one |
| Proposal.ProposalIsExpectedIff | lib/node/runner/checker.go:101-166 | its amounts are the expected ones if and only if inflation has not ended or is zero |
| Proposal.CostlyProposalPanics | lib/node/runner/checker_ballot_transaction.go:185-196 | two pooled transactions with fees of 9 * 10^18 make every checker of their ballot panic |
| Proposal.LateProposalIsRefused | lib/node/runner/checker.go:152-163 | one block past the end of inflation a well-formed, acceptable ballot has an unexpected amount |
| BallotTransactions.BallotTransactionChecker.SetValidTransactions | lib/node/runner/checker_ballot_transaction.go:53-62 | list and map hold the same hashes |
| BallotTransactions.BallotTransactionChecker.IsNew | lib/node/runner/checker_ballot_transaction.go:66-87 | keeps the hashes that are not stored, or gives up on the first stored one |
| BallotTransactions.BallotTransactionChecker.CheckMissingTransaction | lib/node/runner/checker_ballot_transaction.go:91-108 | keeps the hashes that are found |
| BallotTransactions.BallotTransactionChecker.OperationLimit | lib/node/runner/checker_ballot_transaction.go:112-130 | fails if and only if some prefix passes the limit |
| BallotTransactions.BallotTransactionChecker.SameSource | lib/node/runner/checker_ballot_transaction.go:134-164 | keeps the first of each source, or gives up on a second one |
| BallotTransactions.BallotTransactionChecker.CollectTxFee | lib/node/runner/checker_ballot_transaction.go:169-204 | passes if and only if the collected fee is the sum of the fees, and panics with the sum |
| BallotTransactions.BallotTransactionChecker.RunInitChecks | lib/node/runner/checker.go:581-646 | the chain in order gives the verdict of the INIT check |
| BallotTransactions.PackTransactions | lib/node/runner/node_runner.go:676-700 | the packing loop is first fit with an early end |
| BallotTransactions.SumFees | lib/ballot/proposer_transaction.go:38-41 | the 64-bit sum of the fees |
| BallotTransactions.ProposeNewBallot | lib/node/runner/node_runner.go:634-735 | returns the proposal and removes exactly the refused candidates from the pool |
| BallotTransactions.InvalidIs | lib/node/runner/checker_ballot_transaction.go:37-47 | what is taken out of the pool is exactly what was available and is no candidate |
| BlockTime.BufferFillsBlock | lib/node/runner/isaac_state_manager.go:118-138 | elapsed time plus buffer is the time aimed at, and moves the drift by the recurrence |
| BlockTime.BlockTimeInRange | lib/node/runner/isaac_state_manager.go:123-129 | the time aimed at is within delta of the goal |
| BlockTime.DriftShrinks | lib/node/runner/isaac_state_manager.go:118-138 | with a 5 s goal the drift shrinks by delta each block until zero and keeps its sign |
| BlockTime.ConvergesInExactly | lib/node/runner/isaac_state_manager.go:118-138 | the drift is zero from block ceil(drift/delta) on and not before |
| BlockTime.ConvergesIff | lib/node/runner/isaac_state_manager.go:121-124 | the drift vanishes from every start if and only if 5 s lie strictly within delta of the goal |
| BlockTime.SixSecondsNeverCatchUp | lib/node/runner/isaac_state_manager.go:121-124 | with a goal of 6 s and a delta of 1 s a nanosecond of drift never vanishes |
| Sync.SchedulingIsSafe | lib/sync/syncer.go:135-222 | over any interleaving: current at most highest, no height handed twice, every height up to current handed or stored |
| Sync.CurrentNeverDecreases | lib/sync/syncer.go:148-222 | the current height never decreases along a run |
| Sync.RoomMeansDone | lib/sync/syncer.go:209-218 | a pool with room takes everything up to the target in one call |
| Sync.Syncer.SyncOnce | lib/sync/syncer.go:188-222 | the loop hands over exactly the scheduled heights |
| Sync.HandsOverExactly | lib/sync/syncer.go:188-222 | one call hands over consecutive heights from the first one neither handed nor stored, as many as the pool takes, and moves the progress accordingly |
| Sync.Syncer.SetTarget | lib/sync/syncer.go:158-166 | a target at or below the current height changes nothing |
| Sync.TargetSets | lib/sync/syncer.go:158-166 | a target above the current height becomes the highest one, even below the last target; others are ignored |
| Rlp.SizeofSize | lib/common/hash.go:51-57 | the shifting loop returns the least number of bytes |
| Rlp.PutInt | lib/common/hash.go:76-112 | every case writes the big-endian bytes |
| Rlp.NumberOfBigEndian | lib/common/hash.go:76-112 | the bytes read back to the number, with no leading zero above 0 |
| Rlp.LengthOfBigEndian | lib/common/hash.go:51-57 | at most k bytes if and only if the number is below 256^k |
| Rlp.PutListLength | lib/common/hash.go:61-73 | writes the list header |
| Rlp.HeaderRoundTrip | lib/common/hash.go:61-73 | decoding a header followed by any bytes gives back length and bytes |
| Rlp.DecodedIsHeader | lib/common/hash.go:61-73 | whatever decodes is the header of its length, so no other bytes do |
| Rlp.HeadersAreUnambiguous | lib/common/hash.go:61-73 | no header begins another one, and different lengths have different headers |

## Left out

- Agreement.ChainsAgree: for runs with no renewal, failed save or sync catch-up, and with own ballots that arrive at the height they were sent for; StaleVote.PairAgreesIff shows that the last condition is needed, and exact for two validators; LateVote.LateVoteIsHarmless that with T < V only late own proposals can matter.
- Agreement.StoredRoundIsNeverLeft: the same runs as Agreement.ChainsAgree.
- Agreement.StoredBlockWasProposed: the same runs as Agreement.ChainsAgree.
- SingleVoting.NodeVotesOnce: for runs in which own ballots arrive at the height they were sent for; SingleVoting.SingleVotingIff covers all other runs.
- ValidBlock.PassedBlockApplies: closed form and order independence where the totals fit; ValidBlock.PassedBlockExactIff says that they are lost otherwise.
- Validation.CheckOperations: says whether the operations are refused, not with which error.
- Validation.ValidateOpIff: says whether an operation passes; of the errors only those of a funding are stated, by Validation.FundingErrors.
- NodeRunner.Runner.BallotRenewal: which votes are out of date is a parameter.
- NodeRunner.Runner.HandleInitBallot: the verdict on a foreign proposal is a parameter of the step; InitVote.SignYesWasDeserved and InitVote.VoteIsVerdict put in the verdict of the checks.
- InitVote.JudgedIff: a panic in a check ends the handler; that it may end the program is not modelled.
- NodeRunner.Runner.HandleBallotMessage: of the sync catch-up only the recording of votes.
- Chain.GenesisOk: for any state that looks like a genesis state; ChainRecords.GenesisIsSound constructs the one of the program.
- ChainRecords.TotalsOverRun: for ballots that carry the totals of the top block, as proposers write them; no check compares them.
- Rounds.YesRoundGivesBlock: for votes that arrive with no renewal between them.
- Rounds.NeverStuck: the same runs as Agreement.ChainsAgree; that votes arrive at all is not claimed.
- Funding.FundingWasVoted: one stored vote may back several fundings, since the program does not mark it as used; proposer transactions hold only their two operations, as their check demands.
- Handlers.StaleVoteIsRenewed: for votes of other validators on a valid basis.
- Chain.Store.FinishBallot: works on a copy; that a batch is as good as one is Batch.RunInBatch, and the encoding of the state as keys and values between the two is not modelled.
- StaleVote.PairAgreesIff: for two validators with T = 2; which other configurations disagree over late own proposals is not settled.
- RunningRounds.ISAAC.RemoveOldBallots: which votes are out of date is a parameter.
- Chain.ChainInvariant: heights and totals are unbounded integers, so 2^64 blocks are not modelled.
- Batch.BatchRefinesCopy: callers that delete are covered by Batch.ReadMatchesReplayIff only.
- Interleavings inside a handler: the program passes state changes to the manager asynchronously; the model changes the state within the step.
- Signatures, double SHA-256, base58, JSON and generic RLP: hashes are parameters and signatures always verify.
- The rounding of `Threshold` and `CalculateInflation` and the format of the inflation ratio: taken as parameters.
- Wall-clock checks, NTP, and the removal of old ballots by time: which votes are out of date is a parameter.
- Block fetching and the catch-up of `BallotCheckSYNC` beyond the recording of votes.
- `BatchCore.Write`, `News`, `Sets`, iteration through a batch, and the state database.
- Secondary indexes of blocks, accounts and transactions (by creation time, by peer, by account).
- The base-fee check, and the API, network and discovery layers: only easy members.
