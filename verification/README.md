# DAO governance engine — a Dafny model

This project models the governance engine of a token-weighted DAO, together
with the two ERC-20 ledgers it works with.

- Investors hold the governance `Token`. Anyone with a non-zero balance may
  create a proposal to pay some `CustomToken`s from the DAO's treasury to a
  recipient, vote on proposals, and finalize them.
- A vote adds the voter's current balance to the proposal's `upvotes` or
  `downvotes`. Each voter votes once per proposal, in one direction.
- A proposal can be finalized once its up-vote weight strictly exceeds the
  quorum fixed at deployment. Finalizing pays its amount out of the treasury.
  The treasury is the DAO's own `CustomToken` balance.
- `CustomToken` starts with 1,000,000 whole tokens (18 decimals) credited to
  its owner. Only the owner may mint and burn.

The Solidity contracts are not part of this model. Their behaviour is taken
from the executable scenarios in `test/DAO.js` and `test/CustomToken.js`.
The front end in `src/components/App.js` and `Proposals.js` corroborates it.

Layout:

- `results.dfy`: `Result` and `Outcome`. A reverted call is an error value, and the state is left as it was.
- `ledger.dfy`: balance maps as values. Credit, debit, move, transfer and burn; the total supply and the lemmas that each operation changes it by exactly its amount.
- `erc20.dfy`: classes `Token` (governance) and `CustomToken`. Each keeps a balance map that its methods update in place.
- `governance.dfy`: the engine as a pure state machine. `Chain` is the DAO's storage plus both ledgers. It defines `CreateProposal`, `CastVote`, `FinalizeProposal`, and `Run` for any sequence of calls.
- `governance_proofs.dfy`: what the engine guarantees, for one call and for any run.
- `dao.dfy`: class `DAO`. Its storage is updated in place, and each method is proved to match the pure operation.
- `dao_scenarios.dfy` and `custom_token_scenarios.dfy`: the two test suites replayed on the objects. Each postcondition is the test's expectation, with three exceptions the model adds beyond the suites. The repeat-vote checks in `UpvotingTest` and `DownvotingTest` (`again`, and `switched` in `DownvotingTest`) state the intended one-vote-per-investor rule; the suite's own cases named for it (test/DAO.js:180-182 and 219-221) cast investor1's first vote, with no earlier vote in their setup, and so never exercise it. `CompetingProposalsTest` is a whole scenario the suites do not have: two proposals finalized against one treasury, showing that finalization checks the treasury again.

Where the tests observe the interface, the model follows them:

- Voting is two operations, `upvote` and `downvote`, and the `Vote` event carries only `(id, voter)`.
- A proposal record has no `creator` field. The creator appears only in the `Propose` event.

Rejections come in these kinds:

- `NotInvestor`
- `InsufficientTreasury`
- `NotFound`
- `AlreadyFinalized`
- `AlreadyVoted`
- `QuorumNotMet`

The guards are checked in this order:

- createProposal: investor, then treasury.
- upvote and downvote: the proposal exists, it is open, the caller is an investor, the caller has not voted.
- finalizeProposal: the proposal exists, it is open, the caller is an investor, the quorum is strictly exceeded, the treasury covers the amount.

## Model

| member | source | states |
|---|---|---|
| Ledger.Credit | test/CustomToken.js:27-29 | the credited holder gains exactly `n`; every other balance is unchanged |
| Ledger.Debit | test/CustomToken.js:31-32 | the debited holder loses exactly `n`; every other balance is unchanged |
| Ledger.Move | test/DAO.js:72-83 | the sender loses and the receiver gains exactly `n` (nothing changes when they are the same); all others unchanged |
| Ledger.Transfer | test/DAO.js:40-63 | a transfer succeeds exactly when the sender holds the amount; then the sender loses and the receiver gains exactly it (nothing changes on a self-transfer), every other balance and the total supply are unchanged |
| Ledger.Burn | test/CustomToken.js:31-32 | a burn succeeds exactly when the holder has the amount; the holder and the total supply both drop by exactly that amount, and every other balance is unchanged |
| Ledger.CreditAddsToTotal | test/CustomToken.js:27-29 | minting `n` raises the total supply by exactly `n` |
| Ledger.MoveKeepsTotal | test/DAO.js:258-262 | moving value between holders leaves the total supply unchanged |
| Erc20.Token.constructor | test/DAO.js:34-35 | the whole supply starts with the deployer, so the total equals the supply |
| Erc20.Token.Transfer | test/DAO.js:40-63 | the balances are moved when the sender can pay, else left alone with InsufficientBalance; supply preserved |
| Erc20.CustomToken.constructor | test/CustomToken.js:19-25 | name "CustomToken", symbol "CTK", 1,000,000e18 credited to the owner and to no one else |
| Erc20.CustomToken.Transfer | test/DAO.js:72-75 | the same transfer rule, used to fund the DAO's treasury |
| Erc20.CustomToken.Mint | test/CustomToken.js:27-40 | succeeds iff the caller is the owner; then credits exactly `amount`, else NotOwner with every balance unchanged |
| Erc20.CustomToken.Burn | test/CustomToken.js:31-40 | succeeds iff the owner calls and the holder has the amount; debits exactly it, else every balance unchanged |
| Governance.Deploy | test/DAO.js:65-70 | a fresh DAO (no proposals, no votes) satisfies the storage invariant |
| Governance.CreateProposal | test/DAO.js:102-148 | succeeds iff the caller is an investor and the amount is at most the treasury; a success raises the count by one and touches neither ledger (full effect: `CreateProposalOutcome`) |
| Governance.CastVote | test/DAO.js:152-228 | a success needs an investor voting on an existing open proposal they had not voted on, records their vote and touches neither ledger (full effect: `CastVoteOutcome`) |
| Governance.FinalizeProposal | test/DAO.js:230-302 | a success needs an open proposal, an investor caller, `upvotes > quorum` and a treasury that covers the amount, and leaves the proposal finalized (full effect: `FinalizeProposalOutcome`) |
| GovernanceProofs.CreateProposalOutcome | test/DAO.js:102-148 | succeeds iff the caller is an investor and the amount is at most the treasury; stores the new record under `count + 1`, a previously unused id; emits Propose |
| GovernanceProofs.CastVoteOutcome | test/DAO.js:152-228 | succeeds iff the proposal exists, is open, and the caller is an investor who has not voted; adds the caller's current weight to one tally; everything else unchanged |
| GovernanceProofs.VoteOnlyOnce | src/components/App.js:83-92 | after a successful vote, a second vote by the same voter on the same proposal fails with AlreadyVoted in either direction |
| GovernanceProofs.FinalizeProposalOutcome | test/DAO.js:230-302 | succeeds iff the proposal exists, is open, the caller is an investor, `upvotes > quorum` and the treasury covers the amount; sets `finalized`, moves exactly the amount to the recipient, keeps the total supply |
| GovernanceProofs.FinalizedIsTerminal | test/DAO.js:294-302 | on a finalized proposal every vote and every finalization fails with AlreadyFinalized |
| GovernanceProofs.StepPreserves | test/DAO.js:93-95 | a successful call keeps the storage invariant, the DAO's address, the quorum, the governance ledger and the CustomToken supply |
| GovernanceProofs.RunPreserves | test/DAO.js:93-95 | the same holds across any sequence of calls; in particular the quorum is the deployed value |
| GovernanceProofs.RunNumbersProposals | scripts/seed.js:63-93 | the Propose events of any run carry ids count+1, count+2, … in order, with no gap and no repeat |
| GovernanceProofs.RunVotesOnce | src/components/App.js:83-92 | a voter's Vote events on a proposal are exactly the vote flag the run adds (0 or 1) |
| GovernanceProofs.SingleVoteFromDeployment | test/DAO.js:219-222 | from deployment, no run emits two votes by one voter on one proposal |
| GovernanceProofs.RunTally | test/DAO.js:163-171 | a tally grows by exactly the summed governance balances of the voters the run adds in that direction |
| GovernanceProofs.TallyFromDeployment | test/DAO.js:202-210 | from deployment, each tally equals the summed weight of the voters flagged in that direction |
| GovernanceProofs.RunFrozen | test/DAO.js:294-302 | once finalized, a proposal's record never changes, and no later Vote or Finalize event names it |
| DaoContract.DAO.constructor | test/DAO.js:65-95 | the storage is that of a fresh deployment with the given quorum and token references |
| DaoContract.DAO.CreateProposal | test/DAO.js:102-125 | the storage and log change exactly as `CreateProposal` prescribes; returns the new id |
| DaoContract.DAO.Upvote | test/DAO.js:155-177 | the storage and log change exactly as an up-vote prescribes, or not at all |
| DaoContract.DAO.Downvote | test/DAO.js:194-216 | the storage and log change exactly as a down-vote prescribes, or not at all |
| DaoContract.DAO.Cast | test/DAO.js:152-228 | the body shared by upvote and downvote: storage and log change exactly as `CastVote` prescribes for the given direction, or not at all |
| DaoContract.DAO.FinalizeProposal | test/DAO.js:233-266 | storage, CustomToken balances and log change exactly as `FinalizeProposal` prescribes, or not at all |
| DaoScenarios.DeployFixture | test/DAO.js:22-76 | five investors hold 200,000e18 each, the DAO is fresh with quorum 500000e18+1, and the treasury holds 1,000,000e18 |
| DaoScenarios.Hand200k | test/DAO.js:40-63 | one fixture transfer: the deployer loses and the investor gains exactly 200,000e18, every other balance unchanged |
| DaoScenarios.DeploymentTest | test/DAO.js:78-96 | the treasury is 1,000,000e18; the quorum is the deployed value; the token references are the deployed ones |
| DaoScenarios.ProposalCreationSuccessTest | test/DAO.js:101-126 | count 1; proposal 1 has id 1, amount 100e18, the recipient and an empty description; one Propose event |
| DaoScenarios.ProposalCreationFailureTest | test/DAO.js:128-149 | 10,000,000e18 is rejected (InsufficientTreasury); a non-investor is rejected (NotInvestor) |
| DaoScenarios.UpvotingTest | test/DAO.js:152-189 | upvotes become 200,000e18 and Vote(1, investor1) is emitted; a non-investor is rejected; the rejected repeat vote (`again`) is the intended rule the model adds, not a check of the suite |
| DaoScenarios.DownvotingTest | test/DAO.js:191-228 | downvotes become 200,000e18; a non-investor is rejected; the rejected repeat vote in either direction (`again`, `switched`) is the intended rule the model adds, not a check of the suite |
| DaoScenarios.BackedProposal | test/DAO.js:234-281 | proposal 1 for `amount` is admitted and two investors up-vote it to 400,000e18: the first steps of the Success setup at test/DAO.js:234-243 (with 102e18) and the whole Failure setup at test/DAO.js:269-280 (with 1,000,000e18) |
| DaoScenarios.UpvoteByThree | test/DAO.js:240-247 | three investors add exactly 600,000e18 to one proposal and record their votes |
| DaoScenarios.GovernanceSuccessTest | test/DAO.js:233-267 | three up-votes pass the quorum; the proposal is finalized, the recipient holds 102e18, Finalize(1) is emitted |
| DaoScenarios.RejectFinalizationFromNonInvestorTest | test/DAO.js:283-288 | a non-investor cannot finalize |
| DaoScenarios.RejectFinalizationBelowQuorumTest | test/DAO.js:290-292 | 400,000e18 of up-votes against quorum 500000e18+1 is rejected with QuorumNotMet |
| DaoScenarios.RejectSecondFinalizationTest | test/DAO.js:294-302 | the first finalization passes; the second fails with AlreadyFinalized |
| DaoScenarios.RejectProposalWhenDrainedTest | test/DAO.js:304-316 | paying a whole-treasury proposal leaves the treasury at 0, after which a 1-token proposal is rejected |
| DaoScenarios.CompetingProposalsTest | test/DAO.js:304-316 | a scenario the model adds, not one of the suite's tests: the treasury is checked again at finalization, so of two 600,000e18 proposals that both pass the vote only the first can be paid |
| CustomTokenScenarios.DeploymentTest | test/CustomToken.js:19-25 | the name is "CustomToken", the symbol "CTK", and the owner holds 1,000,000e18 |
| CustomTokenScenarios.MintAndBurnTest | test/CustomToken.js:27-33 | minting 1000 and then burning 500 leaves 1000 and then 500 |
| CustomTokenScenarios.NonOwnerTest | test/CustomToken.js:35-40 | mint and burn by a non-owner both fail with NotOwner and leave the balances as they were |

## Left out

- The Solidity sources of `DAO`, `Token` and `CustomToken` are not part of this model.
  - The existence check (NotFound) and the closed-proposal check on votes are guards the model adds; the tests never exercise them.
- Erc20.Token.constructor: takes the supply already in base units. The unseen contract is passed `"1000000"` and evidently scales it by 10^18, since the tests then hand out 5 × 200,000e18. The fixture passes `Tokens(1_000_000)`.
- ERC-20 features the tests do not use are not modelled:
  - allowances, `approve` and `transferFrom`;
  - the `Transfer` and `Approval` events;
  - the zero-address checks;
  - `decimals` and `totalSupply` accessors. The total supply appears only as the ghost `Ledger.Total`.
- Amounts are unbounded naturals. uint256 overflow is not modelled, because every amount in play is far below 2^256.
- Contract addresses and signers become plain `Address` numbers. The caller is an explicit parameter. Transaction receipts, gas and `.wait()` are left out.
- `dao.token()` and `dao.customToken()` are the object references held by the `DAO`.
- Re-entrancy and concurrency are not modelled. Each call runs to completion, and a reverted call leaves all state unchanged.
  - `DAO.FinalizeProposal` does set the flag before paying out.
- GovernanceProofs.TallyFromDeployment: like `RunTally`, holds only while the governance ledger is fixed, for the reason on the next line.
- GovernanceProofs.RunTally: covers runs of DAO calls only, so the governance ledger is fixed during the run. Weight that moves between votes through `Token` transfers is outside `Run`, although each individual vote does read the live balance.
- `Run` contains DAO calls only. Treasury deposits happen through `CustomToken.Transfer`, as in the test fixture.
- The front end (`src/components/*.js`), the seeding script (`scripts/seed.js`) and decimal-string formatting are not part of this model.
