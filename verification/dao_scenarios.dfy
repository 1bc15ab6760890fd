/** The scenarios of the DAO's test suite, replayed on the contract objects,
    with the fixture and staging helpers they share. A `...Test` method
    deploys a fresh fixture, as the suite's `beforeEach` does, and returns
    what the test reads back. Its postcondition is the test's expectation,
    except for rules the model adds beyond the suite: the repeat-vote
    checks (`again`, `switched`) in `UpvotingTest` and `DownvotingTest`,
    and the whole of `CompetingProposalsTest`. */
module DaoScenarios {
  import opened Results
  import opened Ledger
  import opened Erc20
  import opened Governance
  import opened DaoContract

  // The suite's accounts.
  const Deployer: Address := 0
  const Investor1: Address := 2
  const Investor2: Address := 3
  const Investor3: Address := 4
  const Investor4: Address := 5
  const Investor5: Address := 6
  const Recipient: Address := 7
  const User: Address := 8
  const DaoAddress: Address := 9

  /** Just over 500,000 whole tokens: three investors' weight passes it, two do not. */
  const Quorum: nat := 500000000000000000000001

  /** Deploys the governance token (1,000,000 whole tokens to the deployer), the
      CustomToken, gives five investors 200,000 tokens each, deploys the DAO
      and funds its treasury with 1,000,000 CustomTokens. */
  method DeployFixture() returns (token: Token, customToken: CustomToken, dao: DAO)
    ensures fresh(token) && fresh(customToken) && fresh(dao)
    ensures dao.Valid() && dao.State() == Deploy(DaoAddress, Quorum) && dao.events == []
    ensures dao.token == token && dao.customToken == customToken
    ensures forall a :: a in {Investor1, Investor2, Investor3, Investor4, Investor5} ==>
              BalanceOf(token.balances, a) == Tokens(200_000)
    ensures BalanceOf(token.balances, User) == 0
    ensures BalanceOf(customToken.balances, DaoAddress) == Tokens(1_000_000)
    ensures BalanceOf(customToken.balances, Recipient) == 0
  {
    token := new Token("Dapp University", "DAPP", Tokens(1_000_000), Deployer);
    customToken := new CustomToken(Deployer);
    Hand200k(token, Investor1);
    Hand200k(token, Investor2);
    Hand200k(token, Investor3);
    Hand200k(token, Investor4);
    Hand200k(token, Investor5);
    dao := new DAO(DaoAddress, token, customToken, Quorum);
    var t := customToken.Transfer(Deployer, DaoAddress, Tokens(1_000_000));
  }

  /** The deployer transfers 200,000 governance tokens to `investor`. */
  method Hand200k(token: Token, investor: Address)
    requires investor != Deployer && BalanceOf(token.balances, Deployer) >= Tokens(200_000)
    modifies token
    ensures BalanceOf(token.balances, Deployer) + Tokens(200_000) == old(BalanceOf(token.balances, Deployer))
    ensures BalanceOf(token.balances, investor) == old(BalanceOf(token.balances, investor)) + Tokens(200_000)
    ensures forall a :: a != Deployer && a != investor ==> BalanceOf(token.balances, a) == old(BalanceOf(token.balances, a))
  {
    var t := token.Transfer(Deployer, investor, Tokens(200_000));
  }

  method DeploymentTest() returns (treasury: nat, quorum: nat, tokensWired: bool)
    ensures treasury == Tokens(1_000_000)
    ensures quorum == 500000000000000000000001
    ensures tokensWired
  {
    var token, customToken, dao := DeployFixture();
    treasury := BalanceOf(customToken.balances, dao.daoAddress);
    quorum := dao.quorum;
    tokensWired := dao.token == token && dao.customToken == customToken;
  }

  method ProposalCreationSuccessTest() returns (count: nat, stored: Proposal, emitted: seq<Event>)
    ensures count == 1
    ensures stored.id == 1 && stored.amount == Tokens(100) && stored.recipient == Recipient
    ensures stored.description == ""
    ensures emitted == [Propose(1, Tokens(100), Recipient, Investor1)]
  {
    var token, customToken, dao := DeployFixture();
    var r := dao.CreateProposal(Investor1, "Proposal 1", Tokens(100), Recipient, "");
    count := dao.proposalCount;
    stored := dao.proposals[1];
    emitted := dao.events;
  }

  method ProposalCreationFailureTest() returns (invalidAmount: Result<nat, Error>, nonInvestor: Result<nat, Error>)
    ensures invalidAmount == Err(InsufficientTreasury)
    ensures nonInvestor == Err(NotInvestor)
  {
    var token, customToken, dao := DeployFixture();
    invalidAmount := dao.CreateProposal(Investor1, "Proposal 1", Tokens(10_000_000), Recipient, "");
    token, customToken, dao := DeployFixture();
    nonInvestor := dao.CreateProposal(User, "Proposal 2", Tokens(1_000), Recipient, "");
  }

  method UpvotingTest() returns (upvotes: nat, emitted: Event, again: Outcome<Error>, nonInvestor: Outcome<Error>)
    ensures upvotes == Tokens(200_000)
    ensures emitted == Vote(1, Investor1)
    ensures again == Fail(AlreadyVoted)
    ensures nonInvestor == Fail(NotInvestor)
  {
    var token, customToken, dao := DeployFixture();
    var r := dao.CreateProposal(Investor1, "Proposal 1", Tokens(100), Recipient, "");
    var v := dao.Upvote(Investor1, 1);
    upvotes := dao.proposals[1].upvotes;
    emitted := dao.events[|dao.events| - 1];
    again := dao.Upvote(Investor1, 1);
    nonInvestor := dao.Upvote(User, 1);
  }

  method DownvotingTest() returns (downvotes: nat, emitted: Event, again: Outcome<Error>,
                                   switched: Outcome<Error>, nonInvestor: Outcome<Error>)
    ensures downvotes == Tokens(200_000)
    ensures emitted == Vote(1, Investor1)
    ensures again == Fail(AlreadyVoted) && switched == Fail(AlreadyVoted)
    ensures nonInvestor == Fail(NotInvestor)
  {
    var token, customToken, dao := DeployFixture();
    var r := dao.CreateProposal(Investor1, "Proposal 1", Tokens(100), Recipient, "");
    var v := dao.Downvote(Investor1, 1);
    downvotes := dao.proposals[1].downvotes;
    emitted := dao.events[|dao.events| - 1];
    again := dao.Downvote(Investor1, 1);
    switched := dao.Upvote(Investor1, 1);
    nonInvestor := dao.Downvote(User, 1);
  }

  /** Proposal 1 for `amount`, created by the first investor and up-voted by
      the first two (400,000 tokens of weight, below the quorum). */
  method BackedProposal(amount: nat) returns (token: Token, customToken: CustomToken, dao: DAO)
    requires amount <= Tokens(1_000_000)
    ensures fresh(token) && fresh(customToken) && fresh(dao)
    ensures dao.Valid() && dao.token == token && dao.customToken == customToken
    ensures BalanceOf(token.balances, Investor1) == Tokens(200_000)
    ensures BalanceOf(token.balances, Investor3) == Tokens(200_000)
    ensures BalanceOf(token.balances, User) == 0
    ensures BalanceOf(customToken.balances, DaoAddress) == Tokens(1_000_000)
    ensures BalanceOf(customToken.balances, Recipient) == 0
    ensures dao.daoAddress == DaoAddress && dao.quorum == Quorum && dao.proposalCount == 1
    ensures 1 in dao.proposals && !dao.proposals[1].finalized
    ensures dao.proposals[1].upvotes == Tokens(400_000)
    ensures dao.proposals[1].amount == amount && dao.proposals[1].recipient == Recipient
    ensures !HasVoted(dao.State(), Investor3, 1)
  {
    token, customToken, dao := DeployFixture();
    var r := dao.CreateProposal(Investor1, "Proposal 1", amount, Recipient, "");
    var v := dao.Upvote(Investor1, 1);
    v := dao.Upvote(Investor2, 1);
  }

  /** Three investors (600,000 tokens of weight) pass the quorum; finalizing
      pays the recipient. */
  method GovernanceSuccessTest() returns (finalized: bool, paid: nat, emitted: Event)
    ensures finalized
    ensures paid == Tokens(102)
    ensures emitted == Finalize(1)
  {
    var token, customToken, dao := BackedProposal(Tokens(102));
    var v := dao.Upvote(Investor3, 1);
    v := dao.FinalizeProposal(Investor1, 1);
    finalized := dao.proposals[1].finalized;
    paid := BalanceOf(customToken.balances, Recipient);
    emitted := dao.events[|dao.events| - 1];
  }

  method RejectFinalizationFromNonInvestorTest() returns (r: Outcome<Error>)
    ensures r == Fail(NotInvestor)
  {
    var token, customToken, dao := BackedProposal(Tokens(1_000_000));
    var v := dao.Upvote(Investor3, 1);
    r := dao.FinalizeProposal(User, 1);
  }

  method RejectFinalizationBelowQuorumTest() returns (r: Outcome<Error>)
    ensures r == Fail(QuorumNotMet)
  {
    var token, customToken, dao := BackedProposal(Tokens(1_000_000));
    r := dao.FinalizeProposal(Investor1, 1);
  }

  method RejectSecondFinalizationTest() returns (first: Outcome<Error>, second: Outcome<Error>)
    ensures first == Pass
    ensures second == Fail(AlreadyFinalized)
  {
    var token, customToken, dao := BackedProposal(Tokens(1_000_000));
    var v := dao.Upvote(Investor3, 1);
    first := dao.FinalizeProposal(Investor1, 1);
    second := dao.FinalizeProposal(Investor1, 1);
  }

  /** A proposal for the whole treasury is admitted; once it is paid, not even
      a one-token proposal is. */
  method RejectProposalWhenDrainedTest() returns (treasury: nat, r: Result<nat, Error>)
    ensures treasury == 0
    ensures r == Err(InsufficientTreasury)
  {
    var token, customToken, dao := BackedProposal(Tokens(1_000_000));
    var v := dao.Upvote(Investor3, 1);
    v := dao.FinalizeProposal(Investor1, 1);
    treasury := BalanceOf(customToken.balances, DaoAddress);
    r := dao.CreateProposal(Investor1, "Proposal 1", Tokens(1), Recipient, "");
  }

  /** The first three investors up-vote proposal `id`, adding 600,000 tokens
      of weight. */
  method UpvoteByThree(dao: DAO, id: nat)
    requires dao.Valid() && id in dao.proposals && !dao.proposals[id].finalized
    requires forall v :: v in {Investor1, Investor2, Investor3} ==>
               BalanceOf(dao.token.balances, v) == Tokens(200_000) && !HasVoted(dao.State(), v, id)
    modifies dao
    ensures dao.Valid() && dao.proposalCount == old(dao.proposalCount)
    ensures dao.proposals == old(dao.proposals)[id := old(dao.proposals[id]).(upvotes := old(dao.proposals[id].upvotes) + Tokens(600_000))]
    ensures dao.upvoted == old(dao.upvoted) + {(Investor1, id), (Investor2, id), (Investor3, id)}
    ensures dao.downvoted == old(dao.downvoted)
  {
    var v := dao.Upvote(Investor1, id);
    v := dao.Upvote(Investor2, id);
    v := dao.Upvote(Investor3, id);
  }

  /** Stage of `CompetingProposalsTest`: two proposals of 600,000 tokens each
      are admitted against the same 1,000,000-token treasury, and each is
      up-voted past the quorum by the first three investors. */
  method CompetingProposals() returns (token: Token, customToken: CustomToken, dao: DAO)
    ensures fresh(token) && fresh(customToken) && fresh(dao)
    ensures dao.Valid() && dao.token == token && dao.customToken == customToken
    ensures BalanceOf(token.balances, Investor1) == Tokens(200_000)
    ensures BalanceOf(customToken.balances, DaoAddress) == Tokens(1_000_000)
    ensures dao.daoAddress == DaoAddress && dao.quorum == Quorum
    ensures 1 in dao.proposals && !dao.proposals[1].finalized
    ensures dao.proposals[1].upvotes == Tokens(600_000) && dao.proposals[1].amount == Tokens(600_000)
    ensures dao.proposals[1].recipient == Recipient
    ensures 2 in dao.proposals && !dao.proposals[2].finalized
    ensures dao.proposals[2].upvotes == Tokens(600_000) && dao.proposals[2].amount == Tokens(600_000)
  {
    token, customToken, dao := DeployFixture();
    var r := dao.CreateProposal(Investor1, "Proposal 1", Tokens(600_000), Recipient, "");
    r := dao.CreateProposal(Investor1, "Proposal 2", Tokens(600_000), Recipient, "");
    UpvoteByThree(dao, 1);
    UpvoteByThree(dao, 2);
  }

  /** Two proposals admitted against the same treasury: once the first is paid,
      the second can no longer be, because finalization checks the treasury
      again instead of trusting the check made at creation. */
  method CompetingProposalsTest() returns (first: Outcome<Error>, second: Outcome<Error>, treasury: nat)
    ensures first == Pass
    ensures second == Fail(InsufficientTreasury)
    ensures treasury == Tokens(400_000)
  {
    var token, customToken, dao := CompetingProposals();
    first := dao.FinalizeProposal(Investor1, 1);
    second := dao.FinalizeProposal(Investor1, 2);
    treasury := BalanceOf(customToken.balances, DaoAddress);
  }
}
