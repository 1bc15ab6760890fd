/** The DAO contract as an object: its storage is updated in place by each
    call, it reads voting weight from the governance `Token` and pays out of
    its own `CustomToken` balance.  Every method is proved to do exactly what
    the matching operation of `Governance` prescribes. */
module DaoContract {
  import opened Results
  import opened Ledger
  import opened Erc20
  import opened Governance
  import opened GovernanceProofs

  class DAO {
    const daoAddress: Address
    const token: Token
    const customToken: CustomToken
    const quorum: nat
    var proposalCount: nat
    var proposals: map<nat, Proposal>
    /** (voter, id) in upvoted: `voter` has up-voted proposal `id`. */
    var upvoted: set<(Address, nat)>
    var downvoted: set<(Address, nat)>
    /** The events emitted so far, oldest first. */
    var events: seq<Event>

    function State(): DaoState
      reads this
    {
      DaoState(daoAddress, quorum, proposalCount, proposals, upvoted, downvoted)
    }

    /** The DAO's storage together with the two ledgers it reads. */
    function View(): Chain
      reads this, token, customToken
    {
      Chain(State(), token.balances, customToken.balances)
    }

    ghost predicate Valid()
      reads this
    {
      Governance.Valid(State())
    }

    /** The call took effect as `s` prescribes: on success the chain is the
        new one and exactly one event was appended; on failure nothing
        changed. */
    twostate predicate Committed(s: Result<(Chain, Event), Error>)
      reads this, token, customToken
    {
      match s
      case Ok((c, e)) => View() == c && events == old(events) + [e]
      case Err(_) => View() == old(View()) && events == old(events)
    }

    constructor (daoAddress: Address, token: Token, customToken: CustomToken, quorum: nat)
      ensures Valid()
      ensures State() == Deploy(daoAddress, quorum)
      ensures this.token == token && this.customToken == customToken
      ensures events == []
    {
      this.daoAddress := daoAddress;
      this.token := token;
      this.customToken := customToken;
      this.quorum := quorum;
      proposalCount := 0;
      proposals := map[];
      upvoted := {};
      downvoted := {};
      events := [];
    }

    method CreateProposal(caller: Address, name: string, amount: nat, recipient: Address, description: string)
      returns (r: Result<nat, Error>)
      requires Valid()
      modifies this
      ensures Valid()
      ensures Committed(Governance.CreateProposal(old(View()), caller, name, amount, recipient, description))
      ensures r.ToOutcome() == Governance.CreateProposal(old(View()), caller, name, amount, recipient, description).ToOutcome()
      ensures r.Ok? ==> r.value == proposalCount
    {
      CreateProposalOutcome(View(), caller, name, amount, recipient, description);
      if BalanceOf(token.balances, caller) == 0 {
        return Err(NotInvestor);
      }
      if amount > BalanceOf(customToken.balances, daoAddress) {
        return Err(InsufficientTreasury);
      }
      proposalCount := proposalCount + 1;
      proposals := proposals[proposalCount := Proposal(proposalCount, name, amount, recipient, description, 0, 0, false)];
      events := events + [Propose(proposalCount, amount, recipient, caller)];
      r := Ok(proposalCount);
    }

    method Upvote(caller: Address, id: nat) returns (r: Outcome<Error>)
      requires Valid()
      modifies this
      ensures Valid()
      ensures Committed(CastVote(old(View()), caller, id, Up))
      ensures r == CastVote(old(View()), caller, id, Up).ToOutcome()
    {
      r := Cast(caller, id, Up);
    }

    method Downvote(caller: Address, id: nat) returns (r: Outcome<Error>)
      requires Valid()
      modifies this
      ensures Valid()
      ensures Committed(CastVote(old(View()), caller, id, Down))
      ensures r == CastVote(old(View()), caller, id, Down).ToOutcome()
    {
      r := Cast(caller, id, Down);
    }

    /** The body shared by upvote and downvote. */
    method Cast(caller: Address, id: nat, direction: Direction) returns (r: Outcome<Error>)
      requires Valid()
      modifies this
      ensures Valid()
      ensures Committed(CastVote(old(View()), caller, id, direction))
      ensures r == CastVote(old(View()), caller, id, direction).ToOutcome()
    {
      CastVoteOutcome(View(), caller, id, direction);
      if id !in proposals {
        return Fail(NotFound);
      }
      var p := proposals[id];
      if p.finalized {
        return Fail(AlreadyFinalized);
      }
      var weight := BalanceOf(token.balances, caller);
      if weight == 0 {
        return Fail(NotInvestor);
      }
      if (caller, id) in upvoted || (caller, id) in downvoted {
        return Fail(AlreadyVoted);
      }
      if direction == Up {
        proposals := proposals[id := p.(upvotes := p.upvotes + weight)];
        upvoted := upvoted + {(caller, id)};
      } else {
        proposals := proposals[id := p.(downvotes := p.downvotes + weight)];
        downvoted := downvoted + {(caller, id)};
      }
      events := events + [Vote(id, caller)];
      r := Pass;
    }

    /** The proposal is marked finalized before the payout is made, so a
        re-entrant call during the transfer would already see it closed. */
    method FinalizeProposal(caller: Address, id: nat) returns (r: Outcome<Error>)
      requires Valid()
      modifies this, customToken
      ensures Valid()
      ensures Committed(Governance.FinalizeProposal(old(View()), caller, id))
      ensures r == Governance.FinalizeProposal(old(View()), caller, id).ToOutcome()
    {
      FinalizeProposalOutcome(View(), caller, id);
      if id !in proposals {
        return Fail(NotFound);
      }
      var p := proposals[id];
      if p.finalized {
        return Fail(AlreadyFinalized);
      }
      if BalanceOf(token.balances, caller) == 0 {
        return Fail(NotInvestor);
      }
      if p.upvotes <= quorum {
        return Fail(QuorumNotMet);
      }
      if p.amount > BalanceOf(customToken.balances, daoAddress) {
        return Fail(InsufficientTreasury);
      }
      proposals := proposals[id := p.(finalized := true)];
      var sent := customToken.Transfer(daoAddress, p.recipient, p.amount);
      assert sent.Pass?;
      events := events + [Finalize(id)];
      r := Pass;
    }
  }
}
