/** What the governance engine guarantees, one call at a time and over any
    sequence of calls. */
module GovernanceProofs {
  import opened Results
  import opened Ledger
  import opened Governance

  // ---------------------------------------------------------------------------
  // One call at a time.

  /** createProposal succeeds exactly for an investor asking for no more than
      the treasury holds; it stores a fresh proposal under the next id. */
  lemma CreateProposalOutcome(c: Chain, caller: Address, name: string, amount: nat, recipient: Address, description: string)
    requires Valid(c.dao)
    ensures var r := CreateProposal(c, caller, name, amount, recipient, description);
      && (r.Ok? <==> IsInvestor(c, caller) && amount <= Treasury(c))
      && (!IsInvestor(c, caller) ==> r == Err(NotInvestor))
      && (IsInvestor(c, caller) && amount > Treasury(c) ==> r == Err(InsufficientTreasury))
    ensures var r := CreateProposal(c, caller, name, amount, recipient, description);
      var id := c.dao.proposalCount + 1;
      r.Ok? ==>
        && id !in c.dao.proposals
        && r.value.0.dao.proposalCount == id
        && r.value.0.dao.proposals == c.dao.proposals[id := Proposal(id, name, amount, recipient, description, 0, 0, false)]
        && r.value.0.dao.upvoted == c.dao.upvoted
        && r.value.0.dao.downvoted == c.dao.downvoted
        && r.value.0.token == c.token
        && r.value.0.customToken == c.customToken
        && r.value.1 == Propose(id, amount, recipient, caller)
        && Valid(r.value.0.dao)
  {
  }

  /** A vote succeeds exactly on an existing, open proposal, by an investor who
      has not voted on it in either direction; it adds the voter's current
      weight to one tally and changes nothing else. */
  lemma CastVoteOutcome(c: Chain, caller: Address, id: nat, direction: Direction)
    requires Valid(c.dao)
    ensures var r := CastVote(c, caller, id, direction);
      && (r.Ok? <==> id in c.dao.proposals && !c.dao.proposals[id].finalized
                     && IsInvestor(c, caller) && !HasVoted(c.dao, caller, id))
      && (id !in c.dao.proposals ==> r == Err(NotFound))
      && (id in c.dao.proposals && c.dao.proposals[id].finalized ==> r == Err(AlreadyFinalized))
      && (id in c.dao.proposals && !c.dao.proposals[id].finalized && !IsInvestor(c, caller) ==> r == Err(NotInvestor))
      && ((id in c.dao.proposals && !c.dao.proposals[id].finalized && IsInvestor(c, caller)
           && HasVoted(c.dao, caller, id)) ==> r == Err(AlreadyVoted))
    ensures var r := CastVote(c, caller, id, direction);
      r.Ok? ==>
        var p := c.dao.proposals[id];
        var d := r.value.0.dao;
        && d.proposals == c.dao.proposals[id := if direction == Up
                                                then p.(upvotes := p.upvotes + Weight(c, caller))
                                                else p.(downvotes := p.downvotes + Weight(c, caller))]
        && d.upvoted == (if direction == Up then c.dao.upvoted + {(caller, id)} else c.dao.upvoted)
        && d.downvoted == (if direction == Down then c.dao.downvoted + {(caller, id)} else c.dao.downvoted)
        && d.proposalCount == c.dao.proposalCount && d.daoAddress == c.dao.daoAddress && d.quorum == c.dao.quorum
        && r.value.0.token == c.token
        && r.value.0.customToken == c.customToken
        && r.value.1 == Vote(id, caller)
        && HasVoted(d, caller, id)
        && Valid(d)
  {
  }

  /** A voter may vote at most once per proposal, whichever directions the two
      attempts take. */
  lemma VoteOnlyOnce(c: Chain, voter: Address, id: nat, first: Direction, second: Direction)
    requires CastVote(c, voter, id, first).Ok?
    ensures CastVote(CastVote(c, voter, id, first).value.0, voter, id, second) == Err(AlreadyVoted)
  {
  }

  /** finalizeProposal succeeds exactly when the proposal exists, is still
      open, the caller is an investor, the up-vote weight strictly exceeds the
      quorum and the treasury still covers the amount.  It then sets the
      finalized flag, and moves exactly the amount from the DAO to the
      recipient, leaving the CustomToken supply unchanged. */
  lemma FinalizeProposalOutcome(c: Chain, caller: Address, id: nat)
    requires Valid(c.dao)
    ensures var r := FinalizeProposal(c, caller, id);
      && (r.Ok? <==> id in c.dao.proposals && !c.dao.proposals[id].finalized && IsInvestor(c, caller)
                     && c.dao.proposals[id].upvotes > c.dao.quorum
                     && c.dao.proposals[id].amount <= Treasury(c))
      && (id !in c.dao.proposals ==> r == Err(NotFound))
      && (id in c.dao.proposals && c.dao.proposals[id].finalized ==> r == Err(AlreadyFinalized))
      && (id in c.dao.proposals && !c.dao.proposals[id].finalized && !IsInvestor(c, caller) ==> r == Err(NotInvestor))
      && ((id in c.dao.proposals && !c.dao.proposals[id].finalized && IsInvestor(c, caller)
           && c.dao.proposals[id].upvotes <= c.dao.quorum) ==> r == Err(QuorumNotMet))
      && ((id in c.dao.proposals && !c.dao.proposals[id].finalized && IsInvestor(c, caller)
           && c.dao.proposals[id].upvotes > c.dao.quorum
           && c.dao.proposals[id].amount > Treasury(c)) ==> r == Err(InsufficientTreasury))
    ensures var r := FinalizeProposal(c, caller, id);
      r.Ok? ==>
        var p := c.dao.proposals[id];
        var c' := r.value.0;
        && c'.dao == c.dao.(proposals := c.dao.proposals[id := p.(finalized := true)])
        && c'.token == c.token
        && (p.recipient != c.dao.daoAddress ==>
              && Treasury(c') + p.amount == Treasury(c)
              && BalanceOf(c'.customToken, p.recipient) == BalanceOf(c.customToken, p.recipient) + p.amount)
        && (forall a :: a != p.recipient && a != c.dao.daoAddress ==>
              BalanceOf(c'.customToken, a) == BalanceOf(c.customToken, a))
        && Total(c'.customToken) == Total(c.customToken)
        && r.value.1 == Finalize(id)
        && Valid(c'.dao)
  {
    if id in c.dao.proposals && !c.dao.proposals[id].finalized
       && c.dao.proposals[id].amount <= Treasury(c) {
      MoveKeepsTotal(c.customToken, c.dao.daoAddress, c.dao.proposals[id].recipient, c.dao.proposals[id].amount);
    }
  }

  /** A finalized proposal is closed: every later vote or finalization on it
      fails with AlreadyFinalized. */
  lemma FinalizedIsTerminal(c: Chain, id: nat, caller: Address, direction: Direction)
    requires id in c.dao.proposals && c.dao.proposals[id].finalized
    ensures CastVote(c, caller, id, direction) == Err(AlreadyFinalized)
    ensures FinalizeProposal(c, caller, id) == Err(AlreadyFinalized)
  {
  }

  /** Every successful call keeps the storage invariant, the DAO's address,
      the quorum and the governance-token ledger, and the CustomToken supply. */
  lemma StepPreserves(c: Chain, call: Call)
    requires Valid(c.dao)
    requires Step(c, call).Ok?
    ensures var c' := Step(c, call).value.0;
      && Valid(c'.dao)
      && c'.dao.daoAddress == c.dao.daoAddress && c'.dao.quorum == c.dao.quorum
      && c'.token == c.token
      && Total(c'.customToken) == Total(c.customToken)
  {
    match call
    case CreateCall(caller, name, amount, recipient, description) =>
      CreateProposalOutcome(c, caller, name, amount, recipient, description);
    case VoteCall(caller, id, direction) =>
      CastVoteOutcome(c, caller, id, direction);
    case FinalizeCall(caller, id) =>
      FinalizeProposalOutcome(c, caller, id);
  }

  // ---------------------------------------------------------------------------
  // Any sequence of calls.

  /** The ids carried by the Propose events of a log, in order. */
  function ProposedIds(log: seq<Event>): seq<nat>
  {
    if log == [] then []
    else (if log[0].Propose? then [log[0].id] else []) + ProposedIds(log[1..])
  }

  /** lo, lo + 1, ..., hi - 1. */
  function Ids(lo: nat, hi: nat): seq<nat>
    decreases hi - lo
  {
    if lo >= hi then [] else [lo] + Ids(lo + 1, hi)
  }

  /** How many Vote events of `voter` on proposal `id` a log holds. */
  function VotesBy(log: seq<Event>, voter: Address, id: nat): nat
  {
    if log == [] then 0
    else (if log[0] == Vote(id, voter) then 1 else 0) + VotesBy(log[1..], voter, id)
  }

  function Voters(d: DaoState, id: nat, direction: Direction): set<Address>
  {
    var flags := if direction == Up then d.upvoted else d.downvoted;
    set p | p in flags && p.1 == id :: p.0
  }

  /** The weight cast on proposal `id` in one direction (zero before it exists). */
  function Tally(d: DaoState, id: nat, direction: Direction): nat
  {
    if id !in d.proposals then 0
    else if direction == Up then d.proposals[id].upvotes
    else d.proposals[id].downvotes
  }

  lemma {:induction false} ProposedIdsAppend(a: seq<Event>, b: seq<Event>)
    ensures ProposedIds(a + b) == ProposedIds(a) + ProposedIds(b)
  {
    if a != [] {
      assert (a + b)[1..] == a[1..] + b;
      ProposedIdsAppend(a[1..], b);
    } else {
      assert a + b == b;
    }
  }

  lemma {:induction false} VotesByAppend(a: seq<Event>, b: seq<Event>, voter: Address, id: nat)
    ensures VotesBy(a + b, voter, id) == VotesBy(a, voter, id) + VotesBy(b, voter, id)
  {
    if a != [] {
      assert (a + b)[1..] == a[1..] + b;
      VotesByAppend(a[1..], b, voter, id);
    } else {
      assert a + b == b;
    }
  }

  /** Whatever the calls, the storage invariant holds throughout, and the
      DAO's address, its quorum, the governance-token ledger and the
      CustomToken supply never change. */
  lemma {:induction false} RunPreserves(c: Chain, calls: seq<Call>)
    requires Valid(c.dao)
    ensures var c' := Run(c, calls).0;
      && Valid(c'.dao)
      && c'.dao.daoAddress == c.dao.daoAddress && c'.dao.quorum == c.dao.quorum
      && c'.token == c.token
      && Total(c'.customToken) == Total(c.customToken)
    decreases |calls|
  {
    if calls != [] {
      if Step(c, calls[0]).Ok? {
        StepPreserves(c, calls[0]);
      }
      RunPreserves(Apply(c, calls[0]).0, calls[1..]);
    }
  }

  /** Proposal ids are handed out as 1, 2, 3, ... in creation order: the
      Propose events of any run carry exactly the ids after the starting
      count, with no gap and no repeat. */
  lemma {:induction false} RunNumbersProposals(c: Chain, calls: seq<Call>)
    ensures Run(c, calls).0.dao.proposalCount >= c.dao.proposalCount
    ensures ProposedIds(Run(c, calls).1) == Ids(c.dao.proposalCount + 1, Run(c, calls).0.dao.proposalCount + 1)
    decreases |calls|
  {
    if calls != [] {
      var (c1, log1) := Apply(c, calls[0]);
      RunNumbersProposals(c1, calls[1..]);
      ProposedIdsAppend(log1, Run(c1, calls[1..]).1);
      assert ProposedIds(log1) == if c1.dao.proposalCount == c.dao.proposalCount then [] else [c.dao.proposalCount + 1];
    }
  }

  /** Each voter's Vote events on a proposal are exactly the vote flags the
      run adds: a voter with no flag at the start votes at most once, and one
      who had already voted never again. */
  lemma {:induction false} RunVotesOnce(c: Chain, calls: seq<Call>, voter: Address, id: nat)
    ensures VotesBy(Run(c, calls).1, voter, id) + (if HasVoted(c.dao, voter, id) then 1 else 0)
            == (if HasVoted(Run(c, calls).0.dao, voter, id) then 1 else 0)
    decreases |calls|
  {
    if calls != [] {
      var (c1, log1) := Apply(c, calls[0]);
      RunVotesOnce(c1, calls[1..], voter, id);
      VotesByAppend(log1, Run(c1, calls[1..]).1, voter, id);
      assert VotesBy(log1, voter, id) + (if HasVoted(c.dao, voter, id) then 1 else 0)
             == (if HasVoted(c1.dao, voter, id) then 1 else 0);
    }
  }

  /** From deployment, no run holds two Vote events of one voter on one
      proposal. */
  lemma SingleVoteFromDeployment(daoAddress: Address, quorum: nat, token: Balances, customToken: Balances,
                                 calls: seq<Call>, voter: Address, id: nat)
    ensures VotesBy(Run(Chain(Deploy(daoAddress, quorum), token, customToken), calls).1, voter, id) <= 1
  {
    RunVotesOnce(Chain(Deploy(daoAddress, quorum), token, customToken), calls, voter, id);
  }

  /** Adding one voter to a set of voters adds that voter's weight to the sum. */
  lemma AddVoter(token: Balances, voters: set<Address>, v: Address)
    requires v !in voters
    ensures SumOver(token, voters + {v}) == BalanceOf(token, v) + SumOver(token, voters)
  {
    SumOverRemove(token, voters + {v}, v);
    assert voters + {v} - {v} == voters;
  }

  lemma ApplyTally(c: Chain, call: Call, id: nat, direction: Direction)
    requires Valid(c.dao)
    ensures var c1 := Apply(c, call).0;
      Tally(c1.dao, id, direction) + SumOver(c.token, Voters(c.dao, id, direction))
      == Tally(c.dao, id, direction) + SumOver(c.token, Voters(c1.dao, id, direction))
  {
    var c1 := Apply(c, call).0;
    if call.VoteCall? && Step(c, call).Ok? && call.id == id && call.direction == direction {
      assert Voters(c1.dao, id, direction) == Voters(c.dao, id, direction) + {call.caller};
      AddVoter(c.token, Voters(c.dao, id, direction), call.caller);
    } else {
      assert Voters(c1.dao, id, direction) == Voters(c.dao, id, direction);
      assert Tally(c1.dao, id, direction) == Tally(c.dao, id, direction);
    }
  }

  /** Weight conservation: over any run, the weight a tally gains is the sum of
      the current governance-token balances of the voters the run adds in
      that direction. */
  lemma {:induction false} RunTally(c: Chain, calls: seq<Call>, id: nat, direction: Direction)
    requires Valid(c.dao)
    ensures var c' := Run(c, calls).0;
      Tally(c'.dao, id, direction) + SumOver(c.token, Voters(c.dao, id, direction))
      == Tally(c.dao, id, direction) + SumOver(c.token, Voters(c'.dao, id, direction))
    decreases |calls|
  {
    if calls != [] {
      var c1 := Apply(c, calls[0]).0;
      ApplyTally(c, calls[0], id, direction);
      if Step(c, calls[0]).Ok? {
        StepPreserves(c, calls[0]);
      }
      RunTally(c1, calls[1..], id, direction);
    }
  }

  /** From deployment, every tally is exactly the summed weight of the voters
      flagged in that direction. */
  lemma TallyFromDeployment(daoAddress: Address, quorum: nat, token: Balances, customToken: Balances,
                            calls: seq<Call>, id: nat, direction: Direction)
    ensures var c' := Run(Chain(Deploy(daoAddress, quorum), token, customToken), calls).0;
      Tally(c'.dao, id, direction) == SumOver(token, Voters(c'.dao, id, direction))
  {
    var c := Chain(Deploy(daoAddress, quorum), token, customToken);
    assert Voters(c.dao, id, direction) == {};
    RunTally(c, calls, id, direction);
  }

  lemma ApplyFrozen(c: Chain, call: Call, id: nat)
    requires Valid(c.dao)
    requires id in c.dao.proposals && c.dao.proposals[id].finalized
    ensures var (c1, log1) := Apply(c, call);
      && id in c1.dao.proposals && c1.dao.proposals[id] == c.dao.proposals[id]
      && forall e :: e in log1 ==> e != Finalize(id) && !(e.Vote? && e.id == id)
  {
  }

  /** Once finalized, a proposal's record never changes again, and no later
      Vote or Finalize event names it. */
  lemma {:induction false} RunFrozen(c: Chain, calls: seq<Call>, id: nat)
    requires Valid(c.dao)
    requires id in c.dao.proposals && c.dao.proposals[id].finalized
    ensures var (c', log) := Run(c, calls);
      && id in c'.dao.proposals && c'.dao.proposals[id] == c.dao.proposals[id]
      && forall e :: e in log ==> e != Finalize(id) && !(e.Vote? && e.id == id)
    decreases |calls|
  {
    if calls != [] {
      var (c1, log1) := Apply(c, calls[0]);
      ApplyFrozen(c, calls[0], id);
      if Step(c, calls[0]).Ok? {
        StepPreserves(c, calls[0]);
      }
      RunFrozen(c1, calls[1..], id);
    }
  }
}
