/** The DAO's governance engine as a pure state machine.  A `Chain` is the
    part of the world a DAO call can see: the DAO's own storage, the
    governance `Token` ledger (voting weight) and the `CustomToken` ledger
    (the treasury is the DAO's balance in it).  Each operation either fails
    with an `Error`, leaving the chain as it was, or returns the new chain and
    the one event it emits. */
module Governance {
  import opened Results
  import opened Ledger

  datatype Proposal = Proposal(
    id: nat,
    name: string,
    amount: nat,
    recipient: Address,
    description: string,
    upvotes: nat,
    downvotes: nat,
    finalized: bool)

  datatype Event =
    | Propose(id: nat, amount: nat, recipient: Address, creator: Address)
    | Vote(id: nat, voter: Address)
    | Finalize(id: nat)

  datatype Error =
    | NotInvestor
    | InsufficientTreasury
    | NotFound
    | AlreadyFinalized
    | AlreadyVoted
    | QuorumNotMet

  datatype Direction = Up | Down

  /** The DAO contract's storage.  `daoAddress` is the contract's own address and,
      with `quorum`, never changes after deployment.  `upvoted` and
      `downvoted` are the per-(voter, proposal id) vote flags. */
  datatype DaoState = DaoState(
    daoAddress: Address,
    quorum: nat,
    proposalCount: nat,
    proposals: map<nat, Proposal>,
    upvoted: set<(Address, nat)>,
    downvoted: set<(Address, nat)>)

  datatype Chain = Chain(dao: DaoState, token: Balances, customToken: Balances)

  datatype Call =
    | CreateCall(caller: Address, name: string, amount: nat, recipient: Address, description: string)
    | VoteCall(caller: Address, id: nat, direction: Direction)
    | FinalizeCall(caller: Address, id: nat)

  /** A freshly deployed DAO: no proposals, no votes. */
  function Deploy(daoAddress: Address, quorum: nat): (d: DaoState)
    ensures Valid(d)
  {
    DaoState(daoAddress, quorum, 0, map[], {}, {})
  }

  /** What every reachable DAO state satisfies: ids are exactly 1..count and
      each record knows its own id; votes are recorded only for existing
      proposals and in one direction only; a finalized proposal had more
      up-vote weight than the quorum. */
  ghost predicate Valid(d: DaoState)
  {
    (forall id :: id in d.proposals <==> 1 <= id <= d.proposalCount) &&
    (forall id :: id in d.proposals ==> d.proposals[id].id == id) &&
    (forall id :: id in d.proposals && d.proposals[id].finalized ==> d.proposals[id].upvotes > d.quorum) &&
    (forall v, id :: (v, id) in d.upvoted ==> id in d.proposals) &&
    (forall v, id :: (v, id) in d.downvoted ==> id in d.proposals) &&
    (forall v, id :: (v, id) in d.upvoted ==> (v, id) !in d.downvoted)
  }

  function Weight(c: Chain, who: Address): nat
  {
    BalanceOf(c.token, who)
  }

  /** An investor is anyone holding governance tokens at the moment of the call. */
  predicate IsInvestor(c: Chain, who: Address)
  {
    Weight(c, who) > 0
  }

  function Treasury(c: Chain): nat
  {
    BalanceOf(c.customToken, c.dao.daoAddress)
  }

  predicate HasVoted(d: DaoState, voter: Address, id: nat)
  {
    (voter, id) in d.upvoted || (voter, id) in d.downvoted
  }

  /** `createProposal(name, amount, recipient, description)` sent by `caller`. */
  function CreateProposal(c: Chain, caller: Address, name: string, amount: nat, recipient: Address, description: string)
    : (r: Result<(Chain, Event), Error>)
    ensures r.Ok? <==> IsInvestor(c, caller) && amount <= Treasury(c)
    ensures r.Ok? ==> r.value.0.dao.proposalCount == c.dao.proposalCount + 1
    ensures r.Ok? ==> r.value.0.token == c.token && r.value.0.customToken == c.customToken
  {
    if !IsInvestor(c, caller) then Err(NotInvestor)
    else if amount > Treasury(c) then Err(InsufficientTreasury)
    else
      var id := c.dao.proposalCount + 1;
      var p := Proposal(id, name, amount, recipient, description, 0, 0, false);
      var d := c.dao.(proposalCount := id, proposals := c.dao.proposals[id := p]);
      Ok((c.(dao := d), Propose(id, amount, recipient, caller)))
  }

  /** `upvote(id)` (direction Up) or `downvote(id)` (direction Down) sent by
      `caller`: the caller's current weight is added to that tally. */
  function CastVote(c: Chain, caller: Address, id: nat, direction: Direction): (r: Result<(Chain, Event), Error>)
    ensures r.Ok? ==> !HasVoted(c.dao, caller, id) && HasVoted(r.value.0.dao, caller, id)
    ensures r.Ok? ==> IsInvestor(c, caller) && id in c.dao.proposals && !c.dao.proposals[id].finalized
    ensures r.Ok? ==> r.value.0.token == c.token && r.value.0.customToken == c.customToken
  {
    if id !in c.dao.proposals then Err(NotFound)
    else if c.dao.proposals[id].finalized then Err(AlreadyFinalized)
    else if !IsInvestor(c, caller) then Err(NotInvestor)
    else if HasVoted(c.dao, caller, id) then Err(AlreadyVoted)
    else
      var p := c.dao.proposals[id];
      var w := Weight(c, caller);
      var d := match direction
        case Up => c.dao.(proposals := c.dao.proposals[id := p.(upvotes := p.upvotes + w)],
                          upvoted := c.dao.upvoted + {(caller, id)})
        case Down => c.dao.(proposals := c.dao.proposals[id := p.(downvotes := p.downvotes + w)],
                            downvoted := c.dao.downvoted + {(caller, id)});
      Ok((c.(dao := d), Vote(id, caller)))
  }

  /** `finalizeProposal(id)` sent by `caller`: marks the proposal finalized and
      pays its amount from the DAO's CustomToken balance to its recipient. */
  function FinalizeProposal(c: Chain, caller: Address, id: nat): (r: Result<(Chain, Event), Error>)
    ensures r.Ok? ==> id in c.dao.proposals && !c.dao.proposals[id].finalized && IsInvestor(c, caller)
    ensures r.Ok? ==> c.dao.proposals[id].upvotes > c.dao.quorum && c.dao.proposals[id].amount <= Treasury(c)
    ensures r.Ok? ==> id in r.value.0.dao.proposals && r.value.0.dao.proposals[id].finalized
  {
    if id !in c.dao.proposals then Err(NotFound)
    else if c.dao.proposals[id].finalized then Err(AlreadyFinalized)
    else if !IsInvestor(c, caller) then Err(NotInvestor)
    else if c.dao.proposals[id].upvotes <= c.dao.quorum then Err(QuorumNotMet)
    else if c.dao.proposals[id].amount > Treasury(c) then Err(InsufficientTreasury)
    else
      var p := c.dao.proposals[id];
      var d := c.dao.(proposals := c.dao.proposals[id := p.(finalized := true)]);
      Ok((Chain(d, c.token, Move(c.customToken, c.dao.daoAddress, p.recipient, p.amount)), Finalize(id)))
  }

  function Step(c: Chain, call: Call): (r: Result<(Chain, Event), Error>)
  {
    match call
    case CreateCall(caller, name, amount, recipient, description) =>
      CreateProposal(c, caller, name, amount, recipient, description)
    case VoteCall(caller, id, direction) => CastVote(c, caller, id, direction)
    case FinalizeCall(caller, id) => FinalizeProposal(c, caller, id)
  }

  /** One transaction as the chain sees it: a reverted call leaves the chain
      unchanged and emits nothing. */
  function Apply(c: Chain, call: Call): (r: (Chain, seq<Event>))
  {
    match Step(c, call)
    case Ok((c', e)) => (c', [e])
    case Err(_) => (c, [])
  }

  /** A sequence of transactions, one after another: the final chain and the
      event log. */
  function Run(c: Chain, calls: seq<Call>): (r: (Chain, seq<Event>))
    decreases |calls|
  {
    if calls == [] then (c, [])
    else
      var (c1, log1) := Apply(c, calls[0]);
      var (cn, rest) := Run(c1, calls[1..]);
      (cn, log1 + rest)
  }
}
