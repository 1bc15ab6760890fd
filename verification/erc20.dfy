/** The two ERC-20 contracts the DAO works with, as objects whose balance map
    is updated in place.  `Token` is the governance token: a holder's balance
    is their voting weight.  `CustomToken` is the treasury currency: the DAO's
    own balance is the treasury, and its owner may mint and burn. */
module Erc20 {
  import opened Results
  import opened Ledger

  /** The governance token: all of the supply starts with the deployer. */
  class Token {
    const name: string
    const symbol: string
    var balances: Balances

    constructor (name: string, symbol: string, supply: nat, deployer: Address)
      ensures this.name == name && this.symbol == symbol
      ensures BalanceOf(balances, deployer) == supply
      ensures forall a :: a != deployer ==> BalanceOf(balances, a) == 0
      ensures Total(balances) == supply
    {
      this.name := name;
      this.symbol := symbol;
      balances := map[deployer := supply];
      CreditAddsToTotal(map[], deployer, supply);
    }

    method Transfer(caller: Address, to: Address, amount: nat) returns (r: Outcome<LedgerError>)
      modifies this
      ensures r.Pass? <==> amount <= BalanceOf(old(balances), caller)
      ensures r.Pass? ==> balances == Move(old(balances), caller, to, amount)
      ensures r.Fail? ==> r.error == InsufficientBalance && balances == old(balances)
      ensures Total(balances) == Total(old(balances))
    {
      var t := Ledger.Transfer(balances, caller, to, amount);
      if t.Ok? {
        balances := t.value;
        r := Pass;
      } else {
        r := Fail(InsufficientBalance);
      }
    }
  }

  /** The treasury currency: 1,000,000 whole tokens go to the owner at
      deployment; only the owner may mint or burn. */
  class CustomToken {
    const name: string := "CustomToken"
    const symbol: string := "CTK"
    const owner: Address
    var balances: Balances

    constructor (owner: Address)
      ensures this.owner == owner
      ensures BalanceOf(balances, owner) == Tokens(1_000_000)
      ensures forall a :: a != owner ==> BalanceOf(balances, a) == 0
      ensures Total(balances) == Tokens(1_000_000)
    {
      this.owner := owner;
      balances := map[owner := Tokens(1_000_000)];
      CreditAddsToTotal(map[], owner, Tokens(1_000_000));
    }

    method Transfer(caller: Address, to: Address, amount: nat) returns (r: Outcome<LedgerError>)
      modifies this
      ensures r.Pass? <==> amount <= BalanceOf(old(balances), caller)
      ensures r.Pass? ==> balances == Move(old(balances), caller, to, amount)
      ensures r.Fail? ==> r.error == InsufficientBalance && balances == old(balances)
      ensures Total(balances) == Total(old(balances))
    {
      var t := Ledger.Transfer(balances, caller, to, amount);
      if t.Ok? {
        balances := t.value;
        r := Pass;
      } else {
        r := Fail(InsufficientBalance);
      }
    }

    method Mint(caller: Address, to: Address, amount: nat) returns (r: Outcome<LedgerError>)
      modifies this
      ensures r.Pass? <==> caller == owner
      ensures r.Pass? ==> balances == Credit(old(balances), to, amount)
      ensures r.Pass? ==> Total(balances) == Total(old(balances)) + amount
      ensures r.Fail? ==> r.error == NotOwner && balances == old(balances)
    {
      if caller != owner {
        return Fail(NotOwner);
      }
      CreditAddsToTotal(balances, to, amount);
      balances := Credit(balances, to, amount);
      r := Pass;
    }

    method Burn(caller: Address, from: Address, amount: nat) returns (r: Outcome<LedgerError>)
      modifies this
      ensures r.Pass? <==> caller == owner && amount <= BalanceOf(old(balances), from)
      ensures r.Pass? ==> balances == Debit(old(balances), from, amount)
      ensures r.Pass? ==> Total(balances) + amount == Total(old(balances))
      ensures r.Fail? ==> balances == old(balances)
      ensures r.Fail? ==> r.error == if caller != owner then NotOwner else InsufficientBalance
    {
      if caller != owner {
        return Fail(NotOwner);
      }
      var b := Ledger.Burn(balances, from, amount);
      if b.Ok? {
        balances := b.value;
        r := Pass;
      } else {
        r := Fail(InsufficientBalance);
      }
    }
  }
}
