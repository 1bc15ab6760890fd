/** ERC-20 style balance ledgers, as values.  Both the governance `Token` and
    the `CustomToken` keep one of these; an address that was never credited
    holds zero.  Amounts are base units: `Tokens(n)` is n whole tokens with
    18 decimals. */
module Ledger {
  import opened Results

  type Address = nat

  type Balances = map<Address, nat>

  datatype LedgerError = InsufficientBalance | NotOwner

  /** 10^18: the number of base units in one whole token. */
  const Unit: nat := 1_000_000_000_000_000_000

  function Tokens(n: nat): nat
  {
    n * Unit
  }

  function BalanceOf(b: Balances, a: Address): nat
  {
    if a in b then b[a] else 0
  }

  /** The ledger with `a`'s balance raised by `n`. */
  function Credit(b: Balances, a: Address, n: nat): (r: Balances)
    ensures BalanceOf(r, a) == BalanceOf(b, a) + n
    ensures forall x :: x != a ==> BalanceOf(r, x) == BalanceOf(b, x)
  {
    b[a := BalanceOf(b, a) + n]
  }

  /** The ledger with `a`'s balance lowered by `n`; `a` must hold `n`. */
  function Debit(b: Balances, a: Address, n: nat): (r: Balances)
    requires n <= BalanceOf(b, a)
    ensures BalanceOf(r, a) + n == BalanceOf(b, a)
    ensures forall x :: x != a ==> BalanceOf(r, x) == BalanceOf(b, x)
  {
    b[a := BalanceOf(b, a) - n]
  }

  /** `n` units taken from `from` and given to `to`. */
  function Move(b: Balances, from: Address, to: Address, n: nat): (r: Balances)
    requires n <= BalanceOf(b, from)
    ensures from != to ==> BalanceOf(r, from) + n == BalanceOf(b, from)
    ensures from != to ==> BalanceOf(r, to) == BalanceOf(b, to) + n
    ensures from == to ==> BalanceOf(r, from) == BalanceOf(b, from)
    ensures forall x :: x != from && x != to ==> BalanceOf(r, x) == BalanceOf(b, x)
  {
    Credit(Debit(b, from, n), to, n)
  }

  /** `transfer(to, n)` sent by `from`: reverts when `from` holds less than `n`. */
  function Transfer(b: Balances, from: Address, to: Address, n: nat): (r: Result<Balances, LedgerError>)
    ensures r.Ok? <==> n <= BalanceOf(b, from)
    ensures r.Ok? && from != to ==>
              BalanceOf(r.value, from) + n == BalanceOf(b, from) && BalanceOf(r.value, to) == BalanceOf(b, to) + n
    ensures r.Ok? && from == to ==> BalanceOf(r.value, from) == BalanceOf(b, from)
    ensures r.Ok? ==> forall x :: x != from && x != to ==> BalanceOf(r.value, x) == BalanceOf(b, x)
    ensures r.Ok? ==> Total(r.value) == Total(b)
  {
    if n <= BalanceOf(b, from) then
      MoveKeepsTotal(b, from, to, n);
      Ok(Move(b, from, to, n))
    else
      Err(InsufficientBalance)
  }

  /** `burn(from, n)`: reverts when `from` holds less than `n`. */
  function Burn(b: Balances, from: Address, n: nat): (r: Result<Balances, LedgerError>)
    ensures r.Ok? <==> n <= BalanceOf(b, from)
    ensures r.Ok? ==> Total(r.value) + n == Total(b)
    ensures r.Ok? ==> BalanceOf(r.value, from) + n == BalanceOf(b, from)
    ensures r.Ok? ==> forall x :: x != from ==> BalanceOf(r.value, x) == BalanceOf(b, x)
  {
    if n <= BalanceOf(b, from) then
      SetChangesTotal(b, from, BalanceOf(b, from) - n);
      Ok(Debit(b, from, n))
    else
      Err(InsufficientBalance)
  }

  // ---------------------------------------------------------------------------
  // Total supply: the sum of all balances.

  /** The sum of the balances of the addresses in `keys`. */
  ghost function SumOver(b: Balances, keys: set<Address>): nat
    decreases keys
  {
    if keys == {} then 0
    else
      var k :| k in keys;
      BalanceOf(b, k) + SumOver(b, keys - {k})
  }

  ghost function Total(b: Balances): nat
  {
    SumOver(b, b.Keys)
  }

  /** Any member of `keys` can be split off the sum, whichever one the
      definition happened to pick. */
  lemma {:induction false} SumOverRemove(b: Balances, keys: set<Address>, a: Address)
    requires a in keys
    ensures SumOver(b, keys) == BalanceOf(b, a) + SumOver(b, keys - {a})
    decreases keys
  {
    var k :| k in keys && SumOver(b, keys) == BalanceOf(b, k) + SumOver(b, keys - {k});
    if k != a {
      SumOverRemove(b, keys - {k}, a);
      SumOverRemove(b, keys - {a}, k);
      assert keys - {k} - {a} == keys - {a} - {k};
    }
  }

  /** Ledgers that agree on `keys` have the same sum over `keys`. */
  lemma {:induction false} SumOverAgree(b: Balances, c: Balances, keys: set<Address>)
    requires forall k :: k in keys ==> BalanceOf(b, k) == BalanceOf(c, k)
    ensures SumOver(b, keys) == SumOver(c, keys)
    decreases keys
  {
    if keys != {} {
      var k :| k in keys && SumOver(b, keys) == BalanceOf(b, k) + SumOver(b, keys - {k});
      SumOverRemove(c, keys, k);
      SumOverAgree(b, c, keys - {k});
    }
  }

  /** Setting one balance to `v` changes the total by exactly the difference. */
  lemma SetChangesTotal(b: Balances, a: Address, v: nat)
    ensures Total(b[a := v]) + BalanceOf(b, a) == Total(b) + v
  {
    var c := b[a := v];
    SumOverRemove(c, c.Keys, a);
    assert c.Keys - {a} == b.Keys - {a};
    SumOverAgree(b, c, b.Keys - {a});
    if a in b {
      SumOverRemove(b, b.Keys, a);
    } else {
      assert b.Keys - {a} == b.Keys;
    }
  }

  lemma CreditAddsToTotal(b: Balances, a: Address, n: nat)
    ensures Total(Credit(b, a, n)) == Total(b) + n
  {
    SetChangesTotal(b, a, BalanceOf(b, a) + n);
  }

  lemma MoveKeepsTotal(b: Balances, from: Address, to: Address, n: nat)
    requires n <= BalanceOf(b, from)
    ensures Total(Move(b, from, to, n)) == Total(b)
  {
    SetChangesTotal(b, from, BalanceOf(b, from) - n);
    CreditAddsToTotal(Debit(b, from, n), to, n);
  }
}
