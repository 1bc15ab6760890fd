/** The scenarios of the CustomToken test suite, replayed on a freshly
    deployed contract each; every postcondition is the test's expectation. */
module CustomTokenScenarios {
  import opened Results
  import opened Ledger
  import opened Erc20

  const Owner: Address := 0
  const Addr1: Address := 1
  const Addr2: Address := 2

  method DeploymentTest() returns (name: string, symbol: string, ownerBalance: nat)
    ensures name == "CustomToken" && symbol == "CTK"
    ensures ownerBalance == Tokens(1_000_000)
  {
    var customToken := new CustomToken(Owner);
    name := customToken.name;
    symbol := customToken.symbol;
    ownerBalance := BalanceOf(customToken.balances, Owner);
  }

  method MintAndBurnTest() returns (afterMint: nat, afterBurn: nat)
    ensures afterMint == 1000
    ensures afterBurn == 500
  {
    var customToken := new CustomToken(Owner);
    var r := customToken.Mint(Owner, Addr1, 1000);
    afterMint := BalanceOf(customToken.balances, Addr1);
    r := customToken.Burn(Owner, Addr1, 500);
    afterBurn := BalanceOf(customToken.balances, Addr1);
  }

  method NonOwnerTest() returns (mint: Outcome<LedgerError>, burn: Outcome<LedgerError>, untouched: bool)
    ensures mint == Fail(NotOwner)
    ensures burn == Fail(NotOwner)
    ensures untouched
  {
    var customToken := new CustomToken(Owner);
    var before := customToken.balances;
    mint := customToken.Mint(Addr1, Addr2, 1000);
    burn := customToken.Burn(Addr1, Addr2, 500);
    untouched := customToken.balances == before;
  }
}
