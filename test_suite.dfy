/** The contract's test suite replayed against `Ledger`: one deployment, then
    every public call of the suite in its order, each followed by the reads
    the suite makes. The blocks share one ledger, so later expectations hold
    only because of earlier calls (wallet 1 holds 5001000000 after the mint
    because of the first transfer). */
module TaricoinTests {
  import opened Balances
  import opened TaricoinSpec
  import opened Taricoin

  /** What the read-only calls of the suite report about `l`. */
  ghost predicate Reads(l: Ledger, deployer: Principal, wallet1: Principal, wallet2: Principal,
                        deployerBalance: nat, wallet1Balance: nat, wallet2Balance: nat,
                        supply: nat, owner: Principal, uri: string)
    reads l
  {
    && l.Valid()
    && l.GetBalance(deployer) == deployerBalance
    && l.GetBalance(wallet1) == wallet1Balance
    && l.GetBalance(wallet2) == wallet2Balance
    && l.GetTotalSupply() == supply
    && l.GetMaxSupply() == 1000000000000000
    && l.GetContractOwner() == owner
    && l.GetTokenUri() == uri
  }

  /** After the suite's burn, the deployer still holds 99999000000 and
      wallet 1 holds 5000000000, so together they already hold 104999000000:
      whenever the supply is the sum of the balances it is at least that, and
      the 104000000000 the suite expects at that point cannot be read. */
  lemma SuiteSupplyExpectationUnreachable(s: State, deployer: Principal, wallet1: Principal)
    requires Valid(s) && deployer != wallet1
    requires Balance(s, deployer) == 99999000000 && Balance(s, wallet1) == 5000000000
    ensures s.totalSupply >= 104999000000
    ensures s.totalSupply != 104000000000
  {
    TwoBalancesAtMostSum(s.balances, deployer, wallet1);
  }

  /** Deployment and the reads that follow it. */
  method ReplayGenesis(deployer: Principal, wallet1: Principal, wallet2: Principal) returns (ledger: Ledger)
    requires deployer != wallet1 && deployer != wallet2 && wallet1 != wallet2
    ensures fresh(ledger)
    ensures Reads(ledger, deployer, wallet1, wallet2, 100000000000, 0, 0, 100000000000,
                  deployer, "https://taricoin.com/metadata.json")
  {
    ledger := new Ledger.Genesis(deployer);
    assert ledger.GetName() == "Taricoin";
    assert ledger.GetSymbol() == "TARI";
    assert ledger.GetDecimals() == 6;
  }

  /** The transfer block: one transfer, then two rejected ones. */
  method ReplayTransfers(ledger: Ledger, deployer: Principal, wallet1: Principal, wallet2: Principal)
    returns (results: seq<Result<bool>>)
    requires deployer != wallet1 && deployer != wallet2 && wallet1 != wallet2
    requires Reads(ledger, deployer, wallet1, wallet2, 100000000000, 0, 0, 100000000000,
                   deployer, "https://taricoin.com/metadata.json")
    modifies ledger
    ensures results == [Ok(true), Err(InvalidAmount), Err(NotTokenOwner)]
    ensures Reads(ledger, deployer, wallet1, wallet2, 99999000000, 1000000, 0, 100000000000,
                  deployer, "https://taricoin.com/metadata.json")
  {
    var r := ledger.Transfer(deployer, 1000000, deployer, wallet1);
    assert r == Ok(true);
    results := [r];
    r := ledger.Transfer(deployer, 0, deployer, wallet1);
    assert Code(r.error) == Some(103);
    results := results + [r];
    r := ledger.Transfer(wallet1, 1000000, deployer, wallet2);
    assert Code(r.error) == Some(101);
    results := results + [r];
  }

  /** The minting block: the owner mints to wallet 1, then two rejected mints. */
  method ReplayMinting(ledger: Ledger, deployer: Principal, wallet1: Principal, wallet2: Principal)
    returns (results: seq<Result<bool>>)
    requires deployer != wallet1 && deployer != wallet2 && wallet1 != wallet2
    requires Reads(ledger, deployer, wallet1, wallet2, 99999000000, 1000000, 0, 100000000000,
                   deployer, "https://taricoin.com/metadata.json")
    modifies ledger
    ensures results == [Ok(true), Err(OwnerOnly), Err(InvalidAmount)]
    ensures Reads(ledger, deployer, wallet1, wallet2, 99999000000, 5001000000, 0, 105000000000,
                  deployer, "https://taricoin.com/metadata.json")
  {
    var r := ledger.Mint(deployer, 5000000000, wallet1);
    assert r == Ok(true);
    results := [r];
    r := ledger.Mint(wallet1, 1000000, wallet2);
    assert Code(r.error) == Some(100);
    results := results + [r];
    r := ledger.Mint(deployer, 0, wallet1);
    assert Code(r.error) == Some(103);
    results := results + [r];
  }

  /** The burning block: wallet 1 burns 1000000 of its own, then two rejected
      burns. The suite expects a supply of 104000000000 after the burn; one
      burn of 1000000 from 105000000000 leaves 104999000000, and the lemma
      SuiteSupplyExpectationUnreachable shows the suite's figure cannot be
      read next to the balances it reads. */
  method ReplayBurning(ledger: Ledger, deployer: Principal, wallet1: Principal, wallet2: Principal)
    returns (results: seq<Result<bool>>)
    requires deployer != wallet1 && deployer != wallet2 && wallet1 != wallet2
    requires Reads(ledger, deployer, wallet1, wallet2, 99999000000, 5001000000, 0, 105000000000,
                   deployer, "https://taricoin.com/metadata.json")
    modifies ledger
    ensures results == [Ok(true), Err(NotTokenOwner), Err(InvalidAmount)]
    ensures Reads(ledger, deployer, wallet1, wallet2, 99999000000, 5000000000, 0, 104999000000,
                  deployer, "https://taricoin.com/metadata.json")
  {
    var r := ledger.Burn(wallet1, 1000000, wallet1);
    assert r == Ok(true);
    results := [r];
    r := ledger.Burn(wallet2, 1000000, wallet1);
    assert Code(r.error) == Some(101);
    results := results + [r];
    r := ledger.Burn(wallet1, 0, wallet1);
    assert Code(r.error) == Some(103);
    results := results + [r];
  }

  /** The administrative block: the owner replaces the URI and hands the
      contract to wallet 2; wallet 1 is refused both times. */
  method ReplayAdministration(ledger: Ledger, deployer: Principal, wallet1: Principal, wallet2: Principal,
                              wallet3: Principal)
    returns (results: seq<Result<bool>>)
    requires deployer != wallet1 && deployer != wallet2 && wallet1 != wallet2
    requires Reads(ledger, deployer, wallet1, wallet2, 99999000000, 5000000000, 0, 104999000000,
                   deployer, "https://taricoin.com/metadata.json")
    modifies ledger
    ensures results == [Ok(true), Err(OwnerOnly), Ok(true), Err(OwnerOnly)]
    ensures Reads(ledger, deployer, wallet1, wallet2, 99999000000, 5000000000, 0, 104999000000,
                  wallet2, "https://newuri.com/metadata.json")
  {
    var r := ledger.SetTokenUri(deployer, "https://newuri.com/metadata.json");
    assert r == Ok(true);
    results := [r];
    r := ledger.SetTokenUri(wallet1, "https://malicious.com");
    assert Code(r.error) == Some(100);
    results := results + [r];
    r := ledger.SetContractOwner(deployer, wallet2);
    assert r == Ok(true);
    results := results + [r];
    r := ledger.SetContractOwner(wallet1, wallet3);
    assert Code(r.error) == Some(100);
    results := results + [r];
  }

  /** The whole suite on one ledger, in order: every response, and what the
      read-only calls report at the end. */
  method ReplayTestSuite(deployer: Principal, wallet1: Principal, wallet2: Principal, wallet3: Principal)
    returns (results: seq<Result<bool>>, balance1: nat, supply: nat, owner: Principal, uri: string)
    requires deployer != wallet1 && deployer != wallet2 && wallet1 != wallet2
    ensures results == [
      Ok(true), Err(InvalidAmount), Err(NotTokenOwner),
      Ok(true), Err(OwnerOnly), Err(InvalidAmount),
      Ok(true), Err(NotTokenOwner), Err(InvalidAmount),
      Ok(true), Err(OwnerOnly),
      Ok(true), Err(OwnerOnly)]
    ensures balance1 == 5000000000 && supply == 104999000000
    ensures owner == wallet2 && uri == "https://newuri.com/metadata.json"
  {
    var ledger := ReplayGenesis(deployer, wallet1, wallet2);
    var transfers := ReplayTransfers(ledger, deployer, wallet1, wallet2);
    var mints := ReplayMinting(ledger, deployer, wallet1, wallet2);
    var burns := ReplayBurning(ledger, deployer, wallet1, wallet2);
    var admin := ReplayAdministration(ledger, deployer, wallet1, wallet2, wallet3);
    results := transfers + mints + burns + admin;
    balance1 := ledger.GetBalance(wallet1);
    supply := ledger.GetTotalSupply();
    owner := ledger.GetContractOwner();
    uri := ledger.GetTokenUri();
  }
}
