/** The Taricoin contract as one object: its storage is the fields of
    `Ledger`, each public function a method that updates them in place, and
    each read-only function a function of the fields. Every method is proved
    to do exactly what the state machine in `TaricoinSpec` prescribes. */
module Taricoin {
  import opened Balances
  import opened TaricoinSpec

  class Ledger {
    var balances: map<Principal, nat>
    var totalSupply: nat
    const maxSupply: nat
    var owner: Principal
    var uri: string

    /** The contract storage as a state of the specification. */
    ghost function Snapshot(): State
      reads this
    {
      State(balances, totalSupply, maxSupply, owner, uri)
    }

    ghost predicate Valid()
      reads this
    {
      TaricoinSpec.Valid(Snapshot())
    }

    /** Deployment: the whole initial supply goes to the deployer, who also
        becomes the owner. */
    constructor Genesis(deployer: Principal)
      ensures Snapshot() == TaricoinSpec.Genesis(deployer)
      ensures Valid()
    {
      balances := map[deployer := InitialSupply];
      totalSupply := InitialSupply;
      maxSupply := MaxSupply;
      owner := deployer;
      uri := InitialUri;
    }

    function GetName(): (r: string)
      ensures r == "Taricoin"
    {
      TokenName
    }

    function GetSymbol(): (r: string)
      ensures r == "TARI"
    {
      TokenSymbol
    }

    function GetDecimals(): (r: nat)
      ensures r == 6
    {
      TokenDecimals
    }

    /** `get-max-supply`: the ceiling fixed at deployment, which the supply
        never passes. */
    function GetMaxSupply(): (r: nat)
      reads this
      ensures Valid() ==> totalSupply <= r
    {
      maxSupply
    }

    /** `get-total-supply`: never above the ceiling. */
    function GetTotalSupply(): (r: nat)
      reads this
      ensures Valid() ==> r <= maxSupply
    {
      totalSupply
    }

    /** `get-balance`: 0 for an account never recorded, and never more than
        the whole supply. */
    function GetBalance(account: Principal): (r: nat)
      reads this
      ensures account !in balances ==> r == 0
      ensures Valid() ==> r <= totalSupply
    {
      BalanceAtMostSupply(Snapshot(), account);
      BalanceOf(balances, account)
    }

    /** `get-contract-owner`: the principal `Genesis` and `SetContractOwner` last
        stored. */
    function GetContractOwner(): (r: Principal)
      reads this
      ensures r == owner
    {
      owner
    }

    /** `get-token-uri`: the URI `Genesis` and `SetTokenUri` last stored. */
    function GetTokenUri(): (r: string)
      reads this
      ensures r == uri
    {
      uri
    }

    /** `transfer`: only the sender may move its own tokens. */
    method Transfer(caller: Principal, amount: nat, sender: Principal, recipient: Principal)
      returns (r: Result<bool>)
      requires Valid()
      modifies this
      ensures r == TaricoinSpec.Transfer(old(Snapshot()), caller, amount, sender, recipient).result
      ensures Snapshot() == TaricoinSpec.Transfer(old(Snapshot()), caller, amount, sender, recipient).post
      ensures Valid()
    {
      if caller != sender {
        return Err(NotTokenOwner);
      }
      if amount == 0 {
        return Err(InvalidAmount);
      }
      var held := BalanceOf(balances, sender);
      if held < amount {
        return Err(InsufficientBalance);
      }
      balances := balances[sender := held - amount];
      balances := balances[recipient := BalanceOf(balances, recipient) + amount];
      r := Ok(true);
    }

    /** `mint`: only the owner creates tokens, up to the ceiling. */
    method Mint(caller: Principal, amount: nat, recipient: Principal) returns (r: Result<bool>)
      requires Valid()
      modifies this
      ensures r == TaricoinSpec.Mint(old(Snapshot()), caller, amount, recipient).result
      ensures Snapshot() == TaricoinSpec.Mint(old(Snapshot()), caller, amount, recipient).post
      ensures Valid()
    {
      if caller != owner {
        return Err(OwnerOnly);
      }
      if amount == 0 {
        return Err(InvalidAmount);
      }
      if totalSupply + amount > maxSupply {
        return Err(SupplyCapExceeded);
      }
      balances := balances[recipient := BalanceOf(balances, recipient) + amount];
      totalSupply := totalSupply + amount;
      r := Ok(true);
    }

    /** `burn`: only the holder destroys its own tokens. */
    method Burn(caller: Principal, amount: nat, account: Principal) returns (r: Result<bool>)
      requires Valid()
      modifies this
      ensures r == TaricoinSpec.Burn(old(Snapshot()), caller, amount, account).result
      ensures Snapshot() == TaricoinSpec.Burn(old(Snapshot()), caller, amount, account).post
      ensures Valid()
    {
      if caller != account {
        return Err(NotTokenOwner);
      }
      if amount == 0 {
        return Err(InvalidAmount);
      }
      var held := BalanceOf(balances, account);
      if held < amount || totalSupply < amount {
        return Err(InsufficientBalance);
      }
      balances := balances[account := held - amount];
      totalSupply := totalSupply - amount;
      r := Ok(true);
    }

    /** `set-token-uri`: owner only. */
    method SetTokenUri(caller: Principal, newUri: string) returns (r: Result<bool>)
      requires Valid()
      modifies this
      ensures r == TaricoinSpec.SetTokenUri(old(Snapshot()), caller, newUri).result
      ensures Snapshot() == TaricoinSpec.SetTokenUri(old(Snapshot()), caller, newUri).post
      ensures Valid()
    {
      if caller != owner {
        return Err(OwnerOnly);
      }
      uri := newUri;
      r := Ok(true);
    }

    /** `set-contract-owner`: owner only; takes effect with the next call. */
    method SetContractOwner(caller: Principal, newOwner: Principal) returns (r: Result<bool>)
      requires Valid()
      modifies this
      ensures r == TaricoinSpec.SetContractOwner(old(Snapshot()), caller, newOwner).result
      ensures Snapshot() == TaricoinSpec.SetContractOwner(old(Snapshot()), caller, newOwner).post
      ensures Valid()
    {
      if caller != owner {
        return Err(OwnerOnly);
      }
      owner := newOwner;
      r := Ok(true);
    }
  }
}
