# Taricoin ledger in Dafny

Taricoin (TARI) is a fungible token whose Clarity contract keeps:
- a balance per principal, where a principal never recorded holds 0;
- a total supply, capped by a maximum supply fixed at deployment;
- a single contract owner;
- a token URI.

Its public functions are `transfer`, `mint`, `burn`, `set-token-uri` and `set-contract-owner`. Each one checks who is calling and either commits completely or answers `(err uN)` and changes nothing. The read-only functions report the name, symbol, decimals, maximum supply, total supply, balances, owner and URI.

The contract's own source is not part of this model. The behaviour modelled here is the one its test suite (`taricoin-contract/tests/taricoin.test.ts`) pins down:
- the deployment values;
- the exact balance and supply changes made by transfer, mint and burn;
- the owner-only administrative setters;
- the error codes 100 (owner only), 101 (not the token owner) and 103 (invalid amount).

The project has four modules:

- `Balances` (`balances.dfy`): a balance table as `map<K, nat>`, read with a default of 0.
  - `Sum` is the sum of all balances.
  - `Credit` and `Debit` change one balance. Their contracts say how the sum moves.
  - The lemmas split any one entry off the sum. They show that no balance, and no two balances together, exceed it.
- `TaricoinSpec` (`taricoin_spec.dfy`): the ledger as a pure state machine.
  - `State` holds the contract storage.
  - Each public function is a function from a state, a caller and the arguments to an `Outcome`: the response plus the next state.
  - `Valid` is the ledger invariant: the supply equals the sum of the balances and is at most the ceiling.
  - `Step` and `Run` replay any sequence of calls, and the lemmas prove that every reachable state is valid.
- `Taricoin` (`taricoin.dfy`): the contract as the class `Ledger`.
  - Its fields are the storage. `maxSupply` is a `const`.
  - Each public function is a method that updates the fields in place. Its `ensures` ties the response and the new storage to the matching `TaricoinSpec` function applied to the old storage, and it keeps `Valid()`.
  - The read-only functions are functions of the fields.
- `TaricoinTests` (`test_suite.dfy`): the test suite replayed on one `Ledger`.
  - The suite runs in order against a single deployment, so later expectations depend on earlier calls. The replay keeps that order.
  - `ReplayGenesis` replays the five top-level `it` blocks that read the freshly deployed ledger. `ReplayTransfers`, `ReplayMinting`, `ReplayBurning` and `ReplayAdministration` each replay one inner `describe` block. Each of these methods states, through the getters, what the suite reads before and after its calls.
  - `ReplayTestSuite` stands for the outer `describe`: it chains the five on one ledger.

Principals are compared only for equality. The memo argument of `transfer` is not interpreted, so the model does not carry it.

## Model

| member | source | states |
|---|---|---|
| `TaricoinSpec.Genesis` | taricoin-contract/tests/taricoin.test.ts:13-49 | After deployment the deployer holds the whole supply of 100000000000 and every other account holds 0. The ceiling is 1000000000000000, the owner is the deployer and the URI is "https://taricoin.com/metadata.json". The state satisfies the ledger invariant. |
| `TaricoinSpec.Transfer` | taricoin-contract/tests/taricoin.test.ts:51-99 | A transfer succeeds (answering `true`) exactly when the caller is the sender and 0 < amount <= the sender's balance. A caller other than the sender gets 101 (`NotTokenOwner`). An amount of 0 gets 103 (`InvalidAmount`). An amount above the sender's balance gets `InsufficientBalance`. A rejected call leaves the state identical. On success the sender loses exactly `amount`, the recipient gains it, and every other balance, the supply, the owner and the URI are unchanged. The invariant is preserved. |
| `TaricoinSpec.Mint` | taricoin-contract/tests/taricoin.test.ts:102-151 | A mint succeeds exactly when the caller is the owner, amount > 0 and the new supply stays within the ceiling. A non-owner gets 100 (`OwnerOnly`), an amount of 0 gets 103, and an amount that would pass the ceiling gets `SupplyCapExceeded`. A rejected call changes nothing. On success the recipient's balance and the total supply both grow by exactly `amount` and nothing else changes. The invariant is preserved. |
| `TaricoinSpec.Burn` | taricoin-contract/tests/taricoin.test.ts:154-203 | In a valid state, a burn succeeds exactly when the caller is the account and 0 < amount <= its balance. A caller other than the account gets 101, an amount of 0 gets 103, and an amount above the balance gets `InsufficientBalance`. A rejected call changes nothing. On success the account's balance and the total supply both shrink by exactly `amount` and nothing else changes. The invariant is preserved. |
| `TaricoinSpec.SetTokenUri` | taricoin-contract/tests/taricoin.test.ts:207-236 | Succeeds exactly when the caller is the owner, and then replaces the URI and nothing else. Otherwise the answer is 100 and the state is unchanged. |
| `TaricoinSpec.SetContractOwner` | taricoin-contract/tests/taricoin.test.ts:238-265 | Succeeds exactly when the caller is the owner, and then replaces the owner and nothing else. Otherwise the answer is 100 and the state is unchanged. |
| `TaricoinSpec.BalanceAtMostSupply` | taricoin-contract/tests/taricoin.test.ts:31-38 | In a valid state no account's balance exceeds the total supply. |
| `TaricoinSpec.TransferRoundTrip` | taricoin-contract/tests/taricoin.test.ts:52-79 | After a successful transfer from a to b, the same transfer back from b to a succeeds and restores every balance and every other field. |
| `TaricoinSpec.MintThenBurnRestores` | taricoin-contract/tests/taricoin.test.ts:103-183 | In a valid state, after a successful mint to an account, that account can burn the same amount, and doing so restores every balance and the supply. |
| `TaricoinSpec.OwnerHandoff` | taricoin-contract/tests/taricoin.test.ts:238-265 | After the owner hands the contract to a different principal, the old owner is refused with 100 on mint, set-token-uri and set-contract-owner at once, and the new owner may set the URI. |
| `TaricoinSpec.Step` | taricoin-contract/tests/taricoin.test.ts:55-264 | Any single public call keeps the invariant and the ceiling. A rejected call leaves the state identical. |
| `TaricoinSpec.RunPreservesValid` | taricoin-contract/tests/taricoin.test.ts:55-264 | Any sequence of public calls from a valid state ends in a valid state with the same ceiling. The proof is by induction on the sequence. |
| `TaricoinSpec.ReachableStatesAreValid` | taricoin-contract/tests/taricoin.test.ts:31-38 | In every state reachable from deployment, the supply equals the sum of the balances, is at most 1000000000000000, and bounds every balance. |
| `Taricoin.Ledger.Genesis` | taricoin-contract/tests/taricoin.test.ts:13-49 | The constructor builds exactly `TaricoinSpec.Genesis(deployer)`, which satisfies the invariant. |
| `Taricoin.Ledger.GetName` | taricoin-contract/tests/taricoin.test.ts:15-16 | `get-name` is "Taricoin". |
| `Taricoin.Ledger.GetSymbol` | taricoin-contract/tests/taricoin.test.ts:19-20 | `get-symbol` is "TARI". |
| `Taricoin.Ledger.GetDecimals` | taricoin-contract/tests/taricoin.test.ts:23-24 | `get-decimals` is 6. |
| `Taricoin.Ledger.GetMaxSupply` | taricoin-contract/tests/taricoin.test.ts:27-28 | `get-max-supply` is never below the total supply of a valid ledger. |
| `Taricoin.Ledger.GetTotalSupply` | taricoin-contract/tests/taricoin.test.ts:36-38 | `get-total-supply` never exceeds the ceiling of a valid ledger. |
| `Taricoin.Ledger.GetBalance` | taricoin-contract/tests/taricoin.test.ts:31-33 | `get-balance` is 0 for an account never recorded, and never exceeds the total supply of a valid ledger. |
| `Taricoin.Ledger.GetContractOwner` | taricoin-contract/tests/taricoin.test.ts:41-44 | `get-contract-owner` returns the owner field. `Taricoin.Ledger.Genesis` sets it to the deployer and `Taricoin.Ledger.SetContractOwner` replaces it, as the read at lines 248-254 shows. |
| `Taricoin.Ledger.GetTokenUri` | taricoin-contract/tests/taricoin.test.ts:46-49 | `get-token-uri` returns the URI field. `Taricoin.Ledger.Genesis` sets it to the initial URI and `Taricoin.Ledger.SetTokenUri` replaces it, as the read at lines 219-225 shows. |
| `TaricoinSpec.Code` | taricoin-contract/tests/taricoin.test.ts:81-99 | The numeric error table: `OwnerOnly` is 100, `NotTokenOwner` is 101 and `InvalidAmount` is 103, each in both directions. The two arithmetic guards, and only they, have no code. |
| `Taricoin.Ledger.Transfer` | taricoin-contract/tests/taricoin.test.ts:55-99 | Updates the balance table in place. The response and the new storage are those of `TaricoinSpec.Transfer` on the old storage, and the invariant is kept. |
| `Taricoin.Ledger.Mint` | taricoin-contract/tests/taricoin.test.ts:106-150 | Updates the balance table and the supply in place, as `TaricoinSpec.Mint` prescribes, and keeps the invariant. |
| `Taricoin.Ledger.Burn` | taricoin-contract/tests/taricoin.test.ts:158-202 | Updates the balance table and the supply in place, as `TaricoinSpec.Burn` prescribes, and keeps the invariant. |
| `Taricoin.Ledger.SetTokenUri` | taricoin-contract/tests/taricoin.test.ts:210-235 | Overwrites the URI field, as `TaricoinSpec.SetTokenUri` prescribes. |
| `Taricoin.Ledger.SetContractOwner` | taricoin-contract/tests/taricoin.test.ts:239-264 | Overwrites the owner field, as `TaricoinSpec.SetContractOwner` prescribes. |
| `TaricoinTests.ReplayGenesis` | taricoin-contract/tests/taricoin.test.ts:13-49 | Right after deployment the reads give a deployer balance and supply of 100000000000, a ceiling of 1000000000000000, the deployer as owner and the initial URI. |
| `TaricoinTests.ReplayTransfers` | taricoin-contract/tests/taricoin.test.ts:51-100 | The three transfer calls answer `ok true`, 103 and 101, and leave the deployer with 99999000000 and wallet 1 with 1000000 while the supply stays 100000000000. |
| `TaricoinTests.ReplayMinting` | taricoin-contract/tests/taricoin.test.ts:102-152 | The three mint calls answer `ok true`, 100 and 103, and leave wallet 1 with 5001000000 and a supply of 105000000000. |
| `TaricoinTests.ReplayBurning` | taricoin-contract/tests/taricoin.test.ts:154-204 | The three burn calls answer `ok true`, 101 and 103, and leave wallet 1 with 5000000000 and a supply of 104999000000 (see Findings). |
| `TaricoinTests.ReplayAdministration` | taricoin-contract/tests/taricoin.test.ts:206-266 | The four administrative calls answer `ok true`, 100, `ok true` and 100. Afterwards the URI is "https://newuri.com/metadata.json", the owner is wallet 2, and the balances are untouched. |
| `TaricoinTests.ReplayTestSuite` | taricoin-contract/tests/taricoin.test.ts:12-267 | The whole suite on one ledger gives the thirteen responses in order and ends with wallet 1 at 5000000000, a supply of 104999000000, wallet 2 as owner and the new URI. |
| `TaricoinTests.SuiteSupplyExpectationUnreachable` | taricoin-contract/tests/taricoin.test.ts:176-182 | When the deployer holds 99999000000 and wallet 1 holds 5000000000 in a valid state, the supply is at least 104999000000, so it cannot be 104000000000. |

## Left out

- The contract source is not part of this model. Everything here rests on what the test suite observes, and its rows cite the suite.
- The test runtime (simnet accounts, `callPublicFn`, `callReadOnlyFn`, the vitest matchers) is not modelled. Principals are plain values compared for equality. The four wallets of the suite are parameters required to be distinct where the suite relies on it.
- The `memo` argument of `transfer` is not modelled. The contract carries it without reading it.
- The order in which checks fire when several would fail is not evidenced by the suite, which never combines a wrong caller with a zero amount. The model checks authorization first, then the amount, then the arithmetic guard.
- Insufficient balance on transfer or burn, and minting past the ceiling, are rejected with the errors `InsufficientBalance` and `SupplyCapExceeded`. These have no numeric code (`Code` gives `None`), because no test shows the code the contract answers with.
- Burn also rejects an amount above the total supply. That can only happen in a state that breaks the invariant, which no call reaches.
- A transfer whose sender is also its recipient succeeds in the model and changes nothing. Clarity's built-in fungible-token transfer refuses such a transfer, but the suite does not exercise it, so no code is modelled.
- Amounts are unbounded `nat` instead of Clarity's 128-bit `uint`. Overflow cannot happen: every reachable supply, and so every balance, is at most 1000000000000000.
- The read-only functions return the bare value rather than `(ok value)`, because they always succeed.
- Persistence of contract storage and the serialization of calls are left out. Both are done by the blockchain host.

## Findings

| source | as written | input that shows it | evidently intended | confidence | as-written member | corrected member |
|---|---|---|---|---|---|---|
| taricoin-contract/tests/taricoin.test.ts:182 | After wallet 1 burns 1000000 tokens, the suite expects a total supply of 104000000000. | The suite's own sequence: the supply is 105000000000 after the mint (line 130), and the burn of 1000000 (line 156) leaves wallet 1 at 5000000000 (line 173) with the deployer still at 99999000000 (line 70). Those two balances alone sum to 104999000000. | A supply of 104999000000 (105000000000 − 1000000). | High; the burn amount and the balance read at line 173 agree with each other. Not executed. | `TaricoinTests.SuiteSupplyExpectationUnreachable` | `TaricoinTests.ReplayBurning` |
