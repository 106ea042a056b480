# omniutil-core accounting core, in Dafny

This project models the small accounting core of omniutil-core:

- wallets that keep a balance for each asset symbol, with `credit` and a guarded `debit`;
- the identity-bearing `OmniWallet`, which also counts successful debits in a `nonce`;
- `transfer`, which debits one wallet, credits another and returns a self-hashed `LedgerEntry`;
- the `MeritEngine`, which mints units from a USD value and tracks total supply;
- the client-side `OfflineCache` of pending transactions;
- the partner scoring rule `inspect_partner` and the partner registry.

One module per source file:

| module | file | source |
|---|---|---|
| `Wrappers` | wrappers.dfy | results in place of raised exceptions |
| `Wallets` | wallet.dfy | wallet/wallet.py |
| `OmniWallets` | omniwallet.dfy | wallet/omniwallet.py |
| `Ledger` | ledger.dfy | protocol/ledger.py |
| `Transfers` | transfer.dfy | wallet/transfer.py |
| `Merit` | merit_engine.dfy | protocol/merit_engine.py |
| `OfflineQueue` | offline_cache.dfy | wallet/offline_cache.py |
| `PartnerAI` | partner_ai.dfy | partners/ai/partner_ai.py |
| `PartnerRegistry` | partners.dfy | partners/registry/partners.py |

Objects whose fields the source updates in place are classes: `Wallet`, `OmniWallet`, `MeritEngine`, `OfflineCache`, and the registry as `Partners`. Their methods are specified against pure functions:

- `Credited` and `Debited` give a balance map after a credit or debit;
- `Registered` gives the partner table after a registration;
- sequence functions (`ApplyAll`, `Run`, `SumOfProducts`) let lemmas speak about any series of calls.

Raised exceptions become `Failure`/`Fail` values. A debit can raise in two ways:

- `InsufficientBalance`, when `balances.get(asset, 0) < amount`;
- `MissingAsset`, the `KeyError` that `balances[asset] -= amount` raises for an absent asset when `amount <= 0`.

Three facts about the code are worth stating plainly:

- `mint` adds the exact product `usd_value * base_rate * partner_factor` to the supply but returns its truncation toward zero. So the supply is the sum of the exact products, not of the units returned (`Merit.SupplyIsNotSumOfReturned`, `Merit.ReturnedTrailsSupply`).
- The hashed payload joins the five fields with no delimiter. Moving the boundary between sender and receiver therefore does not change the hash (`Ledger.BoundaryShiftCollides`); sender `"ab"` to receiver `"c"` and sender `"a"` to receiver `"bc"` is one such pair.
- Only `OmniWallet` counts debits in a `nonce`, and no amount or asset symbol is validated anywhere; the model adds no validation.

## Model

| member | source | states |
|---|---|---|
| `Wallets.Credited` | wallet/wallet.py:6-7 | the credited asset ends at its old balance (absent = 0) plus `amount`; the key set gains the asset; every other asset keeps its balance |
| `Wallets.Debited` | wallet/wallet.py:9-12 | succeeds iff the asset is present and its balance is at least `amount`; InsufficientBalance iff `get(asset,0) < amount`; MissingAsset iff the asset is absent and `amount <= 0`; on success the balance drops by exactly `amount` and stays >= 0, the key set and the other assets are unchanged |
| `Wallets.BalancesStayNonNegative` | wallet/wallet.py:6-12 | from non-negative balances, any sequence of credits with non-negative amounts and of debits leaves every balance non-negative |
| `Wallets.CreditThenDebitRestores` | wallet/wallet.py:6-12 | `credit(a,x)` then `debit(a,x)` succeeds iff the asset's balance was not negative, and then restores its balance (an absent asset is left at 0) |
| `Wallets.DebitThenCreditRestores` | wallet/wallet.py:6-12 | a successful `debit(a,x)` followed by `credit(a,x)` gives back the very same balance map |
| `Wallets.Wallet.constructor` | wallet/wallet.py:2-4 | keeps the given `wallet_id`; balances are exactly `{"MERIT": 0}` |
| `Wallets.Wallet.Credit` | wallet/wallet.py:6-7 | the balances become `Credited` of the old ones; the id cannot change |
| `Wallets.Wallet.Debit` | wallet/wallet.py:9-12 | passes iff `Debited` succeeds and then takes its balances; on failure reports `Debited`'s error and changes nothing |
| `OmniWallets.OmniWallet.constructor` | wallet/omniwallet.py:4-7 | balances `{"MERIT": 0}`, `nonce == 0`, the given opaque uid |
| `OmniWallets.OmniWallet.Credit` | wallet/omniwallet.py:9-10 | balances become `Credited` of the old ones; `nonce` unchanged |
| `OmniWallets.OmniWallet.Debit` | wallet/omniwallet.py:12-16 | on success the balances become `Debited` of the old ones and `nonce` grows by exactly 1; on failure, including an absent asset, neither balances nor `nonce` change |
| `OmniWallets.NonceCountsSuccessfulDebits` | wallet/omniwallet.py:7-16 | after any sequence of calls, `nonce` is its start value plus the number of debits that succeeded; the balances evolve exactly as a plain `Wallet`'s |
| `OmniWallets.NonceNeverDecreases` | wallet/omniwallet.py:12-16 | no sequence of calls lowers `nonce` |
| `Ledger.NaturalDigits` | protocol/ledger.py:14 | the decimal text of a natural number is non-empty, all digits, and starts with '0' only for 0 |
| `Ledger.NaturalDigitsRoundTrip` | protocol/ledger.py:14 | the digits of `n`, read back in base 10, denote `n` |
| `Ledger.DecimalString` | protocol/ledger.py:14 | the amount's text is non-empty and begins with '-' exactly for negative amounts, with digits after it |
| `Ledger.DecimalRoundTrip` | protocol/ledger.py:14 | the amount's text, read back as a signed decimal, denotes the amount |
| `Ledger.DecimalStringInjective` | protocol/ledger.py:14 | distinct amounts never render to the same text |
| `Ledger.Payload` | protocol/ledger.py:14 | the payload is as long as the five fields together, and the slice after sender and receiver reads back as the amount |
| `Ledger.BoundaryShiftCollides` | protocol/ledger.py:14 | any two sender/receiver pairs that run together to the same text give the same payload |
| `Ledger.FieldSplitCollides` | protocol/ledger.py:14 | sender/receiver `("ab","c")` and `("a","bc")` give the same payload |
| `Ledger.PayloadDeterminesFields` | protocol/ledger.py:14 | when the four text fields have the same lengths, equal payloads mean equal sender, receiver, amount, asset and timestamp |
| `Ledger.LedgerEntry.ComputeHash` | protocol/ledger.py:13-15 | the digest of the fields' payload; the same for every sender/receiver split of the same joined text |
| `Ledger.LedgerEntry.constructor` | protocol/ledger.py:5-11 | stores sender, receiver, amount and asset as given, the clock reading as timestamp, and a `hash` equal to `ComputeHash()` of those fields (`Valid()`) |
| `Ledger.SameFieldsSameHash` | protocol/ledger.py:13-15 | two entries whose stored hash matches their fields, with the same five fields and hash algorithm, store the same hash |
| `Ledger.SplitEntriesCollide` | protocol/ledger.py:11-15 | entries from "ab" to "c" and from "a" to "bc", otherwise alike, store the same hash |
| `Transfers.TransferMovesAmount` | wallet/transfer.py:4-5 | between distinct wallets the transfer succeeds iff the sender's debit does and fails with its error; on success the sender loses `amount`, the receiver gains it, their sum is conserved and other assets are unchanged |
| `Transfers.Transfer` | wallet/transfer.py:3-6 | asset defaults to "MERIT"; on debit failure returns its error, credits no one and changes neither wallet; on success updates the balances as `TransferBalances` says for distinct wallets and conserves their sum, leaves a self-transfer's balances unchanged, and returns a fresh entry with both wallet ids, the amount, the asset, the clock reading, the given hash algorithm and a stored hash equal to its recomputation |
| `Merit.TruncateTowardZero` | protocol/merit_engine.py:9 | `int(x)`: for x >= 0 the result r satisfies r <= x < r+1; for x < 0, r-1 < x <= r |
| `Merit.ReturnedTrailsSupply` | protocol/merit_engine.py:7-9 | with non-negative inputs the sum of returned units is between 0 and the accumulated supply, and short of it by less than one unit per call |
| `Merit.SupplyIsNotSumOfReturned` | protocol/merit_engine.py:8-9 | minting 0.5 USD at rate 1.0 adds 0.5 to the supply but returns 0 |
| `Merit.SupplyAfterMint` | protocol/merit_engine.py:7-8 | one more call adds its exact product to the running sum, and a call with non-negative inputs adds a non-negative amount |
| `Merit.MeritEngine.constructor` | protocol/merit_engine.py:2-4 | `base_rate` as given (default 1.0), `total_supply == 0`, no calls yet |
| `Merit.MeritEngine.Mint` | protocol/merit_engine.py:6-9 | `partner_factor` defaults to 1.0; supply grows by the exact product; returns its truncation toward zero; `base_rate` untouched; supply stays the sum of exact products of all calls; non-negative inputs never lower the supply |
| `OfflineQueue.OfflineCache.constructor` | wallet/offline_cache.py:2-3 | a new cache has no pending transactions |
| `OfflineQueue.OfflineCache.Add` | wallet/offline_cache.py:5-6 | appends `tx` after the earlier ones, in order |
| `OfflineQueue.OfflineCache.Flush` | wallet/offline_cache.py:8-11 | returns exactly the pending transactions in insertion order and leaves the cache empty |
| `OfflineQueue.FlushTwiceThenAdd` | wallet/offline_cache.py:8-11 | a second flush returns nothing, and a later add does not alter the batch the first flush returned |
| `PartnerAI.InspectPartner` | partners/ai/partner_ai.py:1-12 | score is 40/30/20/10 per set flag, in [0,100] and a multiple of 10; approved iff API with real-time or KYC, or real-time with KYC and stablecoin (score >= 60); FULL iff API, real-time and one of KYC/stablecoin (score >= 80); FULL implies approved |
| `PartnerAI.MoreFlagsNeverHurt` | partners/ai/partner_ai.py:2-11 | setting more flags never lowers the score, never revokes approval, never leaves FULL |
| `PartnerAI.ApiGates` | partners/ai/partner_ai.py:3-11 | FULL requires the API flag; approval requires API or real-time |
| `PartnerRegistry.Registered` | partners/registry/partners.py:3-8 | the key set becomes the old one plus `id`; `id` maps to the data with the inspection's mode as status and its score; other ids are unchanged |
| `PartnerRegistry.LastWriteWins` | partners/registry/partners.py:4 | registering an id twice is the same as registering only the second time |
| `PartnerRegistry.ApprovalIgnored` | partners/registry/partners.py:3-8 | flipping the inspection's approval does not change what is stored |
| `PartnerRegistry.Partners.constructor` | partners/registry/partners.py:1 | the table starts empty |
| `PartnerRegistry.Partners.RegisterPartner` | partners/registry/partners.py:3-8 | the table becomes `Registered` of the old one |

## Left out

- SHA-256 is a `digest: string -> string` value that each entry carries. The model assumes nothing of it beyond being a function. In particular it does not assume injectivity.
- `time.time()` is a parameter `now`. It is carried as the text that the float reading renders to, since Python's float-to-text conversion is not modelled.
- Wallet amounts are integers; IEEE float amounts and rounding are not modelled. An amount in the ledger payload is rendered as Python renders an `int`.
- `MeritEngine` values are exact reals. Floating-point rounding of the product is not modelled.
- `generate_uid` (wallet/identity.py) reads randomness. The OmniWallet uid is an opaque constructor parameter.
- The partner flags are read as booleans. Python truthiness of arbitrary values is not modelled.
- `PartnerRegistry.Partners`: the process-wide `PARTNERS` dictionary is an object the caller holds; the module-level sharing is not modelled.
- `Transfers.Transfer` takes `Wallet` only. An `OmniWallet` has no `wallet_id`, so passing one would update both balances and then fail; that path is not modelled.
- `Wallets.CreditThenDebitRestores` holds only when the asset's balance was not negative. A negative balance (reachable only through a negative credit) makes the debit fail, and the lemma states that.
- Concurrency: the code has no locking and runs sequentially, so none is modelled.
- The onboarding, SDK, API, front-end and presence-engine files are I/O and orchestration glue and are not part of this model.
