# Cosmos accounts, search cache and crowdfunding rules — a Dafny model

This project models three parts of a multi-chain client:

- **The Cosmos account layer.** `CosmosAccounts` is the registry, mapping each address to one `CosmosAccount`. It looks an address up or creates a bare account, and the account's constructor files itself in the store. The registry also builds accounts from a mnemonic or seed, and has `init`/`deinit`. `CosmosAccount` binds a wallet and signs a sign document or a single staking message. It keeps a balance cache that `updateBalance` refreshes from the chain's balance query, and it builds descriptors for five transactions: send, delegate, undelegate, redelegate and withdraw reward.
- **The search cache.** A dictionary from search key to `{ loaded }` entries, with one distinguished key (`COMMONWEALTH_ALL_RESULTS`) for all results. Its page size is the constant `SearchCache.SearchPageSize` = 50.
- **Rules of the crowdfunding protocol controller.** A project's status comes from its deadline, the current time and its funded flag. `retrieveProjects` collects one record per project address. The project-creation stub computes an end time and returns a fixed result. `init` and `deinit` change the store.

Modules:

- `Wrappers`: `Option` and `Result`.
- `Numerals`: the decimal rendering of amounts and its parser.
- `CosmosTypes`: tokens, chain metadata, query responses, wallets, signatures and transaction arguments.
- `CosmosBalance`: the balance-update rule as a function, with its lemmas.
- `Cosmos`: the two classes.
- `SearchCache`
- `CwProtocol`

Collaborators are inputs to the model:

- The chain's balance query becomes an `AccountQuery` value: it threw, it returned nothing, or it returned a response.
- Wallet derivation from a mnemonic becomes an `Option<HdWallet>`, where `None` means the phrase was refused.
- `JSON.parse` of a sign document becomes a `parse` function argument.
- `amount.format()` becomes a `format` function argument.
- Contract reads become a `read: Address -> ProjectReading` argument.
- The current time becomes `nowMs`.

`Chain.tx` and `createTXModalData` are represented by the records they receive: `TxFn`/`TxCall` and `TxModalData`. `Chain.coins(n)` is `CosmosTypes.Coins`, which gives `n` base units of the chain's denomination. The second argument of `coins(bal, true)` is treated as the collaborator's base-unit flag, so the model drops it: both calls give base units. A JavaScript `TypeError` from reading an undefined `_Chain` or `_client` is the error value `ChainUnbound` or `ClientUnset`.

The account store is a map from address to account object. Object identity serves as the account id. The store's own source is not part of this model. Its `add` is modelled as filing the account under its address and replacing any earlier entry. Its `getByAddress`, which throws on a miss, is modelled as map membership.

Edge cases of the JavaScript runtime and libraries that the rules depend on are written out:

- `BN.toNumber()` refuses a deadline of 2^53 ms or more.
- A `Date` past 8.64e15 ms is invalid, compares as NaN, and so leaves a project "In Progress".
- `formatBytes32String` refuses a name of more than 31 UTF-8 bytes.

## Model

| member | source | states |
|---|---|---|
| `Cosmos.CosmosAccount.constructor` | client/scripts/controllers/chain/cosmos/account.ts:47-60 | a new account has no wallet, client or cached balance, and is added to its registry's store under its address |
| `Cosmos.CosmosAccount.SetWallet` | client/scripts/controllers/chain/cosmos/account.ts:62-67 | wallet and encoded public key are stored; the signing client is bound to the chain's url and the wallet's address; with no chain the call fails after the first two assignments and the client is unchanged |
| `Cosmos.CosmosAccount.SignMessage` | client/scripts/controllers/chain/cosmos/account.ts:80-88 | a payload that does not parse fails first; with no wallet the call fails with WalletRequired; otherwise the signature is by the wallet's address over the parsed document |
| `Cosmos.CosmosAccount.SignMsg` | client/scripts/controllers/chain/cosmos/account.ts:90-93 | the client signs exactly one message, `[msg]`, with the given fee and memo; with no client the call fails |
| `Cosmos.CosmosAccount.UpdateBalance` | client/scripts/controllers/chain/cosmos/account.ts:95-124 | the new cache and the resolved value are exactly `AfterUpdate` of the old cache and the query outcome; with no chain it rejects and leaves the cache alone |
| `Cosmos.CosmosAccount.Balance` | client/scripts/controllers/chain/cosmos/account.ts:45 | reading the balance always runs an update first and resolves with the cache as it stands afterwards |
| `Cosmos.CosmosAccount.SendBalanceTx` | client/scripts/controllers/chain/cosmos/account.ts:126-147 | the deferred call sends MsgSend from this address with the memo (default '') and the chain's denomination for any gas; the argument is the recipient and one amount in decimal base units with the token's denomination; the callback refreshes sender and recipient only on success; building fails only with no chain |
| `Cosmos.CosmosAccount.DelegateTx` | client/scripts/controllers/chain/cosmos/account.ts:149-164 | the deferred call sends MsgDelegate with validator, decimal amount and denomination; the descriptor is tagged MsgDelegate and has no callback |
| `Cosmos.CosmosAccount.UndelegateTx` | client/scripts/controllers/chain/cosmos/account.ts:166-181 | the deferred call sends MsgUndelegate with validator, decimal amount and denomination; tagged MsgUndelegate, no callback |
| `Cosmos.CosmosAccount.RedelegateTx` | client/scripts/controllers/chain/cosmos/account.ts:183-199 | the deferred call sends MsgRedelegate with source and destination validators, decimal amount and denomination; tagged MsgRedelegate, no callback |
| `Cosmos.CosmosAccount.WithdrawDelegationRewardTx` | client/scripts/controllers/chain/cosmos/account.ts:201-212 | as written: the deferred call sends MsgWithdrawDelegationReward with the validator, but the descriptor is tagged MsgDelegate |
| `Cosmos.CosmosAccount.WithdrawTagMismatch` | client/scripts/controllers/chain/cosmos/account.ts:203-209 | the withdraw descriptor's tag differs from the message type it sends |
| `Cosmos.CosmosAccount.WithdrawDelegationRewardTxTagged` | client/scripts/controllers/chain/cosmos/account.ts:201-212 | corrected withdraw builder: tag and sent message type agree |
| `Cosmos.CosmosAccounts.constructor` | client/scripts/controllers/chain/cosmos/account.ts:215-234 | a new registry is uninitialised, has no chain and an empty store |
| `Cosmos.CosmosAccounts.Add` | client/scripts/controllers/chain/cosmos/account.ts:59 | the account is filed under its own address; every stored account stays filed under its own address |
| `Cosmos.CosmosAccounts.FromAddress` | client/scripts/controllers/chain/cosmos/account.ts:236-245 | a stored address returns the stored account and leaves the store as it was; a missing one returns a fresh bare account on the registry's chain and bound to this registry, now stored under that address |
| `Cosmos.CosmosAccounts.Get` | client/scripts/controllers/chain/cosmos/account.ts:225-227 | the same contract as FromAddress |
| `Cosmos.CosmosAccounts.FromAddressIfExists` | client/scripts/controllers/chain/cosmos/account.ts:247-253 | returns the stored account exactly when the address is present, none otherwise; as a function it cannot change the store |
| `Cosmos.CosmosAccounts.FromMnemonic` | client/scripts/controllers/chain/cosmos/account.ts:255-262 | as written: an invalid phrase changes nothing; otherwise a fresh account for the wallet's address replaces whatever was stored there, records the mnemonic and gets the wallet and its secp256k1 public key; with no chain it is stored but the call fails |
| `Cosmos.CosmosAccounts.FromSeed` | client/scripts/controllers/chain/cosmos/account.ts:263-265 | the same as FromMnemonic with the seed as phrase |
| `Cosmos.CosmosAccounts.FromMnemonicSingleInstance` | client/scripts/controllers/chain/cosmos/account.ts:255-262 | corrected: an address already stored keeps its account object, which gets the mnemonic, the wallet and its public key, and (with a chain) the signing client, keeping its balance and, with no chain, its client; a missing address gets a fresh account; accounts at other addresses are unchanged |
| `Cosmos.CosmosAccounts.Init` | client/scripts/controllers/chain/cosmos/account.ts:272-275 | binds the chain, sets initialized, store unchanged |
| `Cosmos.CosmosAccounts.Deinit` | client/scripts/controllers/chain/cosmos/account.ts:267-270 | clears the store and the initialized flag; the chain is kept |
| `Cosmos.FromAddressTwice` | client/scripts/controllers/chain/cosmos/account.ts:236-245 | two lookups of one address return the same object, which the store then holds |
| `Cosmos.FromMnemonicDisplaces` | client/scripts/controllers/chain/cosmos/account.ts:255-262 | a mnemonic login for a stored address leaves a different object in the store than the one looked up before |
| `Cosmos.DeinitTwice` | client/scripts/controllers/chain/cosmos/account.ts:267-270 | deinit twice leaves the same state as once |
| `CosmosBalance.AfterUpdate` | client/scripts/controllers/chain/cosmos/account.ts:95-124 | a thrown query resets the cache to zero of the chain's denomination and resolves undefined; an empty response keeps the cache and resolves undefined; a response always leaves a balance and resolves with it |
| `CosmosBalance.LastMatchingCoinWins` | client/scripts/controllers/chain/cosmos/account.ts:109-118 | when several coins have the chain's denomination, the last of them sets the balance |
| `CosmosBalance.NoMatchingCoinKeepsCache` | client/scripts/controllers/chain/cosmos/account.ts:109-118 | coins of other denominations leave the cached balance untouched |
| `CosmosBalance.OtherDenominationsIgnored` | client/scripts/controllers/chain/cosmos/account.ts:110-117 | dropping every coin of another denomination does not change the outcome of the loop |
| `CosmosBalance.ScanCases` | client/scripts/controllers/chain/cosmos/account.ts:110-117 | the loop is either the identity on the cache or independent of it |
| `CosmosBalance.ScanSettles` | client/scripts/controllers/chain/cosmos/account.ts:110-117 | running the loop twice over the same coins is the same as once |
| `CosmosBalance.ResponseSettlesBalance` | client/scripts/controllers/chain/cosmos/account.ts:109-123 | after a response the balance is the last matching coin; with no matching coin a cached balance survives, and zero is used only when nothing was cached; the call returns the cache |
| `CosmosBalance.UpdateIdempotent` | client/scripts/controllers/chain/cosmos/account.ts:95-124 | two updates that see the same query outcome leave the same cache and result as one |
| `CosmosTypes.AmountString` | client/scripts/controllers/chain/cosmos/account.ts:129 | an amount is serialised as a decimal string of its base units, which parses back to exactly that amount |
| `Numerals.DecimalString` | client/scripts/controllers/chain/cosmos/account.ts:152 | the rendering of `toString()` is a non-empty digit string without leading zeros |
| `Numerals.ParseDecimalString` | client/scripts/controllers/chain/cosmos/account.ts:152 | parsing the rendered amount gives back the amount |
| `SearchCache.SearchPageSizeIsFifty` | client/scripts/controllers/server/search_cache.ts:4 | the search page size is the constant 50 |
| `SearchCache.WithFreshEntry` | client/scripts/controllers/server/search_cache.ts:15-17 | the key now holds a not-loaded entry; every other key is present exactly as before with the same entry |
| `SearchCache.WithFreshEntryIdempotent` | client/scripts/controllers/server/search_cache.ts:15-17 | initialising a key twice is the same as initialising it once |
| `SearchCache.WithFreshEntryOverwrites` | client/scripts/controllers/server/search_cache.ts:15-17 | whatever entry the key held before is overwritten |
| `SearchCache.SearchCacheController.constructor` | client/scripts/controllers/server/search_cache.ts:2 | the cache starts empty |
| `SearchCache.SearchCacheController.GetKey` | client/scripts/controllers/server/search_cache.ts:12-14 | returns the key's entry when present and absent otherwise |
| `SearchCache.SearchCacheController.AllResults` | client/scripts/controllers/server/search_cache.ts:6-8 | always equal to GetKey of the all-results key |
| `SearchCache.SearchCacheController.InitKey` | client/scripts/controllers/server/search_cache.ts:15-17 | the new cache is the old one with the key reset to not loaded |
| `SearchCache.SearchCacheController.ResetAllResults` | client/scripts/controllers/server/search_cache.ts:9-11 | has the same effect as InitKey of the all-results key |
| `SearchCache.InitThenGet` | client/scripts/controllers/server/search_cache.ts:12-17 | on a new controller a key never initialised reads as absent; after InitKey the key reads as not loaded |
| `CwProtocol.Status.Label` | client/scripts/controllers/chain/ethereum/commonwealth/protocol.ts:68-73 | a status is recorded as one of the texts 'In Progress', 'Successed' or 'Failed' |
| `CwProtocol.LabelsDistinct` | client/scripts/controllers/chain/ethereum/commonwealth/protocol.ts:68-73 | the three statuses have three different texts |
| `CwProtocol.DeadlineMs` | client/scripts/controllers/chain/ethereum/commonwealth/protocol.ts:64 | the end time in milliseconds is the deadline in seconds times 1000, refused from 2^53 on |
| `CwProtocol.ClassifyStatus` | client/scripts/controllers/chain/ethereum/commonwealth/protocol.ts:68-75 | 'In Progress' exactly while `now - endTime <= 0` (the end instant included) or the end time is an invalid date; past it 'Successed' exactly when funded and 'Failed' exactly when not |
| `CwProtocol.ProjectDetails` | client/scripts/controllers/chain/ethereum/commonwealth/protocol.ts:64-101 | the record's end time is the deadline times 1000 and its status follows ClassifyStatus; backers and curators are empty; fails only on an unconvertible deadline |
| `CwProtocol.CommonwealthProtocol.RetrieveProjects` | client/scripts/controllers/chain/ethereum/commonwealth/protocol.ts:104-115 | a project count of zero gives the empty list; otherwise one project per address in the same order, or the failure of the first address whose details fail |
| `CwProtocol.Utf8Length` | client/scripts/controllers/chain/ethereum/commonwealth/protocol.ts:137 | the UTF-8 length of a name lies between one and four bytes per character |
| `CwProtocol.CeilSeconds` | client/scripts/controllers/chain/ethereum/commonwealth/protocol.ts:142 | the result is the least whole second whose milliseconds reach the current time |
| `CwProtocol.ProjectEndTime` | client/scripts/controllers/chain/ethereum/commonwealth/protocol.ts:142 | the end time is ceil(now/1000) plus the period times 86400 seconds |
| `CwProtocol.CreateProject` | client/scripts/controllers/chain/ethereum/commonwealth/protocol.ts:127-148 | fails exactly when the name exceeds 31 UTF-8 bytes; otherwise always `{status: 'failed', projectHash: ''}` |
| `CwProtocol.CommonwealthProtocol.constructor` | client/scripts/controllers/chain/ethereum/commonwealth/protocol.ts:17-20 | a new controller is uninitialised with an empty store |
| `CwProtocol.CommonwealthProtocol.Init` | client/scripts/controllers/chain/ethereum/commonwealth/protocol.ts:34-46 | on success sets initialized and stores one 'root' protocol with the fee, the fee recipient and the collected projects; on failure nothing changes |
| `CwProtocol.CommonwealthProtocol.Deinit` | client/scripts/controllers/chain/ethereum/commonwealth/protocol.ts:117-119 | empties the store and leaves the initialized flag alone |

## Left out

- Key handling: mnemonic derivation, `signAmino`, `encodeSecp256k1Pubkey` and the signing client are foreign cryptography. The derived wallet is an input, and signatures, encoded keys and signed envelopes are symbolic records. `addressFromMnemonic`/`addressFromSeed` are this derivation and are not modelled separately.
- `setMnemonic` belongs to the base Account class, which is not part of this model. It is modelled as recording the phrase.
- Throttling: `_.throttle` around `updateBalance` is time-based rate limiting. `UpdateBalance` is one un-throttled step, and call coalescing is not modelled.
- Deferred chain binding: the `chainModuleReady` subscription in the account constructor is event wiring. The model always takes the registry's chain at construction, as when the module is ready.
- `UpdateBalance`: the coin amounts of the response arrive already parsed, because how `new BN(s)` reads a malformed string is not modelled. A response whose `result.value` is missing is not modelled either.
- `SignMessage`: the JSON structure of sign documents is not modelled; `parse` stands for `JSON.parse`.
- The balance refresh the send callback triggers is not run; `TxModalData.RefreshedOn` says which accounts it refreshes.
- The `pubKey`, `client`, `app` and `initialized` getters are plain field reads of the classes' fields.
- Search cache keys are treated as a plain dictionary. JavaScript object keys that name `Object.prototype` members (such as `constructor` or `__proto__`) behave differently. The entry objects callers later change in place (aliasing) are not modelled.
- protocol.ts:
  - The contract reads of `getProjectDetails`, `solidityKeccak256` and `parseBytes32String` are not modelled; the project hash and decoded strings are inputs.
  - `updateState`, `getProjectContract`, the empty `backProject`, `curateProject`, `redeemBToken`, `redeemCToken` and `getCollatoralAmount` stubs, and the API and chain bindings in `init` are contract plumbing.
  - `RetrieveProjects`: one `nowMs` serves every project of a collection, where the source reads the clock once per project.
  - `CreateProject`: the period and the numbers are integers (JavaScript numbers could be fractional), and the end time, which the stub never uses, is the separate `ProjectEndTime`.
- All console output.

## Findings

| source | as written | input that shows it | evidently intended | confidence | as-written member | corrected member |
|---|---|---|---|---|---|---|
| client/scripts/controllers/chain/cosmos/account.ts:201-212 | the withdraw descriptor is tagged 'MsgDelegate' while the chain is sent 'MsgWithdrawDelegationReward' | any validator address on an account with a chain bound | the tag names the message sent, as in the other four builders | high; not executed | `Cosmos.CosmosAccount.WithdrawTagMismatch` | `Cosmos.CosmosAccount.WithdrawDelegationRewardTxTagged` |
| client/scripts/controllers/chain/cosmos/account.ts:255-262 | `fromMnemonic` constructs a new account without looking in the store, displacing the account already filed under that address | `fromAddress(a)` followed by `fromMnemonic(m)` where `m` derives address `a` | one account object per address, reused and given the wallet | medium; not executed | `Cosmos.FromMnemonicDisplaces` | `Cosmos.CosmosAccounts.FromMnemonicSingleInstance` |
