# AlgoFi marketplace in Dafny

This project models the AlgoFi NFT marketplace (AlgoMint). It covers four
layers.

- **The approval program.** This is the PyTeal contract. It is a pure
  transition function over application state:
  - the global record `owner`, `nft_count`, `platform_fee`;
  - one local key/value store per opted-in account, holding at most one NFT
    record under `creator`, `name`, `type`, `purchasable` and `price`.

  Each of the six operations, the dispatch table and the ledger's
  opt-in/close-out/clear-state effects returns `Option<AppState>`. `None`
  stands for every way a call is rejected: a failed `Assert`, a TEAL panic
  (uint/bytes mismatch, 64-bit overflow or underflow, a group index out of
  range), or no matching dispatch branch.
- **The backend's transaction assembly** (`AlgorandService`). It builds the
  unsigned mint, asset, list, buy and opt-in transactions. It also decodes an
  account's local state and submits signed transactions.
- **The backend's request handlers** (`NFTController`). These are ordered
  field checks that answer 400, call the service, or turn a service error into
  a 500.
- **The front end's pure logic.**
  - The marketplace filter/search/sort pipeline.
  - The portfolio statistics and tab lists.
  - The NFT card's badges, labels, Buy button and request body.
  - The header's address shortening, active-link test and mobile menu.
  - The wallet session state machine of the application shell.

Every network round trip is a parameter. This covers suggested parameters,
account lookup, send, confirmation wait and the group-id hash. So is the
decoding of a textual address to the 32 bytes the contract compares.

## Properties proved

The cross-layer lemmas are in `integration.dfy`.

- **Argument layouts match the contract.**
  - A mint request that passes validation becomes an application call the
    contract accepts from an opted-in creator. It stores exactly the
    requested name, type, flag and price.
  - A list request sets exactly the requested price.
- **Fee splits agree.** The backend's fee split, taken as exact integer
  arithmetic, and the contract's fee split agree. JavaScript's double
  arithmetic gives the same split only while price times rate is at most
  2^53.
- **The buy group is accepted when its assumptions hold.** The contract
  accepts the backend's three-transaction purchase group when two things are
  true:
  - the configured platform wallet is the contract owner;
  - the backend's fee rate is the contract's;
  - the price is a safe JavaScript integer and price times rate is at most
    2^53.

  The group then moves the seller's record to the buyer.
- **A different fee rate is always rejected.** A fee rate that computes a
  different fee makes the contract reject the group every time.

The contract's state invariant is in `contract_props.dfy`. It holds:

- the fee stays at 250 bp;
- every local store is empty or holds one valid record;
- `nft_count` is at least the number of record holders.

The invariant holds after every accepted call, and therefore after any
history that starts at creation.

The same file proves two consequences of the contract as written:

- **A sale freezes the record.** A buyer receives the seller's `creator`
  value unchanged. In the state right after the sale, a buyer who did not mint
  the NFT can neither list, reprice nor delist it.
- **Buying from oneself erases the record.** No check compares buyer and
  seller, and an accepted self-purchase deletes the record.

Where the system's written description and its code differ, the model follows
the code.

- **Integer arguments are refused after the network call.** An integer
  argument outside 64 bits is refused by the SDK's encoder. That happens after
  the suggested parameters have been fetched, not before any network call. So
  a network error is reported first.
- **The buy handler only checks that fields are truthy.** It checks that
  `price` is truthy and nothing more, so a negative price reaches the service.
- **Confirmation is delegated.** The wait for confirmation is the SDK's,
  called with a bound of 10 rounds. Its outcome is a parameter.

## Model

| member | source | states |
|---|---|---|
| Contract.Initialize | smart_contracts/algomint_contract.py:29-37 | a creation call makes the sender owner, with no NFTs minted, a 250 bp fee and no local stores |
| Contract.PutRecord | smart_contracts/algomint_contract.py:64-68 | the five `localPut`s of a record leave the sender's store equal to its old store overlaid with exactly the record's five entries |
| Contract.MintNft | smart_contracts/algomint_contract.py:39-74 | mint succeeds iff there are five arguments, both integers fit `btoi`, the name is non-empty, the type is art/music/standard, purchasable is 0 or (1 with a positive price), the sender is opted in and the count cannot overflow; it then stores the sender as creator plus the four arguments and adds exactly 1 to `nft_count` |
| Contract.SetOwnPrice | smart_contracts/algomint_contract.py:84-94 | a price change succeeds iff the stored creator is the sender, the new price is positive and the record is purchasable; only the sender's `price` changes |
| Contract.ListNft | smart_contracts/algomint_contract.py:76-94 | an accepted listing came from an opted-in sender whose record is purchasable, and it keeps the global state and the set of opted-in accounts |
| Contract.UpdatePrice | smart_contracts/algomint_contract.py:142-155 | an accepted price update came from the record's own creator, and it keeps the global state and the set of opted-in accounts |
| Contract.DelistNft | smart_contracts/algomint_contract.py:157-166 | delisting succeeds iff the stored creator is the sender; the price becomes 0 and every other key and account is untouched |
| Contract.ContractSplit | smart_contracts/algomint_contract.py:104-108 | the fee is the floor of price times rate over 10000, the seller's share is the rest, the two add up to the price, and the split panics exactly when the product overflows 64 bits or the fee exceeds the price |
| Contract.BoughtStore | smart_contracts/algomint_contract.py:126-130 | the buyer's store gains all five record keys: creator, name, type and purchasable read from the seller, price 0; any other key of the buyer keeps its value |
| Contract.DeleteRecord | smart_contracts/algomint_contract.py:133-137 | the seller loses exactly the five record keys; other keys and other accounts are unchanged |
| Contract.TransferRecord | smart_contracts/algomint_contract.py:125-137 | for distinct parties the buyer gets the seller's record at price 0 and the seller keeps no record key; no other account changes |
| Contract.BuyNft | smart_contracts/algomint_contract.py:96-140 | a purchase succeeds iff buyer and seller (the first foreign account) are opted in, the seller's record is purchasable, with a positive uint price, the split does not panic, the call at index-1 pays exactly the seller's share to the seller and the call at index-2 pays exactly the fee to the owner; it then transfers the record |
| Contract.Approval | smart_contracts/algomint_contract.py:168-180 | a creation call initializes; an opt-in is approved iff the sender has no local store and allocates an empty one; a close-out iff the sender has one and drops it; a no-op call without arguments is rejected; after creation no approved call changes the owner or the fee or lowers `nft_count` |
| Contract.Apply | smart_contracts/algomint_contract.py:184-186 | a clear-state call succeeds iff the sender has a local store and drops exactly that store; no accepted call on an existing application changes the owner or the fee or lowers `nft_count` |
| ContractFacts.CreationInitializes | smart_contracts/algomint_contract.py:169-170 | any call with application id 0 yields the initial state, whatever its other fields |
| ContractFacts.UpdateDeleteOnlyByOwner | smart_contracts/algomint_contract.py:173-174 | update and delete calls are approved iff the owner sends them, and change no state |
| ContractFacts.OpsDistinct | smart_contracts/algomint_contract.py:22-27 | the five operation names are pairwise different, so at most one dispatch branch matches |
| ContractFacts.Dispatch | smart_contracts/algomint_contract.py:175-180 | a no-op call runs the operation its first argument names; no argument or an unknown name rejects it |
| ContractFacts.InitializeEstablishes | smart_contracts/algomint_contract.py:32-36 | the freshly created application satisfies the state invariant |
| ContractFacts.OverwriteRecord | smart_contracts/algomint_contract.py:64-68 | writing a valid record over an empty or well-formed store leaves exactly that record |
| ContractFacts.BoughtStoreIsRecord | smart_contracts/algomint_contract.py:126-130 | the buyer's store after a purchase is exactly the seller's record with price 0, a well-formed record |
| ContractFacts.MintPreserves | smart_contracts/algomint_contract.py:64-71 | a successful mint keeps the invariant (one new holder at most, count up by one) |
| ContractFacts.RepricePreserves | smart_contracts/algomint_contract.py:91 | writing any price into a held record keeps the invariant |
| ContractFacts.BuyStores | smart_contracts/algomint_contract.py:125-137 | after a sale the seller's store is empty, the buyer holds a well-formed record, and nobody else's store changed |
| ContractFacts.BuyPreserves | smart_contracts/algomint_contract.py:125-137 | a sale keeps the invariant: the holder set loses the seller and gains at most the buyer |
| ContractFacts.ApplyPreservesInvariant | smart_contracts/algomint_contract.py:168-186 | every call the ledger accepts maps an invariant state to an invariant state |
| ContractFacts.LifecyclePreserves | smart_contracts/algomint_contract.py:171-174 | opt-in, close-out, clear-state, update and delete calls keep the invariant |
| ContractFacts.DropPreserves | smart_contracts/algomint_contract.py:184-186 | dropping an account's local state (clear-state, close-out) keeps the invariant |
| ContractFacts.AddEmptyPreserves | smart_contracts/algomint_contract.py:171 | allocating an empty local store on opt-in keeps the invariant |
| ContractFacts.OperationPreserves | smart_contracts/algomint_contract.py:175-179 | each of the five marketplace operations keeps the invariant |
| ContractFacts.ReplayKeepsInvariant | smart_contracts/algomint_contract.py:168-186 | any sequence of calls, rejected ones leaving the state alone, keeps the invariant |
| ContractFacts.HistoryFromCreation | smart_contracts/algomint_contract.py:29-37 | after any history starting at creation the invariant holds and the fee is still 250 bp |
| ContractFacts.SaleMovesRecord | smart_contracts/algomint_contract.py:107-137 | a sale between distinct accounts gives the buyer the seller's record at price 0, empties the seller, and the two preceding payments split the price into 2.5% (floored) to the owner and the rest to the seller |
| ContractFacts.SelfPurchaseErases | smart_contracts/algomint_contract.py:126-137 | a purchase from oneself that the contract accepts leaves the account with an empty store, the record gone |
| ContractFacts.BoughtRecordIsFrozen | smart_contracts/algomint_contract.py:86 | in the state right after a sale, a buyer who did not mint the NFT can neither list, reprice nor delist it |
| Bytes.BtoiEncodeUint64 | smart_contracts/algomint_contract.py:47-48 | `btoi` reads back exactly the integer `encodeUint64` wrote, for every 64-bit value |
| Bytes.BtoiBound | smart_contracts/algomint_contract.py:82 | every value `btoi` yields fits in 64 bits |
| Service.AppIdFromEnv | backend/src/services/algorandService.js:14 | an unset, unparsable or zero `APP_ID` gives id 0, otherwise the parsed value |
| Service.AppIdOfDecimal | backend/src/services/algorandService.js:14 | an id written in decimal configures exactly that id |
| Service.GetAccountInfo | backend/src/services/algorandService.js:20-32 | the lookup's address and amount pass through, absent asset or local-state lists read as empty, and a failed lookup is rethrown with its prefix |
| Service.FindApp | backend/src/services/algorandService.js:229-231 | the result is the first entry with the application id, and none exactly when no entry has it |
| Service.DecodeState | backend/src/services/algorandService.js:237-249 | the decoded state has one key per distinct decoded entry key, and no other |
| Service.LastWriteWins | backend/src/services/algorandService.js:238-249 | an entry not followed by another with the same key determines that key's value: text for type 1, the uint otherwise |
| Service.GetApplicationState | backend/src/services/algorandService.js:226-255 | the answer is null exactly when the account has no local state for the application, otherwise the first matching one's entries decoded with the last entry for a key winning, text for type 1 and the uint otherwise; a lookup failure is rethrown with its prefix |
| Service.Uint64Arg | backend/src/services/algorandService.js:49-50 | an encoded integer argument is eight bytes that the contract's `btoi` reads back as the same value |
| Service.MintArgs | backend/src/services/algorandService.js:45-51 | the five mint arguments: the operation name, name and type as UTF-8, the flag 1 or 0, the price or 0; refused exactly when that price is not a 64-bit value |
| Service.CreateMintTransaction | backend/src/services/algorandService.js:37-68 | a no-op call of the application from the creator carrying the mint arguments; a network or encoding failure surfaces with the mint prefix, the network one first |
| Service.CreateNftAsset | backend/src/services/algorandService.js:73-104 | a missing creator is refused before the network is consulted; otherwise an asset creation with the creator as sender and manager, not frozen, and totals, decimals, unit, url and metadata hash defaulting to 1, 0, "NFT", "" and none |
| Service.ListArgs | backend/src/services/algorandService.js:115-118 | the two list arguments are the operation name and the price, readable back by `btoi`; refused exactly when the price is not a 64-bit value |
| Service.CreateListTransaction | backend/src/services/algorandService.js:109-134 | a no-op call from the seller carrying the list arguments, or the prefixed network or encoding failure |
| Service.CreateOptInTransaction | backend/src/services/algorandService.js:276-293 | an opt-in call of the application from the address with no arguments, or the prefixed network failure |
| Service.BackendSplit | backend/src/services/algorandService.js:146-147 | fee and seller amount add up to the price, the fee is the floor of price times rate over 10000, and both lie in [0, price] for a rate of at most 10000 bp |
| Service.FeeAtMostPrice | backend/src/services/algorandService.js:146 | with a non-negative price and a rate in [0, 10000] the fee is between 0 and the price |
| Service.BuyGroup | backend/src/services/algorandService.js:150-177 | the purchase group has three members, all sent by the buyer |
| Service.CreateBuyTransaction | backend/src/services/algorandService.js:139-189 | the group is the fee payment to the platform wallet, the seller payment, then the `buy_nft` call naming the seller, all on the same parameters and one group id which is also the reported id; refused with the buy prefix on a network failure or an amount that is not a non-negative safe integer (at most 2^53 - 1) |
| Service.WaitForConfirmation | backend/src/services/algorandService.js:214-221 | the confirmed round, or the failure with the "not confirmed" prefix |
| Service.SubmitTransaction | backend/src/services/algorandService.js:194-209 | succeeds iff sending and confirming both succeed, returning the node's id and round; a confirmation failure carries both prefixes |
| Controller.ValidateMint | backend/src/controllers/nftController.js:53-101 | the checks run in order (creator, name and type, the type list, a positive price when purchasable), each with its own message; a request passing all four becomes the asset request and the application request with the documented defaults |
| Controller.MintNft | backend/src/controllers/nftController.js:37-120 | 400 exactly when validation fails, with its message; otherwise the asset transaction is built, then the application call, and the first service failure answers 500 with its message, and success returns both transactions |
| Controller.ValidMintHasCreator | backend/src/controllers/nftController.js:54-59 | a validated mint never trips the asset builder's own creator check; only the network can fail it |
| Controller.RejectedMintIgnoresNetwork | backend/src/controllers/nftController.js:53-80 | a refused mint answers 400 whatever the network would have answered |
| Controller.ServiceErrorsAre500 | backend/src/controllers/nftController.js:113-118 | a validated mint answers 500 exactly when a service call fails, with the service's message |
| Controller.MintPriceRule | backend/src/controllers/nftController.js:75-80 | a non-purchasable mint passes the price check whatever its price; a purchasable one that passes carries a positive price |
| Controller.ListNft | backend/src/controllers/nftController.js:125-152 | 400 exactly when the seller is missing or the price is missing or not positive; otherwise the list service's answer |
| Controller.PlatformFeeRate | backend/src/controllers/nftController.js:168 | the parsed `PLATFORM_FEE`, or 250 when it is unset, unparsable or zero; never 0 |
| Controller.FeeRateOfDecimal | backend/src/controllers/nftController.js:168 | a positive rate written in decimal is used as written |
| Controller.BuyNft | backend/src/controllers/nftController.js:157-192 | 400 exactly when buyer, seller or price is falsy; otherwise the buy service's group and id with the fee rate in force echoed, or its error as 500 |
| Controller.Submit | backend/src/controllers/nftController.js:197-221 | 400 exactly when no signed transaction is given; otherwise the submission's answer |
| Controller.OptIn | backend/src/controllers/nftController.js:255-279 | 400 exactly when no address is given; otherwise the opt-in service's answer |
| Controller.GetAccount | backend/src/controllers/nftController.js:7-32 | 400 without a `success` field exactly when no address is given; a success carries the account record and the decoded application state; a lookup failure is a 500 with the account prefix |
| Integration.SplitsAgree | backend/src/services/algorandService.js:146-147 | whenever the contract's split does not panic it equals the backend's, and it does not panic when the product fits 64 bits and the rate is at most 10000 bp |
| Integration.SplitExample | backend/src/services/algorandService.js:146-147 | a 1 000 000 microAlgo sale at 250 bp pays 25 000 to the platform and 975 000 to the seller on both sides |
| Integration.OpBytes | smart_contracts/algomint_contract.py:23-25 | the operation names the backend encodes are byte for byte the contract's |
| Integration.TypeBytes | backend/src/controllers/nftController.js:68-73 | every type name the controller admits encodes to one of the contract's three type constants |
| Integration.ContractAcceptsMint | smart_contracts/algomint_contract.py:45-71 | five arguments describing a valid record from an opted-in sender are accepted and stored under the sender |
| Integration.ValidMintIsAccepted | backend/src/services/algorandService.js:45-59 | a mint request that passes validation yields a call the contract accepts from an opted-in creator, storing exactly the requested name, type, flag and price and counting one more NFT |
| Integration.ListingRequestSetsPrice | backend/src/services/algorandService.js:115-125 | the list call for a positive price is accepted iff the seller's record is their own and purchasable, and then stores exactly that price |
| Integration.BuyOnChain | backend/src/services/algorandService.js:150-177 | seen by the contract, the purchase group is the fee payment, the seller payment and the `buy_nft` call naming the seller, with decoded addresses |
| Integration.ContractAcceptsBuy | smart_contracts/algomint_contract.py:110-137 | a buy call preceded by the owner's fee and the seller's share is accepted and transfers the record |
| Integration.BuyGroupIsAccepted | backend/src/services/algorandService.js:139-184 | with the platform wallet equal to the owner, the backend's rate equal to the contract's, a safe-integer price and price times rate at most 2^53, the backend's group for the stored price is accepted and moves the record to the buyer |
| Integration.MismatchedRateIsRejected | smart_contracts/algomint_contract.py:121-123 | a backend rate that computes a different fee produces groups the contract always rejects |
| JsText.Abbreviate | frontend/src/components/Header.js:14 | the first six characters, "...", then the last four; at most 13 characters, exactly 13 for an address of six or more |
| JsText.Lower | frontend/src/views/Marketplace.js:96-97 | lower-casing keeps the length and lowers each ASCII capital |
| JsText.IncludesIffOccurs | frontend/src/views/Marketplace.js:96-97 | `includes` holds iff the needle occurs at some position of the haystack |
| JsText.ParseIntDecimal | backend/src/controllers/nftController.js:168 | `parseInt` of a number's decimal form is that number |
| Seqs.Filter | frontend/src/views/Marketplace.js:89-91 | a filter keeps exactly the occurrences satisfying the predicate, as many times as they occur |
| Seqs.FilterAppend | frontend/src/views/Marketplace.js:89-91 | filtering a concatenation is concatenating the filtered parts, so kept elements stay in their original order |
| Seqs.FilterFilter | frontend/src/views/Marketplace.js:89-99 | filtering by one predicate then another is filtering once by their conjunction |
| Seqs.CountDisjoint | frontend/src/views/Portfolio.js:62-64 | counts under predicates that never hold together add up to the count under their disjunction |
| Seqs.SumByAppend | frontend/src/views/Portfolio.js:65 | the sum over two lists joined is the sum of their sums |
| Seqs.SortBy | frontend/src/views/Marketplace.js:102-108 | sorting by a key is a permutation ordered by that key |
| Marketplace.Visible | frontend/src/views/Marketplace.js:85-111 | the rendered list holds exactly the loaded NFTs of the chosen type matching the query, never anything else; with "all" and no query it is a permutation of the input; price-low, price-high and newest order it by rising price, falling price and falling id; any other option keeps the input order |
| Marketplace.SelectedIsBothFilters | frontend/src/views/Marketplace.js:89-99 | narrowing by type and then by query equals one filter by both conditions |
| Marketplace.UnfilteredKeepsAll | frontend/src/views/Marketplace.js:86-99 | with "all" and an empty query nothing is filtered out |
| Portfolio.ComputeStats | frontend/src/views/Portfolio.js:60-66 | the total is the length, each type count counts that exact type, the three counts are at most the total with equality when every type is one of the three, and the value is 0 for no NFTs and never negative for non-negative prices |
| Portfolio.KindCounts | frontend/src/views/Portfolio.js:61-64 | the three type counts add up to at most the total, and to exactly the total when every type is art, music or standard |
| Portfolio.ValueNonNegative | frontend/src/views/Portfolio.js:65 | non-negative prices give a non-negative total value |
| Portfolio.TotalValueAppend | frontend/src/views/Portfolio.js:65 | the value of two lists together is the sum of their values |
| Portfolio.CreatedNfts | frontend/src/views/Portfolio.js:80 | exactly the NFTs whose creator is the connected account |
| Portfolio.OwnedNfts | frontend/src/views/Portfolio.js:79 | the whole list on the "owned" tab, the created list on any other |
| Portfolio.CreatedWithinOwned | frontend/src/views/Portfolio.js:79-80 | on every tab the created NFTs are among the owned ones |
| NftCard.Placeholder | frontend/src/components/NFTCard.js:57 | the type's emoji, or the gem for a type outside the table |
| NftCard.Badge | frontend/src/components/NFTCard.js:62-66 | the type's emoji (nothing for an unknown type), a space, then the upper-cased type |
| NftCard.PriceLabel | frontend/src/components/NFTCard.js:105-130 | no label exactly when the price is shown; otherwise "Not listed for sale" for a purchasable NFT and "Non-purchasable collectible" for the others |
| NftCard.BuyRequestOf | frontend/src/components/NFTCard.js:23-27 | the buy body names the viewer as buyer, the creator as seller and the NFT's price |
| NftCard.CreatorLabel | frontend/src/components/NFTCard.js:98 | the creator's first six characters, "...", then its last four, at most 13 characters |
| NftCard.NoBuyForCreatorOrFree | frontend/src/components/NFTCard.js:69-128 | the creator is never offered their own NFT, a free NFT is never offered and is labelled non-purchasable, and a shown Buy button comes with a shown price |
| NftCard.VisibleBuyPassesValidation | frontend/src/components/NFTCard.js:114 | the request a visible Buy button posts is refused by the buy endpoint exactly when the creator is empty |
| Header.FormatAddress | frontend/src/components/Header.js:12-15 | "" exactly for a missing or empty address, otherwise the six-dots-four short form |
| Header.HeaderMatchesCard | frontend/src/components/Header.js:14 | the header and the NFT card shorten a non-empty address identically |
| Header.OneActiveLink | frontend/src/components/Header.js:8-21 | at most one navigation link is highlighted, and one is exactly when the path is one of the three routes |
| Header.ToggleParity | frontend/src/components/Header.js:83 | n presses of the menu button leave the menu as it was for even n and flipped for odd n |
| Header.LinkCloses | frontend/src/components/Header.js:111 | after following a menu link the menu is closed |
| Wallet.Initial | frontend/src/App.js:9-11 | the session of the first render, whatever address was stored, is consistent |
| Wallet.Step | frontend/src/App.js:14-57 | connect sets account, flag and stored address to the first account, or leaves them alone when no account arrives; loading ends; disconnect clears all three; restore adopts a stored address only with a wallet present; consistency is kept |
| Wallet.RunConsistent | frontend/src/App.js:9-57 | `connected` mirrors the account, and a connected account is the stored one, after any sequence of events |
| Wallet.SessionConsistent | frontend/src/App.js:9-57 | from the first render on, the session is consistent |
| Wallet.DisconnectIdempotent | frontend/src/App.js:41-48 | disconnecting twice is disconnecting once |
| Wallet.FinishedConnectNotLoading | frontend/src/App.js:35-37 | once a connect attempt has finished, whatever came before, the session is not loading |

## Left out

- The SDK is not modelled. This covers transaction encoding (msgpack and base64), `txID`, the group-id hash of `assignGroupID`, and `waitForConfirmation` polling. A built transaction is its unsigned record, and the group id is a caller-supplied function of the group.
- Network calls are parameters: suggested parameters, account lookup, send and confirmation wait. The two lookups that `getAccount` makes are one deterministic lookup function.
- The SDK's exact error wording is not modelled. `Service.NotUint64` and `Service.BadAmount` stand in for the encoder's and the payment builder's refusals.
- The SDK also validates addresses and requires a 32-byte metadata hash. Neither check is modelled.
- The suggested parameters are an opaque record. The asset's freeze, clawback and reserve addresses, which the code leaves unset, are not represented.
- `Integration.BuyGroupIsAccepted`: requires that the configured `PLATFORM_WALLET` decodes to the contract owner. The code does not ensure this, and an unset variable is not modelled.
- Application schema limits are not modelled. These are the number of local keys and the byte lengths.
- An update call's new program is not modelled. Only its approval is.
- `Contract.Approval`: an approved delete call is modelled as a no-op that returns the state unchanged. The ledger would destroy the application and its state, but the replay lemmas keep applying later calls to that state.
- `Contract.Approval`: a creation call sent with OnComplete OptIn leaves the creator without a local store. The ledger would also opt the creator in.
- `Service.BackendSplit`: computes the split in exact integers. The source computes `price * platformFee / 10000` in doubles. The two agree while the product is at most 2^53 (`Service.DoubleExact`). Above that bound the rounding of the double product can make them differ.
- `Integration.SplitsAgree`: relates the contract's split to the exact-integer backend split. So it says nothing about the source's double result once price times rate exceeds 2^53.
- `Integration.BuyGroupIsAccepted`: requires price times rate to be at most 2^53. Above that bound the source's double fee can differ from the contract's, and the contract would reject the group.
- JSON numbers are exact integers in the model. JavaScript parses integers above 2^53 inexactly, and that rounding is not modelled.
- JSON request fields of unexpected types are not modelled, such as a string price, a non-integer number or a float. Each field is an optional string, boolean or integer.
- Strings are sequences of Unicode scalar values, not UTF-16 code units. `slice` and `toLowerCase` are modelled on those values, and case mapping covers ASCII letters only.
- `formatPrice`, `toFixed` and the 2.5% fee display are not modelled. They are floating-point presentation.
- Several files and operations are not modelled:
  - `MintForm.js`, which converts ALGO with `parseFloat` and floating-point `Math.floor` and previews files with `FileReader`;
  - `Home.js`, `server.js` and the route table;
  - `getNFTDetails` and `getAssetInfo`, which are a lookup passed through;
  - `getMarketplace`, which returns a fixed placeholder.
- The portfolio's hard-coded mock list and the fetch before it are not modelled. `Portfolio.ComputeStats` takes any list.
- `Portfolio.ComputeStats`: states the total value only for the empty list and for its sign. Additivity is `Portfolio.TotalValueAppend`.
- `Marketplace.Visible`: does not state that ties keep their input order. `Seqs.SortBy` is a stable insertion sort, but the stability is not proved.
- The emoji table is looked up for the three types only. Keys inherited from the JavaScript object prototype, such as `toString`, are not modelled.
- Wallet effects are not modelled: the Pera wallet's `disconnect` side effect, `alert`, `window.open`, real `localStorage` I/O and React effect scheduling. The stored address is a state field, and `loading` is set by a separate `ConnectStart` event.
- `Contract.ListNft`: its own contract states only the purchasable precondition and what it keeps. The full iff and its effect are `Contract.SetOwnPrice`'s, which it returns.
- `Contract.UpdatePrice`: its own contract states only the creator precondition and what it keeps. The full iff and its effect are `Contract.SetOwnPrice`'s, which it returns.
- Resubmitting an already confirmed transaction is not modelled. What the node answers is up to the node.
