# fish-firesquid indexer core, modelled in Dafny

fish-firesquid is a Subsquid (FireSquid) indexer for the Astar chain. For
each batch of blocks, its `processor.run` handler decodes the EVM logs of
two contracts:

- the Fish marketplace: Sell and Buy events;
- the TicketPassA collection: Transfer, Mint and DevMint events.

It queues the decoded records in five arrays and hands them to the
materialisers `saveTransfers`, `saveSell`, `saveBuy`, `saveTicketPass` and
`saveDevTicketPass`. These preload Owners and Tokens from the store, update
them and write Owners, Tokens, Transfers and Activities back.

This project models that core in nine modules:

- `Wrappers`: `Option` and `Result`.
- `Strings`:
  - the decimal form of chain integers (`toString`) and its read-back (`parseInt`);
  - `includes`;
  - ASCII `toLowerCase`;
  - splitting dash-separated keys.
- `Entities`: Owner, Token, Contract, Transfer and Activity.
- `Types`: the decoded event records.
- `EntityStore`: the store as tables from id to entity, plus a journal of write calls (`findBy`, `get`, `save`, `insert`).
- `Contracts`: the `contractMapping` seed, `createContractEntity`, the `getContractEntity` cache (class `ContractRegistry`), `retry` and `getTokenURI`.
- `Operator`: `handleActivity` and its natural key `{contract}-{tx}-{tokenId}-{TYPE}`.
- `Materializer`: the five `saveX` functions and `collectionTokenId`.
- `Processor`: the batch handler.

Each flush and the batch handler are written twice:

- as a specification function over values (`SaveTransfersSpec`, `SaveSellSpec`, `SaveBuySpec`, `Dispatch`, `Drive`, `BatchTrace`, `Apply`);
- as methods that work in place on a `Store` object and a `ContractRegistry` object, proved to end in the state those functions give.

The handler's output is the trace of materialiser calls it makes. This trace carries the ordering properties: how long a record stays queued, which flush hands it on, and that sells are handed on before later buys.

Four behaviours of the code are modelled as written:

- `getContractEntity` returns `undefined` and leaves its cache unfilled when the store holds the contract but the cache does not.
- Replaying a flush whose transfer minted a Token adds a TRANSFER activity for the same event, because only the MINT key is stored.
- Tokens of two contracts outside the registry share a key when their token ids are equal, because both symbols are empty.
- `handleActivity` ignores its `type` argument: the data's shape picks the activity type.

## Model

| member | source | states |
|---|---|---|
| Strings.ParseDecimal | src/processor.ts:375 | `parseInt` of the decimal string of a token id gives the id back |
| Strings.ContainsIff | src/processor.ts:345 | `uri.includes(sub)` holds exactly when `sub` occurs at some position of `uri` |
| Strings.ToLower | src/processor.ts:212 | lower-casing keeps the length, maps each character to its lower-case form and leaves no upper-case ASCII letter |
| EntityStore.Restrict | src/processor.ts:297-309 | `findBy(E, { id: In(ids) })` yields exactly the stored rows whose id is in `ids`, unchanged |
| EntityStore.UpsertHasRow | src/processor.ts:483-486 | after `save(rows)` every row's id is present |
| EntityStore.UpsertLastRow | src/processor.ts:483-486 | after `save(rows)` an id holds the last row that has it; two rows of one id in one call are assumed to succeed this way (see Left out) |
| EntityStore.UpsertKeepsOther | src/processor.ts:483-486 | after `save(rows)` an id that no row has keeps its old row |
| EntityStore.UpsertOnlyRows | src/processor.ts:483-486 | after `save(rows)` every id was already stored or belongs to a row |
| EntityStore.Store.FindTokens | src/processor.ts:297-302 | the preload returns the stored Tokens of the requested ids |
| EntityStore.Store.GetActivity | src/processor.ts:379-388 | `store.get(Activity, id)` is present exactly when the table holds `id` |
| Contracts.ContractMapping | src/contract.ts:26-46 | the registry has exactly two models, each keyed by its own address: AstarDegens (DEGEN, 10000) and AstarCats (CAT, 7777), both with no minted tokens |
| Contracts.Symbol | src/processor.ts:276 | the registry symbol of a known address and "" for any other; no symbol holds a dash |
| Contracts.CreateContractEntity | src/contract.ts:48-50 | the registry model for a known address, a Contract with no field set for any other |
| Contracts.GetContractEntitySpec | src/contract.ts:57-71 | cache hit: the cached entity, nothing changes. Cache miss with the contract stored: `undefined`, the cache stays unfilled. Miss in both: the contract is created, inserted under the looked-up address and cached. The result is defined exactly when the cache then holds the address, and only the contracts table changes |
| Contracts.LookupTwiceHitsCache | src/contract.ts:61-70 | a second lookup of an address the first lookup returned is answered by the cache and changes nothing |
| Contracts.ContractRegistry.GetContractEntity | src/contract.ts:57-71 | the method on the store and the module cache returns, and leaves behind, what `GetContractEntitySpec` gives |
| Contracts.RetryFromOutcome | src/contract.ts:99-108 | `retry` succeeds exactly when some attempt succeeds, with the value of the first success; otherwise it fails with "Error after N attempts" |
| Contracts.Retry | src/contract.ts:99-108 | the loop makes at most `attempts` calls and stops at the first success, after only failed calls; on failure it has made exactly `attempts` failed calls |
| Contracts.GetTokenURIOutcome | src/contract.ts:73-80 | `getTokenURI` always fails for an address outside the registry. For a known address it succeeds exactly when one of the 3 answers is a uri, and returns one of them |
| Contracts.GetTokenURI | src/contract.ts:73-80 | the method gives the outcome that `retry` over the 3 `tokenURI` answers gives |
| Operator.TypeName | src/operator/index.ts:24-31 | each activity type's string is non-empty and holds no dash |
| Operator.ActivityKeyParses | src/operator/index.ts:24-31 | a natural key built from dash-free parts reads back as exactly those parts and that type |
| Operator.ActivityKeyInjective | src/processor.ts:379-388 | on dash-free parts, two activity keys are equal exactly when contract, transaction, token id and type all agree |
| Operator.HandleActivityFields | src/operator/index.ts:4-89 | Buy data gives a SOLD activity and Sell data a LISTING one without `to`; other data gives a MINT one without price. The id is the event's natural key, whose suffix is the type. Token, from, block, timestamp, price and transaction come from the arguments |
| Operator.ActivityIdIdentifiesEvent | src/operator/index.ts:11-88 | the built activity's id reads back as the event's contract, transaction, token id and type |
| Materializer.CollectionTokenIdSplits | src/processor.ts:274-278 | the composite token id reads back as the registry symbol and the token id |
| Materializer.CollectionTokenIdInjective | src/processor.ts:274-278 | two composite ids are equal exactly when the symbols and the token ids are |
| Materializer.UnknownContractsShareKeys | src/processor.ts:274-278 | for any address outside the registry the composite id is "-" followed by the token id, so such contracts share keys |
| Materializer.ParsedTokenId | src/processor.ts:375 | a new Token's numeric id equals the event's token id |
| Materializer.EnsureOwner | src/processor.ts:314-324 | a missing Owner is added with balance 0; existing Owners are kept unchanged |
| Materializer.SelectImage | src/processor.ts:356-361 | `image` wins when present; otherwise `image_alt`; otherwise no image |
| Materializer.ChooseImage | src/processor.ts:356-361 | the two `if`s pick the image `SelectImage` gives |
| Materializer.EnrichAtCreate | src/processor.ts:338-363 | a failed `getTokenURI` leaves neither uri nor image. A uri holding "https://" gets no image. Otherwise a fetched document gives the image `SelectImage` picks from it, and a failed fetch gives none; an image comes from nowhere else |
| Materializer.FetchAtCreate | src/processor.ts:338-363 | the creation-time fetch gives what `EnrichAtCreate` gives |
| Materializer.Repair | src/processor.ts:400-430 | only uri and image can change, and only when one of them is missing and a fresh uri without "https://" is obtained; a failed `getTokenURI` or a uri holding "https://" changes nothing. When one of them is missing and the fresh uri has no "https://", that uri is stored; a fetched document then sets the image `SelectImage` picks, and a failed fetch keeps the old image |
| Materializer.RepairToken | src/processor.ts:400-430 | the repair step gives what `Repair` gives |
| Materializer.AddedByTransfer | src/processor.ts:379-478 | at most one activity per transfer. A new Token gets its MINT activity exactly when the MINT key is not stored. A held Token gets its TRANSFER activity exactly when the TRANSFER key is not stored. The added activity has a key the store lacks and carries the event's fields |
| Materializer.WorldAfterTransfer | src/processor.ts:370-373 | during the loop only a new Token's contract lookup writes: the tables are unchanged, at most one contract insert, and the cache only grows |
| Materializer.NewToken | src/processor.ts:364-376 | a created Token has the composite key, the event's token id, no owner, is not listed, and has the enriched uri and image and the looked-up contract |
| Materializer.Transferred | src/processor.ts:397-430 | after a transfer the Token is owned by `to` and not listed; id, token id and contract are kept; a Token with both uri and image keeps them |
| Materializer.TokenAfterTransfer | src/processor.ts:326-430 | the Token a transfer leaves is owned by `to`, not listed, and is the held Token or a new one under its key |
| Materializer.TransferLoopWorld | src/processor.ts:311-479 | the transfer loop leaves the store's tables as they were and only grows the contracts and the cache |
| Materializer.TransferLoopJournal | src/processor.ts:311-479 | while the loop runs, the only store writes are contract inserts |
| Materializer.TransfersOf | src/processor.ts:432-444 | one Transfer record per event, in order, carrying the event id and the composite token key |
| Materializer.TransferLoopTransfers | src/processor.ts:432-444 | the loop adds exactly the batch's Transfer records, in event order |
| Materializer.TransferLoopActivityCount | src/processor.ts:379-478 | the loop keeps earlier activities and adds at most one per event |
| Materializer.TransferLoopTokens | src/processor.ts:326-377 | the working Token map ends with the preloaded keys plus every key the batch names; keys the batch does not name keep their Token |
| Materializer.OwnersEnsuredFacts | src/processor.ts:314-324 | ensuring the batch's addresses keeps every Owner and adds each other address at balance 0 |
| Materializer.TransferLoopOwnersEnsured | src/processor.ts:311-324 | the loop's Owner map is the preloaded map with every `from` and `to` ensured, in order |
| Materializer.LastTransferDecidesOwner | src/processor.ts:397-398 | every Token the batch touches ends owned by the `to` of its last transfer, and not listed |
| Materializer.TransferLoopActivitiesFresh | src/processor.ts:379-478 | every activity the loop adds has an id the store did not hold when the flush began |
| Materializer.MintOncePerToken | src/processor.ts:337-394 | within one flush every MINT activity names a Token of the working map and no two name the same Token |
| Materializer.SaveTransfersWriteOrder | src/processor.ts:483-486 | `saveTransfers` ends with four writes (Owners, Tokens, Transfers, Activities), preceded only by the contract inserts of its lookups |
| Materializer.SaveTransfersStoresTransfers | src/processor.ts:485 | afterwards the store holds every Transfer of the batch under its event id (the last event of an id wins) and the other Transfers unchanged |
| Materializer.SaveTransfersTables | src/processor.ts:483-484 | the stored Owners and Tokens are the old rows overlaid with the loop's maps; the Token map holds exactly the batch's keys |
| Materializer.SaveTransfersOwnership | src/processor.ts:280-489 | the stored Tokens are the old ones plus those the batch names; each named Token is owned by its last `to` and not listed |
| Materializer.SaveTransfersLeavesOtherTokens | src/processor.ts:280-489 | a stored Token the batch does not name is unchanged |
| Materializer.SaveTransfersOwners | src/processor.ts:483 | no stored Owner changes; every `from` and `to` is stored afterwards; new Owners hold balance 0 |
| Materializer.SaveTransfersKeepsActivities | src/processor.ts:486 | no stored Activity is overwritten |
| Materializer.SingleTransferFlush | src/processor.ts:280-489 | a one-transfer flush stores the Token and writes exactly the activities `AddedByTransfer` gives |
| Materializer.ReplayedMintAddsTransferActivity | src/processor.ts:379-478 | a flush that mints a Token stores only its MINT activity; replaying the same flush adds a TRANSFER activity for the same event |
| Materializer.CollectTransferIds | src/processor.ts:283-292 | the first loop collects exactly the batch's token keys and owner addresses |
| Materializer.CreateToken | src/processor.ts:337-395 | the new-Token branch creates the Token `NewToken` gives and the activities `AddedByTransfer` gives; the store and cache change as one contract lookup does |
| Materializer.TransferOne | src/processor.ts:311-479 | one iteration on the store and cache gives the next working state and world of the transfer loop |
| Materializer.CommitTransferWork | src/processor.ts:483-486 | the four saves, in order |
| Materializer.SaveTransfers | src/processor.ts:280-489 | the method leaves the store and the cache as `SaveTransfersSpec` gives |
| Materializer.SellLoopRecords | src/processor.ts:520-539 | the sell loop creates no Token and adds one LISTING activity per Sell, in order |
| Materializer.SellLoopOwners | src/processor.ts:520-525 | the sell loop keeps the preloaded Owners and adds each new seller at balance 0 |
| Materializer.LastSellDecidesListing | src/processor.ts:531-534 | each held Token a Sell names ends owned by its last seller and listed; all its other fields and every other Token are unchanged |
| Materializer.BuyLoopRecords | src/processor.ts:579-604 | the buy loop creates no Token and adds one SOLD activity per Buy, in order |
| Materializer.BuyLoopOwners | src/processor.ts:579-590 | the buy loop keeps the preloaded Owners and adds each new buyer or seller at balance 0 |
| Materializer.LastBuyDecidesOwner | src/processor.ts:596-599 | each held Token a Buy names ends owned by its last buyer and not listed; all its other fields and every other Token are unchanged |
| Materializer.SaveSellTokens | src/processor.ts:491-548 | `saveSell` creates no Token; a stored Token a Sell names is owned by its last seller and listed; other Tokens are unchanged |
| Materializer.SaveSellOwners | src/processor.ts:513-525 | `saveSell` changes no stored Owner and stores every seller, a new one at balance 0 |
| Materializer.SaveSellActivities | src/processor.ts:536-545 | one LISTING activity per Sell under its natural key (the last Sell of a key wins), naming the Token only when the store held it; activities of other keys are kept |
| Materializer.SaveSellWriteOrder | src/processor.ts:543-545 | exactly three writes: Owners, Tokens, Activities |
| Materializer.SaveBuyTokens | src/processor.ts:550-613 | `saveBuy` creates no Token; a stored Token a Buy names is owned by its last buyer and not listed; other Tokens are unchanged |
| Materializer.SaveBuyOwners | src/processor.ts:572-590 | `saveBuy` changes no stored Owner and stores every buyer and seller, a new one at balance 0 |
| Materializer.SaveBuyActivities | src/processor.ts:601-610 | one SOLD activity per Buy under its natural key, naming the Token only when the store held it; activities of other keys are kept |
| Materializer.SaveBuyWriteOrder | src/processor.ts:608-610 | exactly three writes: Owners, Tokens, Activities |
| Materializer.SellThenBuy | src/processor.ts:491-613 | a stored Token sold and then bought is first listed and owned by the seller, then owned by the buyer and not listed |
| Materializer.CollectSellIds | src/processor.ts:496-502 | the first loop collects the Sells' token keys and the sellers only |
| Materializer.SellPass | src/processor.ts:520-539 | the main sell loop gives the working state `SellLoop` gives |
| Materializer.CommitMarketWork | src/processor.ts:543-545 | the three saves, in order |
| Materializer.SaveSell | src/processor.ts:491-548 | the method leaves the store as `SaveSellSpec` gives |
| Materializer.CollectBuyIds | src/processor.ts:555-561 | the first loop collects the Buys' token keys, sellers and buyers |
| Materializer.BuyPass | src/processor.ts:579-604 | the main buy loop gives the working state `BuyLoop` gives |
| Materializer.SaveBuy | src/processor.ts:550-613 | the method leaves the store as `SaveBuySpec` gives |
| Materializer.TokenIdRange | src/processor.ts:618 | a mint with start s and quantity q yields exactly s, s+1, ..., s+q-1, in ascending order |
| Materializer.MintedIdsCover | src/processor.ts:615-627 | a batch of mints visits as many ids as its quantities add up to, each inside the range of some mint |
| Materializer.VisitRanges | src/processor.ts:616-626 | the nested loops visit the ids of every mint's range, mint by mint, in ascending order |
| Materializer.SaveTicketPass | src/processor.ts:615-627 | the ids visited are those of the mints' ranges, in order |
| Materializer.SaveDevTicketPass | src/processor.ts:629-641 | the same for the dev mints |
| Processor.PushesQueue | src/processor.ts:70-122 | the marketplace and ticket-pass branches queue exactly what the reference definition `Queued` says one event adds |
| Processor.FlushMoves | src/processor.ts:88-94 | a save moves its pending array, unchanged, from the queues to the end of the trace, and the call it adds is a non-empty save |
| Processor.MarketEventFlushesTransfers | src/processor.ts:66-95 | a marketplace event queues its Sell or Buy, then saves all pending transfers in one call (none when none are pending), leaving no transfer pending |
| Processor.TicketFirstShape | src/processor.ts:97-131 | the first part of a ticket-pass log leaves sells and buys pending; only a Mint or DevMint saves the pending transfers, and then leaves none; a Transfer is queued |
| Processor.MarketFlushShape | src/processor.ts:133-151 | the sells save (when sells are pending) and then the buys save (when buys are pending), leaving neither pending |
| Processor.TicketMintFlushesTransfers | src/processor.ts:107-131 | a ticket Mint or DevMint leaves no transfer pending, and its first call saves them exactly when some were pending; a ticket Transfer is queued and saves none |
| Processor.TicketEventFlushesMarket | src/processor.ts:133-151 | any ticket-pass event leaves no sell or buy pending. It calls the sells save exactly when sells were pending and the buys save exactly when buys were. No sells save follows a buys save; a transfers save comes only before both |
| Processor.TicketConserves | src/processor.ts:97-152 | a ticket-pass log only appends non-empty saves, and what it hands on plus what stays pending is what was pending plus what it queues |
| Processor.DispatchConserves | src/processor.ts:62-153 | each item only appends non-empty saves; what was handed on plus what is pending grows by exactly what the item queues |
| Processor.DriveConserves | src/processor.ts:60-155 | over any sequence of items, what was handed on plus what is pending is exactly what arrived, kind by kind and in order |
| Processor.DriveCallsDrained | src/processor.ts:60-155 | before the last round only transfers, sells and buys are saved, and never an empty array |
| Processor.LastRoundHandsOn | src/processor.ts:157-162 | the last round hands on everything still pending |
| Processor.BatchConserves | src/processor.ts:53-163 | no queued record is dropped or duplicated: the batch hands every record to its materialiser exactly once, each kind in arrival order |
| Processor.LastRound | src/processor.ts:157-162 | the batch ends with one save of each kind in the order transfers, sells, buys, mints, dev mints; the ticket saves occur nowhere else |
| Processor.DispatchKeepsCut | src/processor.ts:60-155 | each item keeps every buys save a cut of the trade order: the sells handed on before it and the buys handed on with it are those before one point of the Sell and Buy arrival order |
| Processor.DriveKeepsCut | src/processor.ts:60-155 | every buys save made while the items are handled is a cut of the trades so far |
| Processor.BatchCut | src/processor.ts:53-163 | every buys save of the batch, the last round's too, is a cut of the batch's trade order |
| Processor.SellMaterialisedBeforeLaterBuy | src/processor.ts:141-151 | a Buy is never materialised before a Sell that arrived ahead of it: once a buys save has handed on a Buy, every earlier Sell was handed on by an earlier call |
| Processor.PopAll | src/processor.ts:91-93 | the `pop` loop empties the array (its exit condition; it carries no proof work) |
| Processor.DrainTransfers | src/processor.ts:88-94 | the transfers save and its `pop` loop give the queues and trace `FlushTransfers` gives, and apply the save to the store |
| Processor.DrainSells | src/processor.ts:133-139 | the same for the sells save |
| Processor.DrainBuys | src/processor.ts:141-151 | the same for the buys save |
| Processor.HandleMarketLog | src/processor.ts:66-95 | a marketplace log on the store gives the queues and trace `MarketLog` gives; the store is the effect of that trace |
| Processor.HandleTicketLog | src/processor.ts:97-152 | a ticket-pass log on the store gives the queues and trace `TicketLog` gives; the store is the effect of that trace |
| Processor.HandleItem | src/processor.ts:61-153 | one item on the store gives the queues and trace `Dispatch` gives; the store is the effect of that trace |
| Processor.HandleBlock | src/processor.ts:61-154 | the items of a block, in order, give what `Drive` gives |
| Processor.Perform | src/processor.ts:157-162 | one save call changes the store and cache as its effect says; the ticket saves change nothing |
| Processor.LastRoundMarket | src/processor.ts:158-160 | the last round's transfers, sells and buys saves, in order |
| Processor.LastRoundEffects | src/processor.ts:157-162 | the five last-round saves leave the store as the final trace does |
| Processor.Run | src/processor.ts:53-163 | the batch handler makes exactly the calls `BatchTrace` gives, and leaves the store and the contract cache as those calls, in that order, do |

## Left out

- The store, the `tokenURI` chain reads and the HTTP fetches of token metadata are oracles:
  - the store is a value (`StoreState`) and a class with no database behind it;
  - `Env` answers each `tokenURI` attempt and each metadata fetch.
- The `timeout` wrapper (src/contract.ts:82-97) is not modelled: a time-out counts as one failed attempt of `retry`.
- The concurrency of the `await`s is not modelled: every call completes before the next starts, as the source awaits each one.
- ABI decoding of logs is not modelled: the decoded arguments arrive as the `Decoded` datatype.
- The processor configuration and archive lookup (src/processor.ts:30-48) and all `console.log` output are not modelled.
- The fishContract branch of `handleTransfer` (src/processor.ts:174-179) decodes a Minted event. It is not modelled because `handleTransfer` is called only for ticket-pass logs, whose address is never the Fish contract's, so that branch is never taken.
- The commented-out ticket POST in `saveTicketPass` and `saveDevTicketPass` is not modelled; the visited ids are returned instead.
- Number conversions are not modelled: chain integers are unbounded natural numbers and an Owner balance an integer. What that loses, conversion by conversion:
  - `parseInt` of a token id (src/processor.ts:375) rounds above 2^53;
  - `toNumber()` of a mint's `quantity` and `startTokenID` (src/processor.ts:251-252, 266-267) throws an overflow error above 2^53 - 1, aborting the batch;
  - `new Array(quantity)` (src/processor.ts:618, 632) throws a RangeError for a quantity of 2^32 or more, aborting the batch;
  - `toBigInt()` and `BigInt(...)` are exact, so for them nothing is lost.
- EntityStore.Upsert: within one `save` call, two rows with the same id are taken to succeed, the last row winning. This happens when one transaction holds two Transfers, Sells or Buys of one token, which give two activities with the same natural key. What the real store does with such a call, which may reject it and abort the batch, is not modelled.
- Strings.ToLower: lower-cases ASCII letters only, because addresses are hex strings.
- References between entities are the referenced entity's id, so the model does not capture object aliasing. Mutating a Token in the working map is modelled as replacing the map entry.
- `Set<Transfer>` and `Set<Activity>` become sequences in insertion order: the source adds a new object each time, so a set never merges two of them.
- Contracts.GetContractEntitySpec: for an address outside the registry, `createContractEntity` builds a Contract with no id (src/contract.ts:49) and `store.insert` (src/contract.ts:65) receives no address. The model takes that insert as succeeding and files the id-less row under the looked-up address. What the store really does with an entity that has no id is not modelled, including a rejection that would abort the batch, since the lookup at src/processor.ts:370 is outside the `try`.
- Contracts.ContractRegistry.GetContractEntity: makes the same assumption about the id-less insert as `Contracts.GetContractEntitySpec`.
- Operator.HandleActivity: has no contract of its own; the lemma `Operator.HandleActivityFields` states its fields.
- The helper modules (src/helper/*.ts) are not modelled, apart from the lower-cased contract addresses they export.
