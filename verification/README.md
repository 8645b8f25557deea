# Genesis marketplace, verified

A Dafny model of the marketplace pallet of a Substrate chain, of the two pallets it leans on, and of the
web client's local copy of the market, with proofs about whole runs of the chain.

The pallet sells physical goods through NFTs. Five pieces of state have to agree: the product table, the
NFT ledger, the balances, the authority state (admin and manufacturers) and the event log. No single call
keeps them in agreement: a purchase moves money, then the NFT, then rewrites the record; redemption asks
the NFT ledger who owns a product, while the sale toggle asks the record. The properties proved are about
what follows from all calls together.

| file | what it holds |
|---|---|
| `Types.dfy` | machine integers, accounts, runtime constants |
| `Balances.dfy` | keep-alive transfers, total issuance |
| `Uniques.dfy` | creating, minting, transferring and burning NFTs |
| `Pallet.dfy` | the pallet's storage and calls: `Chain`, a class whose methods write step by step and are undone on error, and its specification `Check`/`Effect`/`Exec` |
| `Runs.dfy` | runs from genesis and the invariants of reachable states |
| `Verdicts.dfy` | which calls succeed, and which errors can be reported |
| `Sales.dfy` | payment, delivery, provenance and bookkeeping of purchases |
| `History.dfy` | identity, ledger agreement, what only grows, redemption |
| `Log.dfy` | replaying the event log |
| `Rules.dfy` | what the event log lets a reader conclude |
| `Calls.dfy` | admin, registrations and flags as the calls alone tell them |
| `Agreement.dfy` | exactly when the two ledgers agree, and when the log tells the NFT ledger |
| `Creation.dfy` | runs in which anybody may create collections and mint, and when listing is refused |
| `Client.dfy`, `Sessions.dfy`, `Frontend.dfy` | the client's lists, why they stay right, and the client itself |

**Tiers.** A tier A run is any sequence of the pallet's seven calls, succeeding or failing, by any signers.
A tier B run may also contain direct transfers and burns of NFTs by signed calls to the uniques pallet, and
a tier C run, besides, direct creation of collections and direct minting. Theorems say which tier they are
for; each tier includes the one before. Genesis is any set of balances, each at least
the existential deposit, whose sum fits in 128 bits; everything else is empty.

**Failure.** FRAME runs every dispatchable in a storage layer. The methods of `Chain` write as the code does,
so a failing purchase may already have paid; their contracts say what they leave behind. `Chain.Dispatch`
restores the storage on error. The specification instead decides first and writes later, and
`Chain.Dispatch` is proved to amount to that.

**Assumptions about the other pallets** (their code is not part of this model): a transfer of zero or to
oneself does nothing; any other keep-alive transfer needs the sender to keep, and the receiver to end with,
the existential deposit. Creating a collection needs a free id and makes the given admin its issuer as well;
minting needs the issuer and a fresh item; transferring needs the holder or the admin; burning needs the
holder or the admin and the right named owner. The pallet's own account has no key and signs nothing.

**Where comments and code disagree**, the model follows the code. The comments on the pallet account
(lib.rs:39) and on `buy_product` (lib.rs:246-247) speak of an escrow; there is none. `ProductAlreadySold` is
never reported and `ProductTransferred` never emitted. A product can be redeemed by a manufacturer who never
sold it, and redeeming does not take it off sale: it stays on display, and purchases of it are refused
after the payment, which is undone (`Verdicts.RefusedAfterPayment`).

## Model

| member | source | states |
|---|---|---|
| Pallet.Chain.constructor | ecommerce-node/runtime/src/genesis_config_presets.rs:16-23 | The chain starts with endowed balances and no market state at all |
| Pallet.Chain.EnsureCollectionExists | ecommerce-node/pallets/marketplace/src/lib.rs:158-181 | The collection is there afterwards, created under the pallet account if it was missing, or the call reports collection-create-failed and changes nothing |
| Pallet.Chain.ListProduct | ecommerce-node/pallets/marketplace/src/lib.rs:188-244 | Reports the first failing check; on success mints, stores, counts and logs; when minting fails a freshly created collection is left for the storage layer to undo |
| Pallet.Chain.BuyProduct | ecommerce-node/pallets/marketplace/src/lib.rs:250-289 | Reports the first failing check; on success money, NFT, record and log all change; when the NFT cannot be moved the seller has already been paid, and only that remains to be undone |
| Pallet.Chain.RegisterManufacturer | ecommerce-node/pallets/marketplace/src/lib.rs:294-306 | Registers an unregistered account for the admin and logs it, otherwise changes nothing |
| Pallet.Chain.ToggleSale | ecommerce-node/pallets/marketplace/src/lib.rs:311-324 | The recorded owner sets the sale flag, redeemed or not, and it is logged; otherwise nothing changes |
| Pallet.Chain.RedeemProduct | ecommerce-node/pallets/marketplace/src/lib.rs:329-352 | The NFT's holder burns it and the record is marked, the sale flag left as it was; otherwise nothing changes |
| Pallet.Chain.UnregisterManufacturer | ecommerce-node/pallets/marketplace/src/lib.rs:356-376 | Removes a registered account for the admin and logs it, otherwise changes nothing |
| Pallet.Chain.SetAdmin | ecommerce-node/pallets/marketplace/src/lib.rs:381-389 | Open to anybody while no admin is set, afterwards to the admin only |
| Pallet.Chain.Dispatch | ecommerce-node/pallets/marketplace/src/lib.rs:183-391 | Every call, whatever it wrote before failing, has all of its effect or none of it, the event included |
| Balances.TransferConserves | ecommerce-node/pallets/marketplace/src/lib.rs:261-267 | A successful payment moves exactly the price between the two accounts, touches no third one, leaves no dust and conserves the issuance |
| Balances.TransferSucceedsIff | ecommerce-node/pallets/marketplace/src/lib.rs:261-267 | While the issuance fits in 128 bits a payment succeeds iff payer and payee both end up with the existential deposit: overflow never decides |
| Runs.Execute | ecommerce-node/runtime/src/lib.rs:177-184 | Dispatching calls one after the other on the chain's own storage is a run, and from genesis leaves it in a state with all the invariants of its tier |
| Runs.StepKeeps | ecommerce-node/pallets/marketplace/src/lib.rs:183-391 | Every signed call, failing or not, keeps the invariants of reachable states and the issuance |
| Runs.ReachableB | ecommerce-node/pallets/marketplace/src/lib.rs:183-391 | Tier B: dense ids below the cap, a pallet-owned collection with a correct counter, redeemed products without NFT, no dust and constant issuance in every reachable state |
| Runs.ReachableA | ecommerce-node/pallets/marketplace/src/lib.rs:217-239 | Tier A: besides, product table and NFT ledger name the same owner in every reachable state |
| Runs.MintNext | ecommerce-node/pallets/marketplace/src/lib.rs:209-223 | In reachable states below the cap the collection exists or can be created, the next item is unminted, and minting it keeps the NFT ledger in order |
| Runs.BurnKeepsNfts | ecommerce-node/pallets/marketplace/src/lib.rs:344-345 | Burning keeps the NFT ledger in order, its item counter included, whoever is allowed to burn |
| Verdicts.ListVerdict | ecommerce-node/pallets/marketplace/src/lib.rs:194-223 | Listing in a reachable state fails only for the unregistered and at the cap |
| Verdicts.ToggleVerdict | ecommerce-node/pallets/marketplace/src/lib.rs:311-323 | Tier B: a toggle, to either flag, reports product-not-found iff the id was never given out, not-owner iff the record names somebody else, and succeeds otherwise |
| Verdicts.DeliverySucceedsIff | ecommerce-node/pallets/marketplace/src/lib.rs:271-280 | In reachable states the NFT can be moved on behalf of the recorded owner iff that owner holds it |
| Verdicts.BuyVerdict | ecommerce-node/pallets/marketplace/src/lib.rs:250-280 | Every outcome of a purchase in a reachable state, in terms of the ledgers |
| Verdicts.SuccessConditions | ecommerce-node/pallets/marketplace/src/lib.rs:188-352 | Tier A: listing succeeds iff registered and below 1000 products; buying iff listed, on sale, unredeemed, not the buyer's and payable; redeeming iff unredeemed and the caller is the recorded owner; toggling iff the caller is the recorded owner |
| Verdicts.RedeemVerdict | ecommerce-node/pallets/marketplace/src/lib.rs:331-345 | Redemption in a reachable state fails only for an unknown product or a caller who does not hold the NFT |
| Verdicts.ErrorsNeverReported | ecommerce-node/pallets/marketplace/src/lib.rs:134-151 | Tier B: collection-create-failed, mint-failed, burn-failed, already-redeemed and already-sold never occur in reachable states; `Creation.MintFailedIff` has the exact condition for tier C |
| Verdicts.SecondRedemption | ecommerce-node/pallets/marketplace/src/lib.rs:335-339 | Tier B: redeeming again, owner or not, is reported as not-owner |
| Verdicts.TransferFailedIff | ecommerce-node/pallets/marketplace/src/lib.rs:274-280 | Tier A: a purchase is refused at the NFT exactly when the product is redeemed, still on sale, and every earlier check and the payment pass |
| Verdicts.TransferFailedIffNotHeld | ecommerce-node/pallets/marketplace/src/lib.rs:274-280 | Tier B: the same, exactly when the recorded owner does not hold the NFT |
| Verdicts.SplitOwnership | ecommerce-node/pallets/marketplace/src/lib.rs:316 | Tier B: when record and NFT name different owners, each can do only half: one toggles, the other redeems, and nobody can buy |
| Verdicts.OnlyHoldersActDirectly | ecommerce-node/runtime/src/lib.rs:225-226 | Tier B: direct transfers and burns succeed iff the signer holds the NFT and, for burns, names no other owner |
| Verdicts.DirectTransferRoundTrip | ecommerce-node/runtime/src/lib.rs:225-226 | Tier B: sending the NFT away directly to another key holder splits the ledgers, and its being sent back restores the chain exactly |
| Verdicts.RefusedAfterPayment | ecommerce-node/pallets/marketplace/src/lib.rs:261-280 | Tier A: a concrete run after which a purchase pays, is refused at the NFT, and is undone |
| Sales.DeliveryAgainstPayment | ecommerce-node/pallets/marketplace/src/lib.rs:250-289 | Tier B: a purchase takes the price from the buyer, gives it to the account that held the NFT, leaves the buyer holding it and moves nothing else; or it changes nothing |
| Sales.OneSale | ecommerce-node/pallets/marketplace/src/lib.rs:282-285 | A sale as observed on the NFT and money ledgers names the recorded owner as seller, the signer as buyer and the recorded price |
| Sales.Provenance | ecommerce-node/pallets/marketplace/src/lib.rs:231-232 | Tier B: the sales of a product form an unbroken chain from its manufacturer to its recorded owner, with no sale to oneself |
| Sales.SaleCounting | ecommerce-node/pallets/marketplace/src/lib.rs:283 | Tier B: the holder count is the number of sales clipped to 64 bits; the money ever paid is the price times the unclipped number |
| Sales.MoneyIsAccountedFor | ecommerce-node/pallets/marketplace/src/lib.rs:261-267 | Tier B: every balance is its genesis balance plus sales minus purchases, never dust, and the issuance is constant |
| Sales.KeepAliveInNumbers | ecommerce-node/runtime/src/lib.rs:102-107 | Tier B: no balance lies between zero and 1_000_000_000 units, and a purchase of a product on sale is refused for lack of money iff it costs something and the buyer could not keep that amount or the seller would not reach it |
| Sales.CreditFits | ecommerce-node/pallets/marketplace/src/lib.rs:261-266 | Tier B: a price the buyer has never overflows the seller's balance |
| History.DenseAndUnique | ecommerce-node/pallets/marketplace/src/lib.rs:198-211 | Tier B: product keys are exactly the ids below the next id, at most 1000, each record carries its key and the converted item, and items are never shared |
| History.TwoLedgersAgree | ecommerce-node/pallets/marketplace/src/lib.rs:217-240 | Tier A: the NFT ledger holds exactly the unredeemed products, each with its recorded owner, and its item counter is right |
| History.EveryProductWasListed | ecommerce-node/pallets/marketplace/src/lib.rs:226-240 | Tier B: each product stems from a listing call of the run that gave its name, metadata and price and was signed by its manufacturer, registered at that moment |
| History.HistoryOnlyGrows | ecommerce-node/pallets/marketplace/src/lib.rs:226-240 | Tier B: between any two states of a run products are never removed or altered in what they are, redemption is never taken back, counters never fall, the admin is never unset, the log is only appended to |
| History.OutOfReachIff | ecommerce-node/pallets/marketplace/src/lib.rs:335-345 | Tier B: no signer can redeem a product iff its NFT is gone or lies with the pallet's own account |
| History.OutOfReachIsTerminal | ecommerce-node/pallets/marketplace/src/lib.rs:274-280 | Tier B: from then on no continuation changes the NFT's holder, the record beyond the sale flag, or the sales made |
| History.RedemptionIsTerminal | ecommerce-node/pallets/marketplace/src/lib.rs:329-352 | Tier B: after redemption no continuation changes the record beyond the sale flag, brings back the NFT or adds a sale; buying and redeeming always fail; the owner can still toggle |
| Log.StepIsLogged | ecommerce-node/pallets/marketplace/src/lib.rs:121-130 | A call logs one event that tells its whole effect and is legal after the log so far, or logs nothing and changes at most the NFT ledger |
| Log.ReplayRebuilds | ecommerce-node/pallets/marketplace/src/lib.rs:121-130 | Tier B: replaying only the log over genesis rebuilds admin, manufacturers, next id, balances and all records but for name and metadata; every log obeys the rules |
| Log.ReplayRebuildsNfts | ecommerce-node/pallets/marketplace/src/lib.rs:121-130 | Tier A: replaying the log rebuilds the whole NFT ledger |
| Agreement.AgreementKeptIff | ecommerce-node/pallets/marketplace/src/lib.rs:274-344 | From agreement, a tier B call makes product table and NFT ledger disagree iff it succeeds and is a direct burn or a direct transfer to somebody other than its signer |
| Agreement.CallsTell | ecommerce-node/pallets/marketplace/src/lib.rs:217-345 | Tier B: folds over the successful calls alone give the holder of every NFT and the recorded owner of every product |
| Agreement.ProductAgreesIff | ecommerce-node/pallets/marketplace/src/lib.rs:284-337 | Tier B: record and NFT of an unredeemed product agree iff the last call to mint, move or end its NFT left it with the last account to list or buy it |
| Agreement.LedgersAgreeIff | ecommerce-node/pallets/marketplace/src/lib.rs:284-337 | Tier B: the two ledgers agree iff that is so for every unredeemed product |
| Agreement.ReplayAgreesWithTable | ecommerce-node/pallets/marketplace/src/lib.rs:121-130 | Tier B: the NFT ledger replayed from the log is always the one that agrees with the product table |
| Agreement.ReplayTellsNftsIff | ecommerce-node/pallets/marketplace/src/lib.rs:121-130 | Tier B: replaying the log gives the actual NFT ledger iff the two ledgers agree |
| Agreement.LedgersSplit | ecommerce-node/runtime/src/lib.rs:225-226 | A concrete tier B run after which record and NFT name different owners and replay misses it |
| Creation.ListVerdictC | ecommerce-node/pallets/marketplace/src/lib.rs:162-223 | With direct creation and minting around, listing fails only for the unregistered, at the cap, and while somebody else issues the marketplace collection |
| Creation.ReachableC | ecommerce-node/runtime/src/configs/mod.rs:147-149 | Tier C: dense ids, redeemed products without NFT, sound money, and a marketplace collection that is the pallet's to issue once anything was listed; a foreign issuer stays |
| Creation.MintFailedIff | ecommerce-node/pallets/marketplace/src/lib.rs:162-223 | Tier C: mint-failed is reported iff the caller is registered, the cap is not reached and somebody else issues the marketplace collection |
| Creation.DirectCreation | ecommerce-node/runtime/src/configs/mod.rs:141-151 | When direct creation and minting go through and what they do to the NFT ledger, under the stated assumptions on the uniques pallet |
| Creation.OnlyMintFailedIsAdded | ecommerce-node/pallets/marketplace/src/lib.rs:134-151 | Tier C: collection-create-failed, burn-failed, already-redeemed and already-sold still never occur |
| Creation.NothingIsEverListed | ecommerce-node/pallets/marketplace/src/lib.rs:162-223 | Tier C: under a foreign issuer the product table is and stays empty |
| Creation.MintFailedOccurs | ecommerce-node/pallets/marketplace/src/lib.rs:217-223 | A concrete tier C run after which a registered manufacturer's listing reports mint-failed |
| Rules.ResaleNeedsRelisting | ecommerce-node/pallets/marketplace/src/lib.rs:255-320 | Tier B: between two purchases of a product in the log, its latest buyer put it back on sale, so one listing sells at most once |
| Rules.ListingNeedsRegistration | ecommerce-node/pallets/marketplace/src/lib.rs:196 | Tier B: every listing in the log is by an account registered before and not unregistered since |
| Rules.RegistrationsAlternate | ecommerce-node/pallets/marketplace/src/lib.rs:301-373 | Tier B: an account's registrations and unregistrations strictly alternate, a registration first |
| Rules.AdminSuccession | ecommerce-node/pallets/marketplace/src/lib.rs:300-387 | Tier B: every registration, unregistration and admin change was signed by the account in the latest admin event before it, the first admin event excepted; an admin once set stays set |
| Rules.RegisterVerdict | ecommerce-node/pallets/marketplace/src/lib.rs:298-305 | Tier B: registering succeeds iff the signer is the account in the latest admin event and the log has the manufacturer as unregistered; each error has its exact condition |
| Rules.UnregisterVerdict | ecommerce-node/pallets/marketplace/src/lib.rs:360-375 | Tier B: unregistering succeeds iff the signer is the account in the latest admin event and the log has the manufacturer as registered; each error has its exact condition |
| Rules.SetAdminVerdict | ecommerce-node/pallets/marketplace/src/lib.rs:382-388 | Tier B: the admin can be changed iff there is no admin event yet or the signer is the account in the latest one; the only error is not-authorized |
| Rules.ListVerdictFromLog | ecommerce-node/pallets/marketplace/src/lib.rs:188-223 | Tier B: a listing, at any price and with any name and metadata of up to 64 and 256 bytes, succeeds iff the log has the signer as registered and holds fewer than 1000 listings |
| Rules.RedemptionNamesHolder | ecommerce-node/pallets/marketplace/src/lib.rs:335-350 | Tier B: a redemption logs the account that held the NFT and signed |
| Calls.CallsTell | ecommerce-node/pallets/marketplace/src/lib.rs:183-391 | Tier C: admin, registrations, sale and redeemed flags are what the arguments of the last successful calls about them say |
| Frontend.App.Sync | genesis-marketplace/src/App.tsx:39-104 | The product list mirrors the chain in key order, the locker is the part of it owned by the connected account, and both are truthful |
| Frontend.App.HandleBuy | genesis-marketplace/src/App.tsx:122-189 | After a successful purchase the locker has one entry more, the bought product off sale in front, the others behind it in their order, and the product list shows it off sale; after a failed one nothing changes; truthful lists stay truthful |
| Frontend.App.HandleToggleSale | genesis-marketplace/src/App.tsx:191-227 | After a successful toggle both lists show the new flag; after a failed one nothing changes; truthful lists stay truthful |
| Frontend.App.HandleRedeem | genesis-marketplace/src/App.tsx:229-266 | After a successful redemption both lists show it; after a failed one nothing changes; truthful lists stay truthful |
| Sessions.SyncIsTruthful | genesis-marketplace/src/App.tsx:48-98 | Right after a sync the lists are duplicate-free, complete and right in every flag, and the locker holds exactly the account's products |
| Sessions.ActionStaysTruthful | genesis-marketplace/src/App.tsx:168-257 | One action of the connected account, successful or not, keeps all of that |
| Sessions.ClientSimulatesChain | genesis-marketplace/src/App.tsx:94-257 | In any single-actor session from a sync on, the patched lists agree with a chain that is never read again |
| Sessions.FilteredPicks | genesis-marketplace/src/App.tsx:96-98 | The locker filter keeps the entries of the account unchanged and in order, and misses none |
| Sessions.LockerOrder | genesis-marketplace/src/App.tsx:94-180 | After any session the locker's ids are those bought, latest first, then those owned at the sync in key order |
| Sessions.LockerMirrorsInSession | genesis-marketplace/src/App.tsx:94-257 | Throughout a session every locker entry equals an entry of the product list in all its fields |
| Sessions.ForeignCallKeepsTruthIff | genesis-marketplace/src/App.tsx:94-104 | A call the client does not know of leaves its lists right iff it fails, or is of the authorities or of the uniques pallet, or toggles a product to the flag it has |
| Sessions.OwnerShownIff | genesis-marketplace/src/App.tsx:168-180 | The owner shown is the owner at the sync: right exactly for the products the account did not buy in the session |

## Left out

- Fees, weights, nonces, signatures and hashing: the signer is given, and fees are outside the run.
- Root, sudo, approvals, freezing, supply limits, destroying collections or changing their team, and direct sales in the uniques pallet; locks, freezes and direct transfers in the balances pallet.
- Events of the balances and uniques pallets: the log holds the marketplace's events only.
- Encoding: SCALE, key hashing, and conversions between byte vectors with the same bounds, which cannot fail.
- The node, the runtime's forwarding code, mocks, template tests and benchmarks.
- The client's user interface, promises and error texts: a finalized call is one atomic step, and so is a sync.
- Client fields other than id, owner and the two flags, and the decoding of chain values: booleans arrive as booleans, which `chainBool` passes through.
- Reconnecting during a session: the client reads the chain again only when the account changes. Calls of others in between are covered one at a time, by `Sessions.ForeignCallKeepsTruthIff`.
- Runs.ReachableA: is for tier A, because a direct transfer or burn can make the two ledgers disagree (`Agreement.LedgersSplit`); `Agreement.AgreementKeptIff` and `Agreement.LedgersAgreeIff` say exactly when one does.
- Log.ReplayRebuildsNfts: is for tier A, because the marketplace log does not mention direct transfers and burns; `Agreement.ReplayTellsNftsIff` says exactly when replay is right in tier B.
- Verdicts.ErrorsNeverReported: is for tier B, because mint-failed does occur in tier C (`Creation.MintFailedOccurs`); `Creation.MintFailedIff` and `Creation.OnlyMintFailedIsAdded` say exactly what changes.
