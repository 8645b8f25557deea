/** Exactly when the product table and the NFT ledger agree, once direct NFT calls are interleaved, and
    exactly when the event log still tells the NFT ledger (tier B). */
module Agreement {
  import opened Types
  import opened Pallet
  import opened Runs
  import opened Log
  import Uniques
  import Verdicts

  // One call.

  /** The calls that pull the two ledgers apart, told from the call alone. */
  predicate PullsApart(x: Signed) {
    (x.call.TransferItem? && x.call.dest != x.who) || x.call.BurnItem?
  }

  /** A direct call that goes through is about a listed, unredeemed product of the signer. */
  lemma DirectCallIsAboutAProduct(s: State, x: Signed)
    requires InvA(s) && TierB(x) && (x.call.TransferItem? || x.call.BurnItem?) && Check(s, x).None?
    ensures x.call.collection == MARKETPLACE_COLLECTION && x.call.item in s.products
    ensures var p := s.products[x.call.item]; !p.isRedeemed && p.owner == x.who
    ensures KeyOf(x.call.item) in s.uniques.items
  {
    var i := x.call.item;
    assert Uniques.ItemKey(x.call.collection, i) in s.uniques.items;
    assert i in s.products && ProductOk(s.products[i], i, s.uniques);
  }

  /** From agreement, a call leads to disagreement iff it goes through and is a direct transfer to
      somebody else or a direct burn. */
  lemma AgreementKeptIff(s: State, x: Signed)
    requires InvA(s) && TierB(x)
    ensures Agree(Exec(s, x).products, Exec(s, x).uniques) <==> !(Check(s, x).None? && PullsApart(x))
  {
    StepKeeps(s, x);
    if Check(s, x).None? && !TierA(x) {
      DirectCallIsAboutAProduct(s, x);
      var i, s' := x.call.item, Exec(s, x);
      if PullsApart(x) {
        assert !(KeyOf(i) in s'.uniques.items && s'.uniques.items[KeyOf(i)] == s'.products[i].owner);
        assert i in s'.products && !s'.products[i].isRedeemed;
      } else {
        assert s'.uniques.items == s.uniques.items;
      }
    }
  }

  // Whole runs: holder and owner of a product as its calls alone tell them.

  predicate About(x: Signed, id: U32) {
    match x.call
    case BuyProduct(i) => i == id
    case RedeemProduct(i) => i == id
    case TransferItem(c, item, _) => Uniques.ItemKey(c, item) == KeyOf(id)
    case BurnItem(c, item, _) => Uniques.ItemKey(c, item) == KeyOf(id)
    case _ => false
  }

  /** Where a successful call leaves the NFT of a product: listing mints it to the signer, a purchase
      brings it to the buyer, a transfer to the destination, and redeeming or burning ends it. */
  function HolderAfter(h: Option<Account>, nextId: U32, x: Signed, id: U32): Option<Account> {
    if x.call.ListProduct? && nextId == id then Some(x.who)
    else if !About(x, id) then h
    else if x.call.BuyProduct? then Some(x.who)
    else if x.call.TransferItem? then Some(x.call.dest)
    else None
  }

  /** Only listing and buying name an owner in the record. */
  function OwnerAfter(o: Option<Account>, nextId: U32, x: Signed, id: U32): Option<Account> {
    if (x.call.ListProduct? && nextId == id) || x.call == BuyProduct(id) then Some(x.who) else o
  }

  ghost function HolderByCalls(g: State, xs: seq<Signed>, id: U32): Option<Account> {
    if xs == [] then None else
      var front, x := xs[..|xs| - 1], xs[|xs| - 1];
      var s, h := Run(g, front), HolderByCalls(g, front, id);
      if Check(s, x).None? then HolderAfter(h, s.nextId, x, id) else h
  }

  ghost function OwnerByCalls(g: State, xs: seq<Signed>, id: U32): Option<Account> {
    if xs == [] then None else
      var front, x := xs[..|xs| - 1], xs[|xs| - 1];
      var s, o := Run(g, front), OwnerByCalls(g, front, id);
      if Check(s, x).None? then OwnerAfter(o, s.nextId, x, id) else o
  }

  function Held(u: Uniques.Ledger, id: U32): Option<Account> {
    Uniques.HolderOf(u, MARKETPLACE_COLLECTION, ItemOf(id))
  }

  function Recorded(s: State, id: U32): Option<Account> {
    if id in s.products then Some(s.products[id].owner) else None
  }

  lemma StepTellsHolder(s: State, x: Signed, id: U32)
    requires InvB(s) && TierB(x) && Check(s, x).None?
    ensures Held(Exec(s, x).uniques, id) == HolderAfter(Held(s.uniques, id), s.nextId, x, id)
  {
    match x.call
    case ListProduct(_, _, _) => MintNext(s.uniques, s.nextId, x.who);
    case BuyProduct(i) => assert ProductOk(s.products[i], i, s.uniques);
    case RedeemProduct(i) => assert ProductOk(s.products[i], i, s.uniques);
    case _ =>
  }

  lemma StepTellsOwner(s: State, x: Signed, id: U32)
    requires Check(s, x).None?
    ensures Recorded(Exec(s, x), id) == OwnerAfter(Recorded(s, id), s.nextId, x, id)
  {
  }

  /** Tier B: both folds over the successful calls are right in every reachable state. */
  lemma {:induction false} CallsTell(g: State, xs: seq<Signed>, id: U32)
    requires Genesis(g) && AllTierB(xs)
    ensures Held(Run(g, xs).uniques, id) == HolderByCalls(g, xs, id)
    ensures Recorded(Run(g, xs), id) == OwnerByCalls(g, xs, id)
    decreases |xs|
  {
    if xs != [] {
      var front, x := xs[..|xs| - 1], xs[|xs| - 1];
      CallsTell(g, front, id);
      ReachableB(g, front);
      if Check(Run(g, front), x).None? {
        StepTellsHolder(Run(g, front), x, id);
        StepTellsOwner(Run(g, front), x, id);
      }
    }
  }

  /** Tier B: record and NFT of an unredeemed product agree iff the last call that moved, minted or ended
      its NFT left it with the last account to list or buy it. */
  lemma ProductAgreesIff(g: State, xs: seq<Signed>, id: U32)
    requires Genesis(g) && AllTierB(xs)
    requires id in Run(g, xs).products && !Run(g, xs).products[id].isRedeemed
    ensures Holder(Run(g, xs), id) == Some(Run(g, xs).products[id].owner)
      <==> HolderByCalls(g, xs, id) == OwnerByCalls(g, xs, id)
  {
    ReachableB(g, xs);
    CallsTell(g, xs, id);
    assert ProductOk(Run(g, xs).products[id], id, Run(g, xs).uniques);
  }

  ghost predicate CallsAgree(g: State, xs: seq<Signed>) {
    forall id: U32 :: id in Run(g, xs).products && !Run(g, xs).products[id].isRedeemed ==>
      HolderByCalls(g, xs, id) == OwnerByCalls(g, xs, id)
  }

  /** Tier B: the two ledgers agree iff that is so for every unredeemed product. */
  lemma LedgersAgreeIff(g: State, xs: seq<Signed>)
    requires Genesis(g) && AllTierB(xs)
    ensures Agree(Run(g, xs).products, Run(g, xs).uniques) <==> CallsAgree(g, xs)
  {
    ReachableB(g, xs);
    var s := Run(g, xs);
    forall id: U32 | id in s.products && !s.products[id].isRedeemed
      ensures (KeyOf(id) in s.uniques.items && s.uniques.items[KeyOf(id)] == s.products[id].owner)
        <==> HolderByCalls(g, xs, id) == OwnerByCalls(g, xs, id)
    {
      ProductAgreesIff(g, xs, id);
      assert ProductOk(s.products[id], id, s.uniques);
    }
  }

  // What the log says about NFTs.

  function WithNfts(s: State, u: Uniques.Ledger): State {
    s.(uniques := u)
  }

  // A logged call keeps the replayed NFT ledger `u` in agreement with the table: the same call, made where
  // `u` is the actual ledger, does to it what the event says.

  lemma InvASharesNfts(t: State, s: State)
    requires InvA(t) && s.products == t.products && s.nextId == t.nextId && s.balances == t.balances
    ensures InvA(WithNfts(s, t.uniques))
  {
  }

  lemma ListInStep(s: State, who: Account, name: Name, metadata: Metadata, price: U128, u: Uniques.Ledger)
    requires InvA(WithNfts(s, u)) && CheckList(s, who).None? && who != PalletAccount
    ensures var e := ProductListed(s.nextId, ItemOf(s.nextId), who, price);
      InvA(WithNfts(EffectList(s, who, name, metadata, price), ApplyNft(u, e)))
  {
    var t := WithNfts(s, u);
    Verdicts.ListVerdict(t, who);
    ListIsLogged(t, who, name, metadata, price);
    ListKeeps(t, who, name, metadata, price);
    InvASharesNfts(EffectList(t, who, name, metadata, price), EffectList(s, who, name, metadata, price));
  }

  lemma BuyInStep(s: State, buyer: Account, id: U32, u: Uniques.Ledger)
    requires InvB(s) && InvA(WithNfts(s, u)) && CheckBuy(s, buyer, id).None? && buyer != PalletAccount
    ensures var p := s.products[id];
      var e := ProductPurchased(id, p.item, buyer, p.price, SaturatingInc(p.holdersCount));
      InvA(WithNfts(EffectBuy(s, buyer, id), ApplyNft(u, e)))
  {
    var t := WithNfts(s, u);
    assert ProductOk(s.products[id], id, s.uniques);
    Verdicts.BuyVerdict(s, buyer, id);
    Verdicts.BuyVerdict(t, buyer, id);
    BuyIsLogged(t, buyer, id);
    BuyKeeps(t, buyer, id);
    InvASharesNfts(EffectBuy(t, buyer, id), EffectBuy(s, buyer, id));
  }

  /** The log takes every redemption for one by the recorded owner. */
  lemma RedeemInStep(s: State, who: Account, id: U32, u: Uniques.Ledger)
    requires InvB(s) && InvA(WithNfts(s, u)) && CheckRedeem(s, who, id).None?
    ensures InvA(WithNfts(EffectRedeem(s, who, id), ApplyNft(u, ProductRedeemed(id, s.products[id].item, who))))
  {
    var t, owner := WithNfts(s, u), s.products[id].owner;
    OwnerCanRedeem(t, id);
    RedeemIsLogged(t, owner, id);
    RedeemKeeps(t, owner, id);
    InvASharesNfts(EffectRedeem(t, owner, id), EffectRedeem(s, who, id));
  }

  lemma OwnerCanRedeem(t: State, id: U32)
    requires InvA(t) && id in t.products && !t.products[id].isRedeemed
    ensures CheckRedeem(t, t.products[id].owner, id).None?
  {
    assert ProductOk(t.products[id], id, t.uniques);
    Verdicts.RedeemVerdict(t, t.products[id].owner, id);
  }

  lemma CallInStep(s: State, x: Signed, u: Uniques.Ledger)
    requires InvB(s) && InvA(WithNfts(s, u)) && TierA(x) && Check(s, x).None?
    ensures InvA(WithNfts(Exec(s, x), ApplyNft(u, Logged(s, x))))
  {
    match x.call
    case ListProduct(name, metadata, price) => ListInStep(s, x.who, name, metadata, price, u);
    case BuyProduct(id) => BuyInStep(s, x.who, id, u);
    case RedeemProduct(id) => RedeemInStep(s, x.who, id, u);
    case ToggleSale(id, forSale) => ToggleKeeps(WithNfts(s, u), x.who, id, forSale);
    case _ => InvASharesNfts(WithNfts(s, u), Exec(s, x));
  }

  /** Tier B: the replayed NFT ledger is always the one that agrees with the product table. */
  lemma {:induction false} ReplayAgreesWithTable(g: State, xs: seq<Signed>)
    requires Genesis(g) && AllTierB(xs)
    ensures InvA(WithNfts(Run(g, xs), ReplayNft(Run(g, xs).events)))
    decreases |xs|
  {
    if xs != [] {
      var front, x := xs[..|xs| - 1], xs[|xs| - 1];
      ReplayAgreesWithTable(g, front);
      ReachableB(g, front);
      var s := Run(g, front);
      StepIsLogged(s, x);
      if TierA(x) && Check(s, x).None? {
        assert (s.events + [Logged(s, x)])[..|s.events|] == s.events;
        CallInStep(s, x, ReplayNft(s.events));
      }
    }
  }

  /** There is only one NFT ledger that agrees with a product table. */
  lemma AgreementDetermines(s: State, u: Uniques.Ledger)
    requires InvA(s) && InvA(WithNfts(s, u))
    ensures s.uniques == u
  {
    SameNfts(s, WithNfts(s, u));
    SameNfts(WithNfts(s, u), s);
    assert s.uniques.items == u.items;
    assert s.uniques.collections == u.collections;
  }

  lemma SameNfts(s: State, t: State)
    requires InvA(s) && InvA(t) && s.products == t.products && s.nextId == t.nextId
    ensures forall k :: k in s.uniques.items ==> k in t.uniques.items && t.uniques.items[k] == s.uniques.items[k]
  {
    forall k | k in s.uniques.items ensures k in t.uniques.items && t.uniques.items[k] == s.uniques.items[k] {
      var i: U32 := k.item;
      assert k == KeyOf(i) && i in s.products && ProductOk(s.products[i], i, s.uniques);
    }
  }

  /** Tier B: replaying the log gives the NFT ledger iff the two ledgers agree. */
  lemma ReplayTellsNftsIff(g: State, xs: seq<Signed>)
    requires Genesis(g) && AllTierB(xs)
    ensures Run(g, xs).uniques == ReplayNft(Run(g, xs).events)
      <==> Agree(Run(g, xs).products, Run(g, xs).uniques)
  {
    ReachableB(g, xs);
    ReplayAgreesWithTable(g, xs);
    var s := Run(g, xs);
    if InvA(s) {
      AgreementDetermines(s, ReplayNft(s.events));
    } else {
      assert WithNfts(s, s.uniques) == s;
    }
  }

  // A run that ends in disagreement.

  function ListedThenSentAway(): seq<Signed> {
    Verdicts.ListedThenRedeemed()[..3]
    + [Signed(Verdicts.MAKER, TransferItem(MARKETPLACE_COLLECTION, 0, Verdicts.BUYER))]
  }

  /** A manufacturer lists a product and sends the NFT away directly: the record still names it, the NFT
      is somebody else's, and replaying the log misses that. */
  lemma LedgersSplit()
    ensures Genesis(Verdicts.TwoFunded()) && AllTierB(ListedThenSentAway())
    ensures var s := Run(Verdicts.TwoFunded(), ListedThenSentAway());
      && 0 in s.products && s.products[0].owner == Verdicts.MAKER && !s.products[0].isRedeemed
      && Holder(s, 0) == Some(Verdicts.BUYER)
      && !Agree(s.products, s.uniques) && s.uniques != ReplayNft(s.events)
  {
    var g, xs, ys := Verdicts.TwoFunded(), Verdicts.ListedThenRedeemed(), ListedThenSentAway();
    Verdicts.TwoFundedIsGenesis();
    Verdicts.RunOfFour(g, xs[0], xs[1], xs[2], ys[3]);
    assert ys == [xs[0], xs[1], xs[2], ys[3]];
    Verdicts.RunRegistered();
    var listed := Verdicts.RunListed();
    ReplayTellsNftsIff(g, ys);
  }
}
