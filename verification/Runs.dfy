/** Runs of the chain from genesis, in three tiers. Tier A runs hold only the pallet's seven calls.
    Tier B runs also hold direct transfers and burns of NFTs, and tier C runs, besides, direct creation
    of collections and direct minting. Calls may succeed or fail. */
module Runs {
  import opened Types
  import opened Pallet
  import Balances
  import Uniques

  /** Nobody holds a key of the pallet's own account, so it never signs. */
  predicate TierC(x: Signed) {
    x.who != PalletAccount
  }

  predicate TierB(x: Signed) {
    TierC(x) && !x.call.CreateCollection? && !x.call.MintItem?
  }

  predicate TierA(x: Signed) {
    TierB(x) && !x.call.TransferItem? && !x.call.BurnItem?
  }

  ghost predicate AllTierA(xs: seq<Signed>) {
    forall i :: 0 <= i < |xs| ==> TierA(xs[i])
  }

  ghost predicate AllTierB(xs: seq<Signed>) {
    forall i :: 0 <= i < |xs| ==> TierB(xs[i])
  }

  ghost predicate AllTierC(xs: seq<Signed>) {
    forall i :: 0 <= i < |xs| ==> TierC(xs[i])
  }

  /** The balances pallet refuses a genesis with dust, and sums the issuance in 128 bits. */
  ghost predicate Genesis(g: State) {
    && g.products == map[] && g.manufacturers == {} && g.nextId == 0 && g.admin == None
    && g.uniques == Uniques.Ledger(map[], map[]) && g.events == []
    && (forall a :: a in g.balances ==> g.balances[a] >= EXISTENTIAL_DEPOSIT)
    && Balances.Total(g.balances) <= 340_282_366_920_938_463_463_374_607_431_768_211_455
  }

  ghost function Run(s: State, xs: seq<Signed>): State {
    if xs == [] then s else Exec(Run(s, xs[..|xs| - 1]), xs[|xs| - 1])
  }

  /** The executive: one call after the other, on the chain's own storage. */
  method Execute(chain: Chain, xs: seq<Signed>)
    modifies chain
    ensures chain.View() == Run(old(chain.View()), xs)
    ensures old(Genesis(chain.View())) && AllTierB(xs) ==> InvB(chain.View())
    ensures old(Genesis(chain.View())) && AllTierA(xs) ==> InvA(chain.View())
  {
    ghost var start := chain.View();
    for k := 0 to |xs|
      invariant chain.View() == Run(start, xs[..k])
    {
      var _ := chain.Dispatch(xs[k]);
      assert xs[..k + 1][..k] == xs[..k];
    }
    assert xs[..|xs|] == xs;
    if Genesis(start) && AllTierB(xs) { ReachableB(start, xs); }
    if Genesis(start) && AllTierA(xs) { ReachableA(start, xs); }
  }

  lemma {:induction false} RunConcat(s: State, xs: seq<Signed>, ys: seq<Signed>)
    ensures Run(s, xs + ys) == Run(Run(s, xs), ys)
    decreases |ys|
  {
    if ys == [] {
      assert xs + ys == xs;
    } else {
      var front := ys[..|ys| - 1];
      RunConcat(s, xs, front);
      assert (xs + ys)[..|xs + ys| - 1] == xs + front;
    }
  }

  // What every call keeps, whatever direct NFT calls are interleaved.

  function KeyOf(id: U32): Uniques.ItemKey {
    Uniques.ItemKey(MARKETPLACE_COLLECTION, ItemOf(id))
  }

  ghost predicate ProductOk(p: Product, i: U32, u: Uniques.Ledger) {
    && p.id == i && p.item == ItemOf(i)
    && p.owner != PalletAccount && p.genesisOwner != PalletAccount
    && (p.isRedeemed ==> KeyOf(i) !in u.items)
  }

  ghost predicate ProductsOk(products: map<U32, Product>, nextId: U32, u: Uniques.Ledger) {
    && nextId <= MAX_PRODUCTS
    && (forall i: U32 :: i in products <==> i < nextId)
    && (forall i: U32 :: i in products ==> ProductOk(products[i], i, u))
  }

  /** The marketplace collection exists once something was listed, belongs to the pallet, counts its
      NFTs correctly, and no NFT exists beyond those of listed products. */
  ghost predicate NftsOk(u: Uniques.Ledger, nextId: U32) {
    && (MARKETPLACE_COLLECTION in u.collections <==> nextId > 0)
    && (forall c :: c in u.collections ==>
          c == MARKETPLACE_COLLECTION
          && u.collections[c] == Uniques.Collection(PalletAccount, PalletAccount, PalletAccount, |u.items|))
    && |u.items| <= nextId
    && forall k :: k in u.items ==> k.collection == MARKETPLACE_COLLECTION && k.item < nextId
  }

  ghost predicate MoneyOk(b: Balances.Ledger) {
    Balances.NoDust(b) && Balances.Total(b) <= U128_MAX
  }

  ghost predicate InvB(s: State) {
    ProductsOk(s.products, s.nextId, s.uniques) && NftsOk(s.uniques, s.nextId) && MoneyOk(s.balances)
  }

  ghost predicate Agree(products: map<U32, Product>, u: Uniques.Ledger) {
    forall i: U32 :: i in products && !products[i].isRedeemed ==>
      KeyOf(i) in u.items && u.items[KeyOf(i)] == products[i].owner
  }

  /** Without direct NFT calls, the NFT ledger and the product table also agree on who owns what. */
  ghost predicate InvA(s: State) {
    InvB(s) && Agree(s.products, s.uniques)
  }

  // The NFT ledger by itself.

  /** In a reachable state the collection is there or can be created, the next item is unminted, and
      the pallet may mint it. */
  lemma MintNext(u: Uniques.Ledger, n: U32, who: Account)
    requires NftsOk(u, n) && n < MAX_PRODUCTS
    ensures WithCollection(u, MARKETPLACE_COLLECTION).Success? && KeyOf(n) !in u.items
    ensures var prepared := WithCollection(u, MARKETPLACE_COLLECTION).value;
      var minted := Uniques.Mint(prepared, PalletAccount, MARKETPLACE_COLLECTION, ItemOf(n), who);
      && minted.Success?
      && minted.value.items == u.items[KeyOf(n) := who]
      && minted.value.collections == u.collections[MARKETPLACE_COLLECTION :=
           Uniques.Collection(PalletAccount, PalletAccount, PalletAccount, |u.items| + 1)]
      && NftsOk(minted.value, n + 1)
  {
    if n == 0 {
      assert u.items == map[] by { assert |u.items| == 0; }
    }
  }

  lemma MoveKeepsNfts(u: Uniques.Ledger, n: U32, signer: Account, c: U32, item: U32, dest: Account)
    requires NftsOk(u, n) && Uniques.Transfer(u, signer, c, item, dest).Success?
    ensures NftsOk(Uniques.Transfer(u, signer, c, item, dest).value, n)
  {
    var k := Uniques.ItemKey(c, item);
    assert u.items[k := dest].Keys == u.items.Keys;
    assert |u.items[k := dest]| == |u.items|;
  }

  lemma BurnKeepsNfts(u: Uniques.Ledger, n: U32, signer: Account, c: U32, item: U32, checkOwner: Option<Account>)
    requires NftsOk(u, n) && Uniques.Burn(u, signer, c, item, checkOwner).Success?
    ensures NftsOk(Uniques.Burn(u, signer, c, item, checkOwner).value, n)
  {
    var k := Uniques.ItemKey(c, item);
    assert (u.items - {k}).Keys == u.items.Keys - {k};
    assert |u.items - {k}| == |u.items| - 1;
  }

  lemma ProductsKeptWithFewerNfts(products: map<U32, Product>, n: U32, u: Uniques.Ledger, u': Uniques.Ledger)
    requires ProductsOk(products, n, u) && u'.items.Keys <= u.items.Keys
    ensures ProductsOk(products, n, u')
  {
  }

  lemma ProductsKeptByUpdate(products: map<U32, Product>, n: U32, u: Uniques.Ledger, id: U32, p: Product)
    requires ProductsOk(products, n, u) && id in products && ProductOk(p, id, u)
    ensures ProductsOk(products[id := p], n, u)
  {
  }

  // One lemma a call.

  lemma ListKeeps(s: State, who: Account, name: Name, metadata: Metadata, price: U128)
    requires InvB(s) && who != PalletAccount && CheckList(s, who).None?
    ensures InvB(EffectList(s, who, name, metadata, price))
    ensures InvA(s) ==> InvA(EffectList(s, who, name, metadata, price))
  {
    MintNext(s.uniques, s.nextId, who);
    var s' := EffectList(s, who, name, metadata, price);
    forall i: U32 | i in s'.products ensures ProductOk(s'.products[i], i, s'.uniques) {
      if i != s.nextId { assert ProductOk(s.products[i], i, s.uniques); }
    }
  }

  lemma BuyKeeps(s: State, buyer: Account, id: U32)
    requires InvB(s) && buyer != PalletAccount && CheckBuy(s, buyer, id).None?
    ensures InvB(EffectBuy(s, buyer, id))
    ensures InvA(s) ==> InvA(EffectBuy(s, buyer, id))
    ensures Balances.Total(EffectBuy(s, buyer, id).balances) == Balances.Total(s.balances)
  {
    var s', p := EffectBuy(s, buyer, id), s.products[id];
    assert ProductOk(p, id, s.uniques);
    Balances.TransferConserves(s.balances, buyer, p.owner, p.price);
    MoveKeepsNfts(s.uniques, s.nextId, p.owner, MARKETPLACE_COLLECTION, p.item, buyer);
    ProductsKeptWithFewerNfts(s.products, s.nextId, s.uniques, s'.uniques);
    ProductsKeptByUpdate(s.products, s.nextId, s'.uniques, id, s'.products[id]);
  }

  lemma RedeemKeeps(s: State, who: Account, id: U32)
    requires InvB(s) && CheckRedeem(s, who, id).None?
    ensures InvB(EffectRedeem(s, who, id))
    ensures InvA(s) ==> InvA(EffectRedeem(s, who, id))
  {
    var s', p := EffectRedeem(s, who, id), s.products[id];
    assert ProductOk(p, id, s.uniques);
    BurnKeepsNfts(s.uniques, s.nextId, who, MARKETPLACE_COLLECTION, p.item, Some(who));
    ProductsKeptWithFewerNfts(s.products, s.nextId, s.uniques, s'.uniques);
    ProductsKeptByUpdate(s.products, s.nextId, s'.uniques, id, s'.products[id]);
  }

  lemma ToggleKeeps(s: State, who: Account, id: U32, forSale: bool)
    requires InvB(s) && CheckToggle(s, who, id).None?
    ensures InvB(EffectToggle(s, who, id, forSale))
    ensures InvA(s) ==> InvA(EffectToggle(s, who, id, forSale))
  {
    var s', p := EffectToggle(s, who, id, forSale), s.products[id];
    assert ProductOk(p, id, s.uniques);
    ProductsKeptByUpdate(s.products, s.nextId, s.uniques, id, s'.products[id]);
  }

  lemma StepKeeps(s: State, x: Signed)
    requires InvB(s) && TierB(x)
    ensures InvB(Exec(s, x))
    ensures InvA(s) && TierA(x) ==> InvA(Exec(s, x))
    ensures Balances.Total(Exec(s, x).balances) == Balances.Total(s.balances)
  {
    if Check(s, x).None? {
      match x.call
      case ListProduct(name, metadata, price) => ListKeeps(s, x.who, name, metadata, price);
      case BuyProduct(id) => BuyKeeps(s, x.who, id);
      case RedeemProduct(id) => RedeemKeeps(s, x.who, id);
      case ToggleSale(id, forSale) => ToggleKeeps(s, x.who, id, forSale);
      case TransferItem(c, i, dest) =>
        MoveKeepsNfts(s.uniques, s.nextId, x.who, c, i, dest);
        ProductsKeptWithFewerNfts(s.products, s.nextId, s.uniques, Exec(s, x).uniques);
      case BurnItem(c, i, checkOwner) =>
        BurnKeepsNfts(s.uniques, s.nextId, x.who, c, i, checkOwner);
        ProductsKeptWithFewerNfts(s.products, s.nextId, s.uniques, Exec(s, x).uniques);
      case _ =>
    }
  }

  /** Tier B: every reachable state satisfies `InvB`, and the issuance never moves. */
  lemma {:induction false} ReachableB(s: State, xs: seq<Signed>)
    requires (Genesis(s) || InvB(s)) && AllTierB(xs)
    ensures InvB(Run(s, xs))
    ensures Balances.Total(Run(s, xs).balances) == Balances.Total(s.balances)
    decreases |xs|
  {
    if xs != [] {
      ReachableB(s, xs[..|xs| - 1]);
      StepKeeps(Run(s, xs[..|xs| - 1]), xs[|xs| - 1]);
    }
  }

  /** Tier A: two-ledger agreement and all the rest of `InvA` in every reachable state. */
  lemma {:induction false} ReachableA(s: State, xs: seq<Signed>)
    requires (Genesis(s) || InvA(s)) && AllTierA(xs)
    ensures InvA(Run(s, xs))
    decreases |xs|
  {
    if xs != [] {
      ReachableA(s, xs[..|xs| - 1]);
      StepKeeps(Run(s, xs[..|xs| - 1]), xs[|xs| - 1]);
    }
  }
}
