/** Tier C: anybody may also create collections and mint into collections of which they are the issuer,
    the marketplace's collection id included. What still holds, and exactly when listing is refused. */
module Creation {
  import opened Types
  import opened Pallet
  import opened Runs
  import Balances
  import Uniques
  import Verdicts

  /** Somebody other than the pallet's account issues the marketplace collection. */
  predicate IssuedElsewhere(u: Uniques.Ledger) {
    MARKETPLACE_COLLECTION in u.collections && u.collections[MARKETPLACE_COLLECTION].issuer != PalletAccount
  }

  /** Items live in existing collections. Those of the marketplace collection are products, unless
      somebody else issues it, and then nothing was ever listed. */
  ghost predicate NftsOkC(u: Uniques.Ledger, nextId: U32) {
    && (nextId > 0 ==> MARKETPLACE_COLLECTION in u.collections && !IssuedElsewhere(u))
    && (forall k :: k in u.items ==> k.collection in u.collections)
    && (MARKETPLACE_COLLECTION in u.collections && !IssuedElsewhere(u) ==>
          && u.collections[MARKETPLACE_COLLECTION].items <= nextId
          && forall k :: k in u.items && k.collection == MARKETPLACE_COLLECTION ==> k.item < nextId)
  }

  ghost predicate InvC(s: State) {
    ProductsOk(s.products, s.nextId, s.uniques) && NftsOkC(s.uniques, s.nextId) && MoneyOk(s.balances)
  }

  lemma InvBIsInvC(s: State)
    requires InvB(s)
    ensures InvC(s) && !IssuedElsewhere(s.uniques)
  {
  }

  /** Listing is refused by the unregistered, at the cap, and while somebody else is the issuer. */
  lemma ListVerdictC(s: State, who: Account)
    requires InvC(s)
    ensures CheckList(s, who) ==
      if who !in s.manufacturers then Some(NotManufacturer)
      else if s.nextId >= MAX_PRODUCTS then Some(Error.Overflow)
      else if IssuedElsewhere(s.uniques) then Some(MintFailed)
      else None
  {
  }

  lemma ListKeepsC(s: State, who: Account, name: Name, metadata: Metadata, price: U128)
    requires InvC(s) && who != PalletAccount && CheckList(s, who).None?
    ensures InvC(EffectList(s, who, name, metadata, price))
  {
    ListVerdictC(s, who);
    var s' := EffectList(s, who, name, metadata, price);
    forall i: U32 | i in s'.products ensures ProductOk(s'.products[i], i, s'.uniques) {
      if i != s.nextId { assert ProductOk(s.products[i], i, s.uniques); }
    }
  }

  lemma BuyKeepsC(s: State, buyer: Account, id: U32)
    requires InvC(s) && buyer != PalletAccount && CheckBuy(s, buyer, id).None?
    ensures InvC(EffectBuy(s, buyer, id))
  {
    var s', p := EffectBuy(s, buyer, id), s.products[id];
    assert ProductOk(p, id, s.uniques);
    Balances.TransferConserves(s.balances, buyer, p.owner, p.price);
    ProductsKeptWithFewerNfts(s.products, s.nextId, s.uniques, s'.uniques);
    ProductsKeptByUpdate(s.products, s.nextId, s'.uniques, id, s'.products[id]);
  }

  lemma RedeemKeepsC(s: State, who: Account, id: U32)
    requires InvC(s) && CheckRedeem(s, who, id).None?
    ensures InvC(EffectRedeem(s, who, id))
  {
    var s', p := EffectRedeem(s, who, id), s.products[id];
    assert ProductOk(p, id, s.uniques);
    ProductsKeptWithFewerNfts(s.products, s.nextId, s.uniques, s'.uniques);
    ProductsKeptByUpdate(s.products, s.nextId, s'.uniques, id, s'.products[id]);
  }

  /** Direct calls of any kind, by anybody but the pallet's account. */
  lemma DirectKeepsC(s: State, x: Signed)
    requires InvC(s) && TierC(x) && Check(s, x).None?
    requires x.call.TransferItem? || x.call.BurnItem? || x.call.CreateCollection? || x.call.MintItem?
    ensures InvC(Effect(s, x))
  {
    var u' := Effect(s, x).uniques;
    assert NftsOkC(u', s.nextId);
    forall i: U32 | i in s.products ensures ProductOk(s.products[i], i, u') {
      assert ProductOk(s.products[i], i, s.uniques);
    }
  }

  lemma StepKeepsC(s: State, x: Signed)
    requires InvC(s) && TierC(x)
    ensures InvC(Exec(s, x))
    ensures IssuedElsewhere(s.uniques) ==> IssuedElsewhere(Exec(s, x).uniques)
  {
    if Check(s, x).None? {
      match x.call
      case ListProduct(name, metadata, price) => ListKeepsC(s, x.who, name, metadata, price);
      case BuyProduct(id) => BuyKeepsC(s, x.who, id);
      case RedeemProduct(id) => RedeemKeepsC(s, x.who, id);
      case ToggleSale(id, forSale) =>
        assert ProductOk(s.products[id], id, s.uniques);
        ProductsKeptByUpdate(s.products, s.nextId, s.uniques, id, Exec(s, x).products[id]);
      case RegisterManufacturer(_) =>
      case UnregisterManufacturer(_) =>
      case SetAdmin(_) =>
      case _ => DirectKeepsC(s, x);
    }
  }

  lemma {:induction false} ReachableC(s: State, xs: seq<Signed>)
    requires (Genesis(s) || InvC(s)) && AllTierC(xs)
    ensures InvC(Run(s, xs))
    ensures IssuedElsewhere(s.uniques) ==> IssuedElsewhere(Run(s, xs).uniques)
    decreases |xs|
  {
    if xs != [] {
      ReachableC(s, xs[..|xs| - 1]);
      StepKeepsC(Run(s, xs[..|xs| - 1]), xs[|xs| - 1]);
    }
  }

  /** Tier C: mint-failed is reported iff the caller is registered, the cap is not reached, and somebody
      else issues the marketplace collection. */
  lemma MintFailedIff(g: State, xs: seq<Signed>, who: Account)
    requires Genesis(g) && AllTierC(xs)
    ensures var s := Run(g, xs);
      CheckList(s, who) == Some(MintFailed)
      <==> who in s.manufacturers && s.nextId < 1000 && IssuedElsewhere(s.uniques)
  {
    ReachableC(g, xs);
    ListVerdictC(Run(g, xs), who);
  }

  lemma RedeemVerdictC(s: State, who: Account, id: U32)
    requires InvC(s)
    ensures CheckRedeem(s, who, id) ==
      if id !in s.products then Some(ProductNotFound)
      else if Holder(s, id) != Some(who) then Some(NotOwner)
      else None
  {
    if id in s.products {
      assert ProductOk(s.products[id], id, s.uniques);
    }
  }

  /** Tier C: of the errors that tier B rules out, mint-failed alone can be reported. */
  lemma OnlyMintFailedIsAdded(g: State, xs: seq<Signed>, x: Signed)
    requires Genesis(g) && AllTierC(xs) && TierC(x)
    ensures var e := Check(Run(g, xs), x);
      e.Some? && Verdicts.Unreachable(e.value) ==> e.value == MintFailed
  {
    ReachableC(g, xs);
    var s := Run(g, xs);
    match x.call
    case ListProduct(_, _, _) => ListVerdictC(s, x.who);
    case RedeemProduct(id) => RedeemVerdictC(s, x.who, id);
    case _ =>
  }

  /** A direct creation goes through iff the id is free, and makes the named admin the issuer; a direct mint
      iff the signer is the issuer, the item is fresh and the collection is not full, and gives the item
      to the destination. */
  lemma DirectCreation(s: State, who: Account, c: U32, i: U32, a: Account)
    ensures var x := Signed(who, CreateCollection(c, a));
      && (Check(s, x) == None <==> c !in s.uniques.collections)
      && (Check(s, x) == None ==>
            && Exec(s, x).uniques.items == s.uniques.items
            && Exec(s, x).uniques.collections == s.uniques.collections[c := Uniques.Collection(who, a, a, 0)])
    ensures var y := Signed(who, MintItem(c, i, a));
      && (Check(s, y) == None <==>
            && c in s.uniques.collections && s.uniques.collections[c].issuer == who
            && Uniques.HolderOf(s.uniques, c, i) == None && s.uniques.collections[c].items < 4_294_967_295)
      && (Check(s, y) == None ==>
            forall d, j :: Uniques.HolderOf(Exec(s, y).uniques, d, j) ==
              if d == c && j == i then Some(a) else Uniques.HolderOf(s.uniques, d, j))
  {
  }

  /** Once somebody else issues the collection, nothing has been and nothing will be listed. */
  lemma NothingIsEverListed(g: State, xs: seq<Signed>, ys: seq<Signed>)
    requires Genesis(g) && AllTierC(xs) && AllTierC(ys) && IssuedElsewhere(Run(g, xs).uniques)
    ensures Run(g, xs + ys).products == map[]
  {
    ReachableC(g, xs);
    ReachableC(Run(g, xs), ys);
    RunConcat(g, xs, ys);
    var s := Run(g, xs + ys);
    assert s.nextId == 0;
    assert s.products.Keys == {};
  }

  // A run in which listing is refused.

  function CreatedFirst(): seq<Signed> {
    Verdicts.ListedThenRedeemed()[..2]
    + [Signed(Verdicts.BUYER, CreateCollection(MARKETPLACE_COLLECTION, Verdicts.BUYER))]
  }

  lemma MintFailedOccurs()
    ensures Genesis(Verdicts.TwoFunded()) && AllTierC(CreatedFirst())
    ensures CheckList(Run(Verdicts.TwoFunded(), CreatedFirst()), Verdicts.MAKER) == Some(MintFailed)
  {
    var g, xs, ys := Verdicts.TwoFunded(), Verdicts.ListedThenRedeemed(), CreatedFirst();
    Verdicts.TwoFundedIsGenesis();
    Verdicts.RunRegistered();
    assert ys[..2] == xs[..2] && ys[..2][..1] == xs[..1] && xs[..1][..0] == [];
    assert Run(g, xs[..1]) == Exec(g, xs[0]);
    assert Run(g, ys[..2]) == Verdicts.Registered();
    assert Run(g, ys) == Exec(Verdicts.Registered(), ys[2]);
  }
}
