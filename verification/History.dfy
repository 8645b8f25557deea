/** What holds in every reachable state, what no continuation of a run can undo, and the end of a
    product's life. */
module History {
  import opened Types
  import opened Pallet
  import opened Runs
  import Sales
  import Verdicts

  /** Tier B: ids are dense and below the cap, records sit under their own id, and no two products
      ever share an item, burnt or not. */
  lemma DenseAndUnique(g: State, xs: seq<Signed>)
    requires Genesis(g) && AllTierB(xs)
    ensures var s := Run(g, xs);
      && s.nextId <= 1000 && |s.products| == s.nextId
      && (forall i: U32 :: i in s.products <==> i < s.nextId)
      && (forall i: U32 :: i in s.products ==> s.products[i].id == i && s.products[i].item == i)
      && (forall i: U32, j: U32 :: i in s.products && j in s.products && i != j ==>
            s.products[i].item != s.products[j].item)
  {
    ReachableB(g, xs);
    var s := Run(g, xs);
    Verdicts.KeysAreCounted(s.products, s.nextId);
    forall i: U32 | i in s.products ensures s.products[i].id == i && s.products[i].item == i {
      assert ProductOk(s.products[i], i, s.uniques);
    }
  }

  /** Tier A: the NFT ledger holds the items of the unredeemed products and nothing else, each held by
      the recorded owner, and the collection's counter is right. */
  lemma TwoLedgersAgree(g: State, xs: seq<Signed>)
    requires Genesis(g) && AllTierA(xs)
    ensures var s := Run(g, xs);
      && (forall i: U32 :: i in s.products ==>
            Holder(s, i) == if s.products[i].isRedeemed then None else Some(s.products[i].owner))
      && (forall k :: k in s.uniques.items ==>
            k.collection == 0
            && exists i: U32 :: i in s.products && !s.products[i].isRedeemed && k.item == s.products[i].item)
      && (forall c :: c in s.uniques.collections ==>
            c == 0 && s.uniques.collections[c].items == |s.uniques.items|)
  {
    ReachableA(g, xs);
    var s := Run(g, xs);
    forall k | k in s.uniques.items
      ensures k.collection == 0
      ensures exists i: U32 :: i in s.products && !s.products[i].isRedeemed && k.item == s.products[i].item
    {
      var i: U32 := k.item;
      assert i in s.products && ProductOk(s.products[i], i, s.uniques);
      assert Holder(s, i) == Some(s.uniques.items[k]);
    }
  }

  /** A successful listing that put product `i` into the record it still has, flags and owner aside. */
  ghost predicate ListedAt(g: State, xs: seq<Signed>, k: nat, i: U32, p: Product)
    requires k < |xs|
  {
    && xs[k] == Signed(p.genesisOwner, ListProduct(p.name, p.metadata, p.price))
    && Check(Run(g, xs[..k]), xs[k]).None?
    && Run(g, xs[..k]).nextId == i
  }

  /** Tier B: every product stems from one listing call of the run, which gave its name, metadata and
      price, and whose signer is its manufacturer, registered at that moment. */
  lemma {:induction false} EveryProductWasListed(g: State, xs: seq<Signed>, i: U32) returns (k: nat)
    requires Genesis(g) && AllTierB(xs) && i in Run(g, xs).products
    ensures k < |xs| && ListedAt(g, xs, k, i, Run(g, xs).products[i])
    ensures Run(g, xs).products[i].genesisOwner in Run(g, xs[..k]).manufacturers
    decreases |xs|
  {
    var n: nat := |xs| - 1;
    var front, x := xs[..n], xs[n];
    ReachableB(g, front);
    var s := Run(g, front);
    if i in s.products {
      k := EveryProductWasListed(g, front, i);
      assert front[..k] == xs[..k];
      StepGrows(s, x);
      assert SameArticle(s.products[i], Run(g, xs).products[i]);
    } else {
      k := n;
      OnlyListingAdds(s, x, i);
    }
  }

  lemma OnlyListingAdds(s: State, x: Signed, i: U32)
    requires i !in s.products && i in Exec(s, x).products
    ensures var p := Exec(s, x).products[i];
      && x == Signed(p.genesisOwner, ListProduct(p.name, p.metadata, p.price))
      && Check(s, x).None? && s.nextId == i && p.genesisOwner in s.manufacturers
  {
  }

  // What only ever grows.

  ghost predicate SameArticle(p: Product, p': Product) {
    && p'.id == p.id && p'.item == p.item && p'.name == p.name && p'.price == p.price
    && p'.genesisOwner == p.genesisOwner && p'.metadata == p.metadata
    && (p.isRedeemed ==> p'.isRedeemed)
    && p.holdersCount <= p'.holdersCount
  }

  ghost predicate Grows(s: State, s': State) {
    && (forall i: U32 :: i in s.products ==> i in s'.products && SameArticle(s.products[i], s'.products[i]))
    && s.nextId <= s'.nextId
    && (s.admin.Some? ==> s'.admin.Some?)
    && s.events <= s'.events
  }

  lemma GrowsTransitively(s: State, t: State, u: State)
    requires Grows(s, t) && Grows(t, u)
    ensures Grows(s, u)
  {
    forall i: U32 | i in s.products ensures i in u.products && SameArticle(s.products[i], u.products[i]) {
      assert SameArticle(s.products[i], t.products[i]) && SameArticle(t.products[i], u.products[i]);
    }
  }

  lemma StepGrows(s: State, x: Signed)
    requires s.nextId !in s.products
    ensures Grows(s, Exec(s, x))
  {
    if Check(s, x).None? {
      match x.call
      case ListProduct(name, metadata, price) => assert Grows(s, EffectList(s, x.who, name, metadata, price));
      case BuyProduct(id) => assert Grows(s, EffectBuy(s, x.who, id));
      case ToggleSale(id, forSale) => assert Grows(s, EffectToggle(s, x.who, id, forSale));
      case RedeemProduct(id) => assert Grows(s, EffectRedeem(s, x.who, id));
      case _ =>
    }
  }

  lemma {:induction false} RunGrows(s: State, ys: seq<Signed>)
    requires InvB(s) && AllTierB(ys)
    ensures Grows(s, Run(s, ys))
    decreases |ys|
  {
    if ys != [] {
      var front := ys[..|ys| - 1];
      RunGrows(s, front);
      ReachableB(s, front);
      StepGrows(Run(s, front), ys[|ys| - 1]);
      GrowsTransitively(s, Run(s, front), Run(s, ys));
    }
  }

  /** Tier B: between any two states of a run, products are never removed or altered in what they are,
      redemption is never taken back, counters never decrease, the admin is never unset, and the log is
      only appended to. */
  lemma HistoryOnlyGrows(g: State, xs: seq<Signed>, ys: seq<Signed>)
    requires Genesis(g) && AllTierB(xs) && AllTierB(ys)
    ensures Grows(Run(g, xs), Run(g, xs + ys))
  {
    ReachableB(g, xs);
    RunGrows(Run(g, xs), ys);
    RunConcat(g, xs, ys);
  }

  // The end of a product's life.

  ghost predicate Redeemed(s: State, id: U32) {
    id in s.products && s.products[id].isRedeemed
  }

  /** The NFT of a listed product is gone, redeemed or burnt directly, or lies with the pallet's own
      account, which never signs. */
  ghost predicate OutOfReach(s: State, id: U32) {
    id in s.products && (Holder(s, id) == None || Holder(s, id) == Some(PalletAccount))
  }

  lemma RedeemedIsOutOfReach(s: State, id: U32)
    requires InvB(s) && Redeemed(s, id)
    ensures OutOfReach(s, id) && Holder(s, id) == None
  {
    assert ProductOk(s.products[id], id, s.uniques);
  }

  /** A product out of reach can be neither bought nor redeemed, whoever asks. */
  lemma OutOfReachIsRefused(s: State, who: Account, id: U32)
    requires InvB(s) && OutOfReach(s, id)
    ensures CheckBuy(s, who, id).Some?
    ensures who != PalletAccount ==> CheckRedeem(s, who, id) == Some(NotOwner)
  {
    assert ProductOk(s.products[id], id, s.uniques);
    Verdicts.BuyVerdict(s, who, id);
    Verdicts.RedeemVerdict(s, who, id);
  }

  /** Tier B: a product is out of reach iff no signer can redeem it. */
  lemma OutOfReachIff(g: State, xs: seq<Signed>, id: U32)
    requires Genesis(g) && AllTierB(xs) && id in Run(g, xs).products
    ensures OutOfReach(Run(g, xs), id)
      <==> forall who :: who != PalletAccount ==> CheckRedeem(Run(g, xs), who, id).Some?
  {
    ReachableB(g, xs);
    var s := Run(g, xs);
    if OutOfReach(s, id) {
      forall who | who != PalletAccount ensures CheckRedeem(s, who, id).Some? {
        OutOfReachIsRefused(s, who, id);
      }
    } else {
      var holder := Holder(s, id).value;
      Verdicts.RedeemVerdict(s, holder, id);
      assert holder != PalletAccount && CheckRedeem(s, holder, id) == None;
    }
  }

  lemma StepOutOfReach(s: State, x: Signed, id: U32)
    requires InvB(s) && TierB(x) && OutOfReach(s, id)
    ensures var s' := Exec(s, x);
      && id in s'.products && s'.products[id] == s.products[id].(onSale := s'.products[id].onSale)
      && Holder(s', id) == Holder(s, id)
    ensures Sales.IsSale(s, x) ==> Sales.SaleOf(s, x).id != id
  {
    OutOfReachIsRefused(s, x.who, id);
    assert ProductOk(s.products[id], id, s.uniques);
    if Check(s, x).None? {
      match x.call
      case ListProduct(_, _, _) => MintNext(s.uniques, s.nextId, x.who);
      case BuyProduct(i) => assert ProductOk(s.products[i], i, s.uniques);
      case RedeemProduct(i) => assert ProductOk(s.products[i], i, s.uniques);
      case TransferItem(c, i, dest) =>
        Verdicts.HoldersActDirectly(s.uniques, s.nextId, x.who, c, i, dest, None);
      case BurnItem(c, i, named) =>
        Verdicts.HoldersActDirectly(s.uniques, s.nextId, x.who, c, i, x.who, named);
      case _ =>
    }
  }

  lemma {:induction false} RunOutOfReach(s: State, ys: seq<Signed>, id: U32)
    requires InvB(s) && AllTierB(ys) && OutOfReach(s, id)
    ensures var s' := Run(s, ys);
      && id in s'.products && s'.products[id] == s.products[id].(onSale := s'.products[id].onSale)
      && Holder(s', id) == Holder(s, id)
    ensures Sales.Of(Sales.SalesOf(s, ys), id) == []
    decreases |ys|
  {
    if ys != [] {
      var front := ys[..|ys| - 1];
      RunOutOfReach(s, front, id);
      ReachableB(s, front);
      var mid, x := Run(s, front), ys[|ys| - 1];
      StepOutOfReach(mid, x, id);
      var sales := Sales.SalesOf(s, front);
      if Sales.IsSale(mid, x) {
        assert (sales + [Sales.SaleOf(mid, x)])[..|sales|] == sales;
      } else {
        assert sales + [] == sales;
      }
    }
  }

  /** Tier B: once a product is out of reach, no continuation changes its NFT's holder, anything in its
      record but the sale flag, or the sales made of it. */
  lemma OutOfReachIsTerminal(g: State, xs: seq<Signed>, ys: seq<Signed>, id: U32)
    requires Genesis(g) && AllTierB(xs) && AllTierB(ys) && OutOfReach(Run(g, xs), id)
    ensures var s, s' := Run(g, xs), Run(g, xs + ys);
      && id in s'.products
      && s'.products[id] == s.products[id].(onSale := s'.products[id].onSale)
      && Holder(s', id) == Holder(s, id)
      && Sales.Of(Sales.SalesOf(g, xs + ys), id) == Sales.Of(Sales.SalesOf(g, xs), id)
  {
    ReachableB(g, xs);
    var s := Run(g, xs);
    RunOutOfReach(s, ys, id);
    RunConcat(g, xs, ys);
    Sales.SalesConcat(g, xs, ys);
    Sales.OfConcat(Sales.SalesOf(g, xs), Sales.SalesOf(s, ys), id);
    assert Sales.Of(Sales.SalesOf(g, xs), id) + [] == Sales.Of(Sales.SalesOf(g, xs), id);
  }

  lemma OwnerStillToggles(s: State, id: U32, flag: bool)
    requires id in s.products
    ensures var x := Signed(s.products[id].owner, ToggleSale(id, flag));
      Check(s, x) == None && Exec(s, x).products == s.products[id := s.products[id].(onSale := flag)]
  {
  }

  ghost predicate NobodyCanBuyOrRedeem(s: State, id: U32) {
    forall who :: CheckBuy(s, who, id).Some? && CheckRedeem(s, who, id) == Some(NotOwner)
  }

  ghost predicate OwnerCanToggle(s: State, id: U32)
    requires id in s.products
  {
    forall flag :: var x := Signed(s.products[id].owner, ToggleSale(id, flag));
      Check(s, x) == None && Exec(s, x).products == s.products[id := s.products[id].(onSale := flag)]
  }

  /** Tier B: once a product is redeemed, no continuation changes anything in its record but the sale
      flag, mints its NFT again, or adds a sale of it; every later attempt to buy or redeem it fails;
      and its owner can still toggle the sale flag either way. */
  lemma RedemptionIsTerminal(g: State, xs: seq<Signed>, ys: seq<Signed>, id: U32)
    requires Genesis(g) && AllTierB(xs) && AllTierB(ys) && Redeemed(Run(g, xs), id)
    ensures var s, s' := Run(g, xs), Run(g, xs + ys);
      && id in s'.products
      && s'.products[id] == s.products[id].(onSale := s'.products[id].onSale)
      && Holder(s', id) == None
      && Sales.Of(Sales.SalesOf(g, xs + ys), id) == Sales.Of(Sales.SalesOf(g, xs), id)
      && NobodyCanBuyOrRedeem(s', id)
      && OwnerCanToggle(s', id)
  {
    ReachableB(g, xs);
    RedeemedIsOutOfReach(Run(g, xs), id);
    OutOfReachIsTerminal(g, xs, ys, id);
    RunConcat(g, xs, ys);
    ReachableB(Run(g, xs), ys);
    var s' := Run(g, xs + ys);
    forall who ensures CheckBuy(s', who, id).Some? && CheckRedeem(s', who, id) == Some(NotOwner) {
      OutOfReachIsRefused(s', who, id);
      Verdicts.RedeemVerdict(s', who, id);
    }
    forall flag: bool ensures var x := Signed(s'.products[id].owner, ToggleSale(id, flag));
      Check(s', x) == None && Exec(s', x).products == s'.products[id := s'.products[id].(onSale := flag)]
    {
      OwnerStillToggles(s', id, flag);
    }
  }
}
