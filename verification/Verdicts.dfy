/** Which calls succeed in reachable states, and which errors can be reported there. */
module Verdicts {
  import opened Types
  import opened Pallet
  import opened Runs
  import Balances
  import Uniques

  lemma DeliverySucceedsIff(s: State, buyer: Account, id: U32)
    requires InvB(s) && id in s.products
    ensures Delivery(s, buyer, id).Success? <==> Holder(s, id) == Some(s.products[id].owner)
  {
    assert ProductOk(s.products[id], id, s.uniques);
  }

  /** Listing fails only for the unregistered and at the cap. */
  lemma ListVerdict(s: State, who: Account)
    requires InvB(s)
    ensures CheckList(s, who) ==
      if who !in s.manufacturers then Some(NotManufacturer)
      else if s.nextId >= MAX_PRODUCTS then Some(Error.Overflow)
      else None
  {
    if s.nextId < MAX_PRODUCTS { MintNext(s.uniques, s.nextId, who); }
  }

  /** A purchase in terms of the ledgers, every outcome told apart. The decisive extra condition is that
      the recorded owner still holds the NFT. */
  lemma BuyVerdict(s: State, buyer: Account, id: U32)
    requires InvB(s)
    ensures CheckBuy(s, buyer, id) ==
      if id !in s.products then Some(ProductNotFound)
      else if !s.products[id].onSale then Some(ProductNotForSale)
      else if s.products[id].owner == buyer then Some(AlreadyOwner)
      else if !Balances.Payable(s.balances, buyer, s.products[id].owner, s.products[id].price)
      then Some(InsufficientBalance)
      else if Holder(s, id) != Some(s.products[id].owner) then Some(TransferFailed)
      else None
  {
    if id in s.products && s.products[id].owner != buyer {
      DeliverySucceedsIff(s, buyer, id);
      Balances.TransferSucceedsIff(s.balances, buyer, s.products[id].owner, s.products[id].price);
    }
  }

  /** Tier A: exactly when listing, buying, redeeming and toggling succeed in a reachable state. */
  lemma SuccessConditions(g: State, xs: seq<Signed>, x: Signed)
    requires Genesis(g) && AllTierA(xs) && TierA(x)
    ensures var s := Run(g, xs);
      && (x.call.ListProduct? ==>
            (Check(s, x).None? <==> x.who in s.manufacturers && |s.products| < 1000))
      && (x.call.BuyProduct? ==> var id := x.call.id;
            (Check(s, x).None? <==>
              && id in s.products && s.products[id].onSale && !s.products[id].isRedeemed
              && s.products[id].owner != x.who
              && Balances.Payable(s.balances, x.who, s.products[id].owner, s.products[id].price)))
      && (x.call.RedeemProduct? ==> var id := x.call.id;
            (Check(s, x).None? <==>
              id in s.products && !s.products[id].isRedeemed && s.products[id].owner == x.who))
      && (x.call.ToggleSale? ==> var id := x.call.id;
            (Check(s, x).None? <==> id in s.products && s.products[id].owner == x.who))
  {
    ReachableA(g, xs);
    var s := Run(g, xs);
    match x.call
    case ListProduct(_, _, _) =>
      KeysAreCounted(s.products, s.nextId);
      ListVerdict(s, x.who);
    case BuyProduct(id) => BuyVerdict(s, x.who, id);
    case RedeemProduct(id) => RedeemVerdict(s, x.who, id);
    case _ =>
  }

  lemma {:induction false} CountBelow(ids: set<U32>, n: U32)
    requires forall i: U32 :: i in ids <==> i < n
    ensures |ids| == n
  {
    if n > 0 {
      var last: U32 := n - 1;
      CountBelow(ids - {last}, last);
      assert |ids| == |ids - {last}| + 1;
    } else {
      assert ids == {};
    }
  }

  lemma KeysAreCounted(products: map<U32, Product>, n: U32)
    requires forall i: U32 :: i in products <==> i < n
    ensures |products| == n
  {
    CountBelow(products.Keys, n);
  }

  /** Toggling asks the record, and nothing else. */
  lemma ToggleVerdict(g: State, xs: seq<Signed>, who: Account, id: U32, forSale: bool)
    requires Genesis(g) && AllTierB(xs)
    ensures var s, e := Run(g, xs), Check(Run(g, xs), Signed(who, ToggleSale(id, forSale)));
      && (e == Some(ProductNotFound) <==> s.nextId <= id)
      && (e == Some(NotOwner) <==> id < s.nextId && s.products[id].owner != who)
      && (e == None <==> id < s.nextId && s.products[id].owner == who)
  {
    ReachableB(g, xs);
  }

  /** Redemption asks the NFT ledger for ownership. What that check lets through always succeeds. */
  lemma RedeemVerdict(s: State, who: Account, id: U32)
    requires InvB(s)
    ensures CheckRedeem(s, who, id) ==
      if id !in s.products then Some(ProductNotFound)
      else if Holder(s, id) != Some(who) then Some(NotOwner)
      else None
  {
    if id in s.products {
      assert ProductOk(s.products[id], id, s.uniques);
    }
  }

  /** Tier B: these errors are never reported in a reachable state. */
  predicate Unreachable(e: Error) {
    e == CollectionCreateFailed || e == MintFailed || e == BurnFailed || e == AlreadyRedeemed || e == ProductAlreadySold
  }

  lemma ErrorsNeverReported(g: State, xs: seq<Signed>, x: Signed)
    requires Genesis(g) && AllTierB(xs) && TierB(x)
    ensures Check(Run(g, xs), x).Some? ==> !Unreachable(Check(Run(g, xs), x).value)
  {
    ReachableB(g, xs);
    NeverReported(Run(g, xs), x);
  }

  lemma NeverReported(s: State, x: Signed)
    requires InvB(s)
    ensures Check(s, x).Some? ==> !Unreachable(Check(s, x).value)
  {
    match x.call
    case ListProduct(_, _, _) => ListVerdict(s, x.who);
    case BuyProduct(id) => BuyVerdict(s, x.who, id);
    case RedeemProduct(id) => RedeemVerdict(s, x.who, id);
    case _ =>
  }

  /** Tier B: a second redemption, by the owner or by anybody else, is reported as not-owner. */
  lemma SecondRedemption(g: State, xs: seq<Signed>, who: Account, id: U32)
    requires Genesis(g) && AllTierB(xs)
    requires id in Run(g, xs).products && Run(g, xs).products[id].isRedeemed
    ensures CheckRedeem(Run(g, xs), who, id) == Some(NotOwner)
  {
    ReachableB(g, xs);
    assert ProductOk(Run(g, xs).products[id], id, Run(g, xs).uniques);
    RedeemVerdict(Run(g, xs), who, id);
  }

  /** Tier A: a purchase is refused at the NFT exactly when the product was redeemed, is still
      flagged on sale, and every earlier check passes, the payment included. */
  lemma TransferFailedIff(g: State, xs: seq<Signed>, buyer: Account, id: U32)
    requires Genesis(g) && AllTierA(xs)
    ensures var s := Run(g, xs);
      CheckBuy(s, buyer, id) == Some(TransferFailed) <==>
        && id in s.products && s.products[id].isRedeemed && s.products[id].onSale
        && s.products[id].owner != buyer
        && Balances.Payable(s.balances, buyer, s.products[id].owner, s.products[id].price)
  {
    ReachableA(g, xs);
    BuyVerdict(Run(g, xs), buyer, id);
  }

  /** Tier B: the same with direct NFT calls, where the recorded owner may have parted with the NFT. */
  lemma TransferFailedIffNotHeld(g: State, xs: seq<Signed>, buyer: Account, id: U32)
    requires Genesis(g) && AllTierB(xs)
    ensures var s := Run(g, xs);
      CheckBuy(s, buyer, id) == Some(TransferFailed) <==>
        && id in s.products && Holder(s, id) != Some(s.products[id].owner) && s.products[id].onSale
        && s.products[id].owner != buyer
        && Balances.Payable(s.balances, buyer, s.products[id].owner, s.products[id].price)
  {
    ReachableB(g, xs);
    BuyVerdict(Run(g, xs), buyer, id);
  }

  // The record and the NFT ledger each decide on their own calls. Direct NFT calls can pull them apart.

  /** Tier B: when somebody other than the recorded owner holds the NFT, the recorded owner can put the
      product on sale but not redeem it, the holder can redeem it but not put it on sale, and nobody can
      buy it. */
  lemma SplitOwnership(g: State, xs: seq<Signed>, id: U32, holder: Account)
    requires Genesis(g) && AllTierB(xs) && id in Run(g, xs).products
    requires Holder(Run(g, xs), id) == Some(holder) && holder != Run(g, xs).products[id].owner
    ensures var s := Run(g, xs);
      && CheckToggle(s, s.products[id].owner, id) == None
      && CheckRedeem(s, s.products[id].owner, id) == Some(NotOwner)
      && CheckToggle(s, holder, id) == Some(NotOwner)
      && CheckRedeem(s, holder, id) == None
      && forall buyer :: CheckBuy(s, buyer, id).Some?
  {
    ReachableB(g, xs);
    var s := Run(g, xs);
    RedeemVerdict(s, s.products[id].owner, id);
    RedeemVerdict(s, holder, id);
    forall buyer ensures CheckBuy(s, buyer, id).Some? {
      BuyVerdict(s, buyer, id);
    }
  }

  /** Tier B: the uniques pallet lets only the holder of an NFT move or burn it directly, and burning may
      name no other owner. The collection's admin could do both, but never signs. */
  lemma OnlyHoldersActDirectly(
    g: State, xs: seq<Signed>, who: Account, c: U32, i: U32, dest: Account, named: Option<Account>)
    requires Genesis(g) && AllTierB(xs) && who != PalletAccount
    ensures var s := Run(g, xs);
      && (Check(s, Signed(who, TransferItem(c, i, dest))).None? <==> Uniques.HolderOf(s.uniques, c, i) == Some(who))
      && (Check(s, Signed(who, BurnItem(c, i, named))).None? <==>
            Uniques.HolderOf(s.uniques, c, i) == Some(who) && (named == None || named == Some(who)))
  {
    ReachableB(g, xs);
    HoldersActDirectly(Run(g, xs).uniques, Run(g, xs).nextId, who, c, i, dest, named);
  }

  lemma HoldersActDirectly(
    u: Uniques.Ledger, n: U32, who: Account, c: U32, i: U32, dest: Account, named: Option<Account>)
    requires NftsOk(u, n) && who != PalletAccount
    ensures Uniques.Transfer(u, who, c, i, dest).Success? <==> Uniques.HolderOf(u, c, i) == Some(who)
    ensures Uniques.Burn(u, who, c, i, named).Success? <==>
      Uniques.HolderOf(u, c, i) == Some(who) && (named == None || named == Some(who))
  {
  }

  /** Tier B: an owner who sends the NFT to another key holder splits the two ledgers, and the
      receiver's sending it back restores the chain exactly as it was. */
  lemma DirectTransferRoundTrip(g: State, xs: seq<Signed>, id: U32, dest: Account)
    requires Genesis(g) && AllTierB(xs) && id in Run(g, xs).products && dest != PalletAccount
    requires Holder(Run(g, xs), id) == Some(Run(g, xs).products[id].owner)
    ensures var s := Run(g, xs);
      var owner, item := s.products[id].owner, s.products[id].item;
      var there := Exec(s, Signed(owner, TransferItem(MARKETPLACE_COLLECTION, item, dest)));
      && there.products == s.products && Holder(there, id) == Some(dest)
      && (dest != owner ==> !Agree(there.products, there.uniques))
      && Exec(there, Signed(dest, TransferItem(MARKETPLACE_COLLECTION, item, owner))) == s
  {
    ReachableB(g, xs);
    var s := Run(g, xs);
    assert ProductOk(s.products[id], id, s.uniques);
    var key := Uniques.ItemKey(MARKETPLACE_COLLECTION, s.products[id].item);
    assert s.uniques.items[key := dest][key := s.products[id].owner] == s.uniques.items;
  }

  // A product that was redeemed while on sale stays on display, so the refusal above does occur. Its
  // would-be buyer has paid inside the call, and gets the money back when the call is undone.

  const MAKER := Key(0)
  const BUYER := Key(1)
  const FUNDS: U128 := 1_000_000_000_000

  ghost function TwoFunded(): State {
    State(map[], {}, 0, None, Uniques.Ledger(map[], map[]), map[MAKER := FUNDS, BUYER := FUNDS], [])
  }

  function ListedThenRedeemed(): seq<Signed> {
    [Signed(MAKER, SetAdmin(MAKER)), Signed(MAKER, RegisterManufacturer(MAKER)),
     Signed(MAKER, ListProduct([], [], 5)), Signed(MAKER, RedeemProduct(0))]
  }

  lemma TwoFundedIsGenesis()
    ensures Genesis(TwoFunded())
  {
    Balances.TotalUpdate(map[], MAKER, FUNDS);
    Balances.TotalUpdate(map[MAKER := FUNDS], BUYER, FUNDS);
    assert map[MAKER := FUNDS][BUYER := FUNDS] == TwoFunded().balances;
  }

  lemma RunOfFour(g: State, a: Signed, b: Signed, c: Signed, d: Signed)
    ensures Run(g, [a, b, c, d]) == Exec(Exec(Exec(Exec(g, a), b), c), d)
  {
    assert [a, b, c, d][..3] == [a, b, c] && [a, b, c][..2] == [a, b] && [a, b][..1] == [a] && [a][..0] == [];
    assert Run(g, [a]) == Exec(g, a);
    assert Run(g, [a, b]) == Exec(Exec(g, a), b);
  }

  ghost function Registered(): State {
    TwoFunded().(admin := Some(MAKER), manufacturers := {MAKER},
                 events := [AdminSet(MAKER), ManufacturerRegistered(MAKER)])
  }

  lemma RunRegistered()
    ensures Exec(Exec(TwoFunded(), ListedThenRedeemed()[0]), ListedThenRedeemed()[1]) == Registered()
  {
  }

  lemma RunListed() returns (s: State)
    ensures s == Exec(Registered(), ListedThenRedeemed()[2])
    ensures s.products == map[0 := Product(0, 0, [], 5, MAKER, MAKER, [], true, false, 0)]
    ensures s.balances == TwoFunded().balances
    ensures s.uniques.items == map[KeyOf(0) := MAKER] && MARKETPLACE_COLLECTION in s.uniques.collections
  {
    s := EffectList(Registered(), MAKER, [], [], 5);
  }

  lemma RunListedThenRedeemed() returns (s: State)
    ensures s == Run(TwoFunded(), ListedThenRedeemed())
    ensures s.products == map[0 := Product(0, 0, [], 5, MAKER, MAKER, [], true, true, 0)]
    ensures s.balances == TwoFunded().balances
    ensures s.uniques.items == map[]
  {
    var xs := ListedThenRedeemed();
    RunOfFour(TwoFunded(), xs[0], xs[1], xs[2], xs[3]);
    RunRegistered();
    var listed := RunListed();
    s := Exec(listed, xs[3]);
  }

  /** The payment made inside a refused purchase is a real one: without the storage layer the buyer
      would be out of the price. */
  lemma RefusedAfterPayment()
    ensures Genesis(TwoFunded()) && AllTierA(ListedThenRedeemed())
    ensures var s := Run(TwoFunded(), ListedThenRedeemed());
      && CheckBuy(s, BUYER, 0) == Some(TransferFailed)
      && Payment(s, BUYER, 0).Success?
      && Payment(s, BUYER, 0).value != s.balances
      && Exec(s, Signed(BUYER, BuyProduct(0))) == s
  {
    var s := RunListedThenRedeemed();
    TwoFundedIsGenesis();
    var paid := Payment(s, BUYER, 0);
    assert Balances.Free(paid.value, BUYER) == FUNDS - 5;
  }
}
