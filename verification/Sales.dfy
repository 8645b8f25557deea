/** What purchases do to money and NFTs, one at a time and over whole runs (tier B throughout). */
module Sales {
  import opened Types
  import opened Pallet
  import opened Runs
  import Balances
  import Verdicts

  /** Delivery against payment. Whatever direct NFT calls came before, the account that held the NFT
      is paid exactly the price by the buyer, who then holds the NFT; nothing else moves. A purchase
      that fails changes nothing at all. */
  lemma DeliveryAgainstPayment(g: State, xs: seq<Signed>, buyer: Account, id: U32)
    requires Genesis(g) && AllTierB(xs) && buyer != PalletAccount
    ensures var s := Run(g, xs);
      var s' := Exec(s, Signed(buyer, BuyProduct(id)));
      if CheckBuy(s, buyer, id).None? then
        && id in s.products && id in s'.products && Holder(s, id).Some?
        && var seller, price := Holder(s, id).value, s.products[id].price;
        && seller != buyer
        && Holder(s', id) == Some(buyer) && s'.products[id].owner == buyer
        && Balances.Free(s'.balances, buyer) == Balances.Free(s.balances, buyer) - price
        && Balances.Free(s'.balances, seller) == Balances.Free(s.balances, seller) + price
        && (forall a :: a != buyer && a != seller ==> Balances.Free(s'.balances, a) == Balances.Free(s.balances, a))
        && (forall i :: i in s.products && i != id ==>
              i in s'.products && s'.products[i] == s.products[i] && Holder(s', i) == Holder(s, i))
      else
        s' == s
  {
    ReachableB(g, xs);
    var s := Run(g, xs);
    if CheckBuy(s, buyer, id).None? {
      OneSale(s, Signed(buyer, BuyProduct(id)));
      forall i | i in s.products && i != id ensures s.products[i].item != s.products[id].item {
        assert ProductOk(s.products[i], i, s.uniques) && ProductOk(s.products[id], id, s.uniques);
      }
    }
  }

  // Sales as they show on the ledgers: who held the NFT before and after, and what the buyer lost.

  datatype Sale = Sale(id: U32, seller: Account, buyer: Account, price: int)

  predicate IsSale(s: State, x: Signed) {
    x.call.BuyProduct? && Check(s, x).None?
  }

  function SaleOf(s: State, x: Signed): Sale
    requires IsSale(s, x)
  {
    var s' := Exec(s, x);
    Sale(x.call.id, Holder(s, x.call.id).value, Holder(s', x.call.id).value,
         Balances.Free(s.balances, x.who) - Balances.Free(s'.balances, x.who))
  }

  ghost function SalesOf(s: State, xs: seq<Signed>): seq<Sale> {
    if xs == [] then [] else
      var front := xs[..|xs| - 1];
      var x, before := xs[|xs| - 1], Run(s, front);
      SalesOf(s, front) + if IsSale(before, x) then [SaleOf(before, x)] else []
  }

  lemma {:induction false} SalesConcat(s: State, xs: seq<Signed>, ys: seq<Signed>)
    ensures SalesOf(s, xs + ys) == SalesOf(s, xs) + SalesOf(Run(s, xs), ys)
    decreases |ys|
  {
    if ys == [] {
      assert xs + ys == xs;
    } else {
      var front := ys[..|ys| - 1];
      SalesConcat(s, xs, front);
      RunConcat(s, xs, front);
      assert (xs + ys)[..|xs + ys| - 1] == xs + front;
    }
  }

  /** The sales of one product, in order. */
  ghost function Of(sales: seq<Sale>, id: U32): seq<Sale> {
    if sales == [] then [] else
      var last := sales[|sales| - 1];
      Of(sales[..|sales| - 1], id) + if last.id == id then [last] else []
  }

  lemma {:induction false} OfConcat(a: seq<Sale>, b: seq<Sale>, id: U32)
    ensures Of(a + b, id) == Of(a, id) + Of(b, id)
    decreases |b|
  {
    if b == [] {
      assert a + b == a;
    } else {
      OfConcat(a, b[..|b| - 1], id);
      assert (a + b)[..|a + b| - 1] == a + b[..|b| - 1];
    }
  }

  ghost function Spent(sales: seq<Sale>): int {
    if sales == [] then 0 else Spent(sales[..|sales| - 1]) + sales[|sales| - 1].price
  }

  /** What `who` took in as a seller, minus what it paid as a buyer. */
  ghost function Net(sales: seq<Sale>, who: Account): int {
    if sales == [] then 0 else
      var last := sales[|sales| - 1];
      Net(sales[..|sales| - 1], who)
      + (if last.seller == who then last.price else 0)
      - (if last.buyer == who then last.price else 0)
  }

  /** The record of a product that was just sold. */
  function Sold(p: Product, buyer: Account): Product {
    p.(onSale := false, owner := buyer, holdersCount := SaturatingInc(p.holdersCount))
  }

  /** One sale, seen from the ledgers, agrees with the product record. */
  lemma OneSale(s: State, x: Signed)
    requires InvB(s) && TierB(x) && IsSale(s, x)
    ensures var p, p' := s.products[x.call.id], Exec(s, x).products[x.call.id];
      && SaleOf(s, x) == Sale(x.call.id, p.owner, x.who, p.price)
      && p.owner != x.who
      && p' == Sold(p, x.who)
      && forall a :: Balances.Free(Exec(s, x).balances, a)
                     == Balances.Free(s.balances, a)
                        + (if a == p.owner then p.price else 0) - (if a == x.who then p.price else 0)
  {
    var p := s.products[x.call.id];
    Balances.TransferConserves(s.balances, x.who, p.owner, p.price);
    Verdicts.DeliverySucceedsIff(s, x.who, x.call.id);
  }

  // The books of a run: what the sales so far have to do with the state they led to.

  /** Each seller is the previous buyer, the first one is `first`, and `last` is where it ended. */
  ghost predicate Chained(c: seq<Sale>, first: Account, last: Account) {
    if c == [] then last == first else
      var sale := c[|c| - 1];
      sale.buyer == last && sale.seller != sale.buyer && Chained(c[..|c| - 1], first, sale.seller)
  }

  /** The same, link by link. */
  ghost predicate Unbroken(c: seq<Sale>, first: Account, last: Account) {
    && (c == [] ==> first == last)
    && (c != [] ==> c[0].seller == first && c[|c| - 1].buyer == last)
    && (forall k :: 0 <= k < |c| ==> c[k].seller != c[k].buyer)
    && (forall j, k :: 0 <= j < |c| && 0 <= k < |c| && k == j + 1 ==> c[j].buyer == c[k].seller)
  }

  lemma {:induction false} ChainedIsUnbroken(c: seq<Sale>, first: Account, last: Account)
    requires Chained(c, first, last)
    ensures Unbroken(c, first, last)
  {
    if c != [] {
      ChainedIsUnbroken(c[..|c| - 1], first, c[|c| - 1].seller);
    }
  }

  ghost predicate ProductBooks(c: seq<Sale>, p: Product) {
    && Chained(c, p.genesisOwner, p.owner)
    && p.holdersCount == (if |c| <= U64_MAX then |c| else U64_MAX)
    && (forall k :: 0 <= k < |c| ==> c[k].price == p.price)
    && Spent(c) == |c| * p.price
  }

  ghost predicate Books(g: State, sales: seq<Sale>, s: State) {
    && (forall i: U32 :: i in s.products ==> ProductBooks(Of(sales, i), s.products[i]))
    && (forall i: U32 :: i !in s.products ==> Of(sales, i) == [])
    && (forall a :: Balances.Free(s.balances, a) == Balances.Free(g.balances, a) + Net(sales, a))
  }

  lemma SaleKeepsProductBooks(c: seq<Sale>, p: Product, sale: Sale)
    requires ProductBooks(c, p)
    requires sale.seller == p.owner && sale.buyer != p.owner && sale.price == p.price
    ensures ProductBooks(c + [sale], Sold(p, sale.buyer))
  {
    var d := c + [sale];
    assert d[..|d| - 1] == c;
    assert Spent(d) == Spent(c) + p.price;
    assert (|c| + 1) * p.price == |c| * p.price + p.price;
  }

  /** What calls other than a successful purchase leave alone in a product record. */
  ghost predicate FlagsOnly(p: Product, p': Product) {
    p' == p.(onSale := p'.onSale, isRedeemed := p'.isRedeemed)
  }

  ghost predicate NoSaleMade(s: State, s': State) {
    && s'.balances == s.balances
    && (forall i: U32 :: i in s.products ==> i in s'.products && FlagsOnly(s.products[i], s'.products[i]))
    && (forall i: U32 :: i in s'.products && i !in s.products ==>
          s'.products[i].owner == s'.products[i].genesisOwner && s'.products[i].holdersCount == 0)
  }

  lemma OtherCallsMakeNoSale(s: State, x: Signed)
    requires !IsSale(s, x) && s.nextId !in s.products
    ensures NoSaleMade(s, Exec(s, x))
  {
    if Check(s, x).None? {
      match x.call
      case ListProduct(name, metadata, price) => assert NoSaleMade(s, EffectList(s, x.who, name, metadata, price));
      case ToggleSale(id, forSale) => assert NoSaleMade(s, EffectToggle(s, x.who, id, forSale));
      case RedeemProduct(id) => assert NoSaleMade(s, EffectRedeem(s, x.who, id));
      case _ =>
    }
  }

  lemma NoSaleKeepsBooks(g: State, sales: seq<Sale>, s: State, s': State)
    requires Books(g, sales, s) && NoSaleMade(s, s')
    ensures Books(g, sales, s')
  {
    forall i: U32 | i in s'.products ensures ProductBooks(Of(sales, i), s'.products[i]) {
      if i in s.products {
        assert ProductBooks(Of(sales, i), s.products[i]) && FlagsOnly(s.products[i], s'.products[i]);
      }
    }
  }

  lemma SaleKeepsBooks(g: State, sales: seq<Sale>, s: State, x: Signed)
    requires InvB(s) && TierB(x) && Books(g, sales, s) && IsSale(s, x)
    ensures Books(g, sales + [SaleOf(s, x)], Exec(s, x))
  {
    OneSale(s, x);
    BookSale(g, sales, s, SaleOf(s, x), Exec(s, x));
  }

  lemma BookSale(g: State, sales: seq<Sale>, s: State, sale: Sale, s': State)
    requires Books(g, sales, s) && sale.id in s.products
    requires var p := s.products[sale.id];
      && sale.seller == p.owner != sale.buyer && sale.price == p.price
      && s'.products == s.products[sale.id := Sold(p, sale.buyer)]
    requires forall a :: Balances.Free(s'.balances, a) == Balances.Free(s.balances, a)
               + (if a == sale.seller then sale.price else 0) - (if a == sale.buyer then sale.price else 0)
    ensures Books(g, sales + [sale], s')
  {
    var after := sales + [sale];
    assert after[..|after| - 1] == sales;
    SaleKeepsProductBooks(Of(sales, sale.id), s.products[sale.id], sale);
    forall i: U32 | i in s'.products ensures ProductBooks(Of(after, i), s'.products[i]) {
      assert ProductBooks(Of(sales, i), s.products[i]);
      if i != sale.id { assert Of(after, i) == Of(sales, i); }
    }
  }

  lemma StepKeepsBooks(g: State, sales: seq<Sale>, s: State, x: Signed)
    requires InvB(s) && TierB(x) && Books(g, sales, s)
    ensures Books(g, sales + (if IsSale(s, x) then [SaleOf(s, x)] else []), Exec(s, x))
  {
    if IsSale(s, x) {
      SaleKeepsBooks(g, sales, s, x);
    } else {
      OtherCallsMakeNoSale(s, x);
      NoSaleKeepsBooks(g, sales, s, Exec(s, x));
      assert sales + [] == sales;
    }
  }

  lemma {:induction false} RunKeepsBooks(g: State, xs: seq<Signed>)
    requires Genesis(g) && AllTierB(xs)
    ensures Books(g, SalesOf(g, xs), Run(g, xs))
    decreases |xs|
  {
    if xs != [] {
      var front := xs[..|xs| - 1];
      RunKeepsBooks(g, front);
      ReachableB(g, front);
      StepKeepsBooks(g, SalesOf(g, front), Run(g, front), xs[|xs| - 1]);
    }
  }

  /** Provenance: the sales of a product, as the NFT and money ledgers saw them, form an unbroken
      chain from its manufacturer to its recorded owner. */
  lemma Provenance(g: State, xs: seq<Signed>, id: U32)
    requires Genesis(g) && AllTierB(xs) && id in Run(g, xs).products
    ensures var p := Run(g, xs).products[id];
      Unbroken(Of(SalesOf(g, xs), id), p.genesisOwner, p.owner)
  {
    RunKeepsBooks(g, xs);
    var p, c := Run(g, xs).products[id], Of(SalesOf(g, xs), id);
    assert ProductBooks(c, p);
    ChainedIsUnbroken(c, p.genesisOwner, p.owner);
  }

  /** The holder count is the number of sales, clipped to 64 bits; the money ever paid for a product
      is its price times the number of sales, which is not clipped. */
  lemma SaleCounting(g: State, xs: seq<Signed>, id: U32)
    requires Genesis(g) && AllTierB(xs) && id in Run(g, xs).products
    ensures var p, c := Run(g, xs).products[id], Of(SalesOf(g, xs), id);
      && p.holdersCount == (if |c| <= 18_446_744_073_709_551_615 then |c| else 18_446_744_073_709_551_615)
      && Spent(c) == |c| * p.price
  {
    RunKeepsBooks(g, xs);
    assert ProductBooks(Of(SalesOf(g, xs), id), Run(g, xs).products[id]);
  }

  /** Every balance is what genesis gave, plus the prices of the account's sales, minus those of its
      purchases; it is zero or at least the existential deposit; and nothing is created or lost. */
  lemma MoneyIsAccountedFor(g: State, xs: seq<Signed>, who: Account)
    requires Genesis(g) && AllTierB(xs)
    ensures var s := Run(g, xs);
      && Balances.Free(s.balances, who) == Balances.Free(g.balances, who) + Net(SalesOf(g, xs), who)
      && (Balances.Free(s.balances, who) == 0 || Balances.Free(s.balances, who) >= 1_000_000_000)
      && Balances.Total(s.balances) == Balances.Total(g.balances)
  {
    RunKeepsBooks(g, xs);
    ReachableB(g, xs);
  }

  /** In plain numbers: no balance is ever left between zero and 10^9 units, a purchase is refused for lack
      of money iff the buyer could not keep 10^9 units or the seller would not reach them, and a purchase
      for nothing is never refused for that. */
  lemma KeepAliveInNumbers(g: State, xs: seq<Signed>, buyer: Account, id: U32)
    requires Genesis(g) && AllTierB(xs)
    ensures var s := Run(g, xs);
      && (forall a :: Balances.Free(s.balances, a) == 0 || Balances.Free(s.balances, a) >= 1_000_000_000)
      && (id in s.products && s.products[id].onSale && s.products[id].owner != buyer ==>
            var p := s.products[id];
            CheckBuy(s, buyer, id) == Some(InsufficientBalance) <==>
              && p.price > 0
              && (|| Balances.Free(s.balances, buyer) < p.price + 1_000_000_000
                  || Balances.Free(s.balances, p.owner) + p.price < 1_000_000_000))
  {
    ReachableB(g, xs);
    Verdicts.BuyVerdict(Run(g, xs), buyer, id);
  }

  /** No credit overflows: a buyer who can pay never pushes the seller past 128 bits. */
  lemma CreditFits(g: State, xs: seq<Signed>, buyer: Account, id: U32)
    requires Genesis(g) && AllTierB(xs) && id in Run(g, xs).products
    requires var s := Run(g, xs);
      s.products[id].owner != buyer && Balances.Free(s.balances, buyer) >= s.products[id].price
    ensures var s := Run(g, xs);
      Balances.Free(s.balances, s.products[id].owner) + s.products[id].price
        <= 340_282_366_920_938_463_463_374_607_431_768_211_455
  {
    ReachableB(g, xs);
    Balances.TwoWithinTotal(Run(g, xs).balances, Run(g, xs).products[id].owner, buyer);
  }
}
