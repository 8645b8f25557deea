/** The event log as a state machine of its own. Replaying the log alone rebuilds the market, and the
    log obeys rules that can be read off without the chain. */
module Log {
  import opened Types
  import opened Pallet
  import opened Runs
  import Uniques
  import Verdicts

  // Replaying.

  /** A product record without what the log never mentions: its name and metadata. */
  datatype Record = Record(
    id: U32, item: U32, price: U128, owner: Account, genesisOwner: Account,
    onSale: bool, isRedeemed: bool, holdersCount: U64)

  datatype Replica = Replica(
    admin: Option<Account>,
    manufacturers: set<Account>,
    nextId: int,
    balances: map<Account, int>,
    records: map<U32, Record>)

  function RecordOf(p: Product): Record {
    Record(p.id, p.item, p.price, p.owner, p.genesisOwner, p.onSale, p.isRedeemed, p.holdersCount)
  }

  function RecordsOf(products: map<U32, Product>): map<U32, Record> {
    map i | i in products :: RecordOf(products[i])
  }

  lemma RecordsUpdate(products: map<U32, Product>, id: U32, p: Product)
    ensures RecordsOf(products[id := p]) == RecordsOf(products)[id := RecordOf(p)]
  {
  }

  /** The state as far as the log can know it, the NFT ledger aside. */
  function Erase(s: State): Replica {
    Replica(s.admin, s.manufacturers, s.nextId, s.balances, RecordsOf(s.products))
  }

  function Amount(b: map<Account, int>, who: Account): int {
    if who in b then b[who] else 0
  }

  function Paid(b: map<Account, int>, from: Account, to: Account, value: int): map<Account, int> {
    if value == 0 then b
    else
      var c := b[from := Amount(b, from) - value];
      c[to := Amount(c, to) + value]
  }

  function Apply(r: Replica, e: Event): Replica {
    match e
    case ProductListed(id, item, who, price) =>
      r.(nextId := id + 1, records := r.records[id := Record(id, item, price, who, who, true, false, 0)])
    case ProductPurchased(id, _, buyer, price, count) =>
      if id !in r.records then r else
        var p := r.records[id];
        r.(balances := Paid(r.balances, buyer, p.owner, price),
           records := r.records[id := p.(onSale := false, owner := buyer, holdersCount := count)])
    case ProductRedeemed(id, _, _) =>
      if id !in r.records then r else r.(records := r.records[id := r.records[id].(isRedeemed := true)])
    case SaleToggled(id, _, status) =>
      if id !in r.records then r else r.(records := r.records[id := r.records[id].(onSale := status)])
    case ProductTransferred(_, _, _, _) => r
    case ManufacturerRegistered(m) => r.(manufacturers := r.manufacturers + {m})
    case ManufacturerUnregistered(m) => r.(manufacturers := r.manufacturers - {m})
    case AdminSet(a) => r.(admin := Some(a))
  }

  function Replay(r: Replica, log: seq<Event>): Replica {
    if log == [] then r else Apply(Replay(r, log[..|log| - 1]), log[|log| - 1])
  }

  /** The NFT ledger as the log tells it. */
  function ApplyNft(u: Uniques.Ledger, e: Event): Uniques.Ledger {
    var count := if MARKETPLACE_COLLECTION in u.collections then u.collections[MARKETPLACE_COLLECTION].items else 0;
    var held := (n: nat) =>
      u.collections[MARKETPLACE_COLLECTION := Uniques.Collection(PalletAccount, PalletAccount, PalletAccount, n)];
    match e
    case ProductListed(_, item, who, _) =>
      Uniques.Ledger(held(count + 1), u.items[Uniques.ItemKey(MARKETPLACE_COLLECTION, item) := who])
    case ProductPurchased(_, item, buyer, _, _) =>
      u.(items := u.items[Uniques.ItemKey(MARKETPLACE_COLLECTION, item) := buyer])
    case ProductRedeemed(_, item, _) =>
      Uniques.Ledger(held(if count == 0 then 0 else count - 1),
                     u.items - {Uniques.ItemKey(MARKETPLACE_COLLECTION, item)})
    case _ => u
  }

  function ReplayNft(log: seq<Event>): Uniques.Ledger {
    if log == [] then Uniques.Ledger(map[], map[])
    else ApplyNft(ReplayNft(log[..|log| - 1]), log[|log| - 1])
  }

  // Rules of the log: which event may follow, given only the events before it.

  predicate Legal(r: Replica, e: Event) {
    match e
    case ProductListed(id, item, who, _) =>
      who in r.manufacturers && id == r.nextId < MAX_PRODUCTS && item == ItemOf(id) && id !in r.records
    case ProductPurchased(id, item, buyer, price, count) =>
      && id in r.records
      && var p := r.records[id];
      && p.onSale && !p.isRedeemed && p.owner != buyer
      && item == p.item && price == p.price && count == SaturatingInc(p.holdersCount)
      && (price > 0 ==> Amount(r.balances, buyer) >= price + EXISTENTIAL_DEPOSIT)
    case ProductRedeemed(id, item, _) =>
      id in r.records && !r.records[id].isRedeemed && item == r.records[id].item
    case SaleToggled(id, who, _) => id in r.records && r.records[id].owner == who
    case ProductTransferred(_, _, _, _) => false
    case ManufacturerRegistered(m) => r.admin.Some? && m !in r.manufacturers
    case ManufacturerUnregistered(m) => r.admin.Some? && m in r.manufacturers
    case AdminSet(_) => true
  }

  ghost predicate LegalLog(r: Replica, log: seq<Event>) {
    forall i :: 0 <= i < |log| ==> Legal(Replay(r, log[..i]), log[i])
  }

  /** What a call adds to the log: one event if it is a successful call of the pallet. */
  ghost predicate OneEvent(s: State, s': State, e: Event) {
    && s'.events == s.events + [e]
    && Erase(s') == Apply(Erase(s), e)
    && Legal(Erase(s), e)
  }

  lemma ListIsLogged(s: State, who: Account, name: Name, metadata: Metadata, price: U128)
    requires InvB(s) && CheckList(s, who).None?
    ensures var e := ProductListed(s.nextId, ItemOf(s.nextId), who, price);
      var s' := EffectList(s, who, name, metadata, price);
      OneEvent(s, s', e) && s'.uniques == ApplyNft(s.uniques, e)
  {
    MintNext(s.uniques, s.nextId, who);
    RecordsUpdate(s.products, s.nextId, EffectList(s, who, name, metadata, price).products[s.nextId]);
  }

  lemma BuyIsLogged(s: State, buyer: Account, id: U32)
    requires InvB(s) && CheckBuy(s, buyer, id).None?
    ensures var p := s.products[id];
      var e := ProductPurchased(id, p.item, buyer, p.price, SaturatingInc(p.holdersCount));
      var s' := EffectBuy(s, buyer, id);
      OneEvent(s, s', e) && s'.uniques == ApplyNft(s.uniques, e)
  {
    assert ProductOk(s.products[id], id, s.uniques);
    Verdicts.BuyVerdict(s, buyer, id);
    RecordsUpdate(s.products, id, EffectBuy(s, buyer, id).products[id]);
  }

  lemma RedeemIsLogged(s: State, who: Account, id: U32)
    requires InvB(s) && CheckRedeem(s, who, id).None?
    ensures var e := ProductRedeemed(id, s.products[id].item, who);
      var s' := EffectRedeem(s, who, id);
      OneEvent(s, s', e) && s'.uniques == ApplyNft(s.uniques, e)
  {
    RecordsUpdate(s.products, id, EffectRedeem(s, who, id).products[id]);
  }

  lemma ToggleIsLogged(s: State, who: Account, id: U32, forSale: bool)
    requires CheckToggle(s, who, id).None?
    ensures OneEvent(s, EffectToggle(s, who, id, forSale), SaleToggled(id, who, forSale))
  {
    RecordsUpdate(s.products, id, EffectToggle(s, who, id, forSale).products[id]);
  }

  /** The event of a successful call of the pallet. */
  function Logged(s: State, x: Signed): Event
    requires TierA(x) && Check(s, x).None?
  {
    match x.call
    case ListProduct(_, _, price) => ProductListed(s.nextId, ItemOf(s.nextId), x.who, price)
    case BuyProduct(id) =>
      var p := s.products[id];
      ProductPurchased(id, p.item, x.who, p.price, SaturatingInc(p.holdersCount))
    case RedeemProduct(id) => ProductRedeemed(id, s.products[id].item, x.who)
    case ToggleSale(id, status) => SaleToggled(id, x.who, status)
    case RegisterManufacturer(m) => ManufacturerRegistered(m)
    case UnregisterManufacturer(m) => ManufacturerUnregistered(m)
    case SetAdmin(a) => AdminSet(a)
  }

  /** A successful call of the pallet logs one event, which is legal after the log so far and tells all
      of the call's effect. Failed calls and direct NFT calls log nothing and change at most the NFT
      ledger. */
  lemma StepIsLogged(s: State, x: Signed)
    requires InvB(s) && TierB(x)
    ensures var s' := Exec(s, x);
      if TierA(x) && Check(s, x).None? then
        OneEvent(s, s', Logged(s, x)) && s'.uniques == ApplyNft(s.uniques, Logged(s, x))
      else
        s' == s.(uniques := s'.uniques)
  {
    if TierA(x) && Check(s, x).None? {
      match x.call
      case ListProduct(name, metadata, price) => ListIsLogged(s, x.who, name, metadata, price);
      case BuyProduct(id) => BuyIsLogged(s, x.who, id);
      case RedeemProduct(id) => RedeemIsLogged(s, x.who, id);
      case ToggleSale(id, status) => ToggleIsLogged(s, x.who, id, status);
      case _ =>
    }
  }

  lemma LegalLogExtends(r: Replica, log: seq<Event>, e: Event)
    requires LegalLog(r, log) && Legal(Replay(r, log), e)
    ensures LegalLog(r, log + [e]) && Replay(r, log + [e]) == Apply(Replay(r, log), e)
  {
    var longer := log + [e];
    forall i | 0 <= i < |longer| ensures Legal(Replay(r, longer[..i]), longer[i]) {
      assert longer[..i] == if i < |log| then log[..i] else log;
    }
    assert longer[..|log|] == log;
  }

  /** Tier B: the log of every run is legal, and replaying it over genesis rebuilds the admin, the
      manufacturers, the next id, every balance, and every record but for name and metadata. */
  lemma {:induction false} ReplayRebuilds(g: State, xs: seq<Signed>)
    requires Genesis(g) && AllTierB(xs)
    ensures LegalLog(Erase(g), Run(g, xs).events)
    ensures Erase(Run(g, xs)) == Replay(Erase(g), Run(g, xs).events)
    decreases |xs|
  {
    if xs != [] {
      var front, x := xs[..|xs| - 1], xs[|xs| - 1];
      ReplayRebuilds(g, front);
      ReachableB(g, front);
      var s := Run(g, front);
      StepIsLogged(s, x);
      if Check(s, x).None? && TierA(x) {
        LegalLogExtends(Erase(g), s.events, Logged(s, x));
      }
    }
  }

  /** Tier A: the log also rebuilds the whole NFT ledger. */
  lemma {:induction false} ReplayRebuildsNfts(g: State, xs: seq<Signed>)
    requires Genesis(g) && AllTierA(xs)
    ensures Run(g, xs).uniques == ReplayNft(Run(g, xs).events)
    decreases |xs|
  {
    if xs != [] {
      var front, x := xs[..|xs| - 1], xs[|xs| - 1];
      ReplayRebuildsNfts(g, front);
      ReachableA(g, front);
      var s := Run(g, front);
      StepIsLogged(s, x);
      if Check(s, x).None? {
        assert (s.events + [Logged(s, x)])[..|s.events|] == s.events;
      }
    }
  }
}
