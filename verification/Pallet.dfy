/** The marketplace pallet: its storage, its calls, and what each call checks and does. */
module Pallet {
  import opened Types
  import Balances
  import Uniques

  type Name = s: seq<Byte> | |s| <= 64
  type Metadata = s: seq<Byte> | |s| <= 256

  datatype Product = Product(
    id: U32,
    item: U32,
    name: Name,
    price: U128,
    owner: Account,
    genesisOwner: Account,
    metadata: Metadata,
    onSale: bool,
    isRedeemed: bool,
    holdersCount: U64)

  datatype Event =
    | ProductListed(id: U32, item: U32, who: Account, price: U128)
    | ProductPurchased(id: U32, item: U32, buyer: Account, price: U128, count: U64)
    | ProductRedeemed(id: U32, item: U32, who: Account)
    | ProductTransferred(id: U32, item: U32, from: Account, to: Account)
    | ManufacturerRegistered(manufacturer: Account)
    | SaleToggled(id: U32, who: Account, status: bool)
    | ManufacturerUnregistered(manufacturer: Account)
    | AdminSet(admin: Account)

  datatype Error =
    | ProductNotFound
    | ProductAlreadySold
    | NotManufacturer
    | ProductNotForSale
    | AlreadyOwner
    | InsufficientBalance
    | Overflow
    | NotOwner
    | AlreadyRedeemed
    | CollectionCreateFailed
    | MintFailed
    | TransferFailed
    | BurnFailed
    | NotAuthorized
    | ManufacturerAlreadyRegistered
    | ManufacturerNotFound
    | FromUniques(error: Uniques.Error)

  /** The pallet's seven calls, and four by which a signer can reach the uniques pallet directly. */
  datatype Call =
    | ListProduct(name: Name, metadata: Metadata, price: U128)
    | BuyProduct(id: U32)
    | RegisterManufacturer(manufacturer: Account)
    | ToggleSale(id: U32, forSale: bool)
    | RedeemProduct(id: U32)
    | UnregisterManufacturer(manufacturer: Account)
    | SetAdmin(admin: Account)
    | TransferItem(collection: U32, item: U32, dest: Account)
    | BurnItem(collection: U32, item: U32, checkOwner: Option<Account>)
    | CreateCollection(collection: U32, collectionAdmin: Account)
    | MintItem(collection: U32, item: U32, dest: Account)

  datatype Signed = Signed(who: Account, call: Call)

  /** All storage a call can touch. The manufacturer map only ever stores `true`, so its keys
      are kept as a set. */
  datatype State = State(
    products: map<U32, Product>,
    manufacturers: set<Account>,
    nextId: U32,
    admin: Option<Account>,
    uniques: Uniques.Ledger,
    balances: Balances.Ledger,
    events: seq<Event>)

  /** `U32ToItemId::convert`. */
  function ItemOf(id: U32): U32 {
    id
  }

  /** The NFT of a product, looked up by the item stored in its record. */
  function Holder(s: State, id: U32): Option<Account>
    requires id in s.products
  {
    Uniques.HolderOf(s.uniques, MARKETPLACE_COLLECTION, s.products[id].item)
  }

  function Payment(s: State, buyer: Account, id: U32): Result<Balances.Ledger, ()>
    requires id in s.products
  {
    Balances.Transfer(s.balances, buyer, s.products[id].owner, s.products[id].price)
  }

  function Delivery(s: State, buyer: Account, id: U32): Result<Uniques.Ledger, Uniques.Error>
    requires id in s.products
  {
    Uniques.Transfer(s.uniques, s.products[id].owner, MARKETPLACE_COLLECTION, s.products[id].item, buyer)
  }

  function WithCollection(u: Uniques.Ledger, collection: U32): Result<Uniques.Ledger, Uniques.Error> {
    if collection in u.collections then
      Success(u)
    else
      Uniques.Create(u, PalletAccount, collection, PalletAccount)
  }

  /** What a listing does to the NFT ledger before it mints. */
  function Prepared(s: State): Result<Uniques.Ledger, Uniques.Error> {
    WithCollection(s.uniques, MARKETPLACE_COLLECTION)
  }

  // The specification of a call has two halves: the first check that fails, if any, and the state
  // that a call passing all its checks leaves behind. The class below runs the same calls write by
  // write, undoing the writes of a call that fails.

  function Minting(s: State, who: Account): Result<Uniques.Ledger, Uniques.Error>
    requires Prepared(s).Success?
  {
    Uniques.Mint(Prepared(s).value, PalletAccount, MARKETPLACE_COLLECTION, ItemOf(s.nextId), who)
  }

  function CheckList(s: State, who: Account): Option<Error> {
    if who !in s.manufacturers then Some(NotManufacturer)
    else if s.nextId >= MAX_PRODUCTS then Some(Overflow)
    else if Prepared(s).Failure? then Some(CollectionCreateFailed)
    else if Minting(s, who).Failure? then Some(MintFailed)
    else None
  }

  function EffectList(s: State, who: Account, name: Name, metadata: Metadata, price: U128): State
    requires CheckList(s, who).None?
  {
    var id, item := s.nextId, ItemOf(s.nextId);
    s.(uniques := Minting(s, who).value,
       products := s.products[id := Product(id, item, name, price, who, who, metadata, true, false, 0)],
       nextId := id + 1,
       events := s.events + [ProductListed(id, item, who, price)])
  }

  function CheckBuy(s: State, buyer: Account, id: U32): Option<Error> {
    if id !in s.products then Some(ProductNotFound)
    else if !s.products[id].onSale then Some(ProductNotForSale)
    else if s.products[id].owner == buyer then Some(AlreadyOwner)
    else if Payment(s, buyer, id).Failure? then Some(InsufficientBalance)
    else if Delivery(s, buyer, id).Failure? then Some(TransferFailed)
    else None
  }

  function EffectBuy(s: State, buyer: Account, id: U32): State
    requires CheckBuy(s, buyer, id).None?
  {
    var p := s.products[id];
    var count := SaturatingInc(p.holdersCount);
    s.(balances := Payment(s, buyer, id).value,
       uniques := Delivery(s, buyer, id).value,
       products := s.products[id := p.(onSale := false, holdersCount := count, owner := buyer)],
       events := s.events + [ProductPurchased(id, p.item, buyer, p.price, count)])
  }

  function CheckToggle(s: State, who: Account, id: U32): Option<Error> {
    if id !in s.products then Some(ProductNotFound)
    else if s.products[id].owner != who then Some(NotOwner)
    else None
  }

  function EffectToggle(s: State, who: Account, id: U32, forSale: bool): State
    requires CheckToggle(s, who, id).None?
  {
    s.(products := s.products[id := s.products[id].(onSale := forSale)],
       events := s.events + [SaleToggled(id, who, forSale)])
  }

  function Burning(s: State, who: Account, id: U32): Result<Uniques.Ledger, Uniques.Error>
    requires id in s.products
  {
    Uniques.Burn(s.uniques, who, MARKETPLACE_COLLECTION, s.products[id].item, Some(who))
  }

  function CheckRedeem(s: State, who: Account, id: U32): Option<Error> {
    if id !in s.products then Some(ProductNotFound)
    else if Holder(s, id) != Some(who) then Some(NotOwner)
    else if s.products[id].isRedeemed then Some(AlreadyRedeemed)
    else if Burning(s, who, id).Failure? then Some(BurnFailed)
    else None
  }

  function EffectRedeem(s: State, who: Account, id: U32): State
    requires CheckRedeem(s, who, id).None?
  {
    var p := s.products[id];
    s.(uniques := Burning(s, who, id).value,
       products := s.products[id := p.(isRedeemed := true)],
       events := s.events + [ProductRedeemed(id, p.item, who)])
  }

  /** The error of the first check that fails, or `None` when the call goes through. */
  function Check(s: State, x: Signed): Option<Error> {
    match x.call
    case ListProduct(_, _, _) => CheckList(s, x.who)
    case BuyProduct(id) => CheckBuy(s, x.who, id)
    case RegisterManufacturer(m) =>
      if s.admin != Some(x.who) then Some(NotAuthorized)
      else if m in s.manufacturers then Some(ManufacturerAlreadyRegistered)
      else None
    case ToggleSale(id, _) => CheckToggle(s, x.who, id)
    case RedeemProduct(id) => CheckRedeem(s, x.who, id)
    case UnregisterManufacturer(m) =>
      if s.admin != Some(x.who) then Some(NotAuthorized)
      else if m !in s.manufacturers then Some(ManufacturerNotFound)
      else None
    case SetAdmin(_) =>
      if s.admin.Some? && s.admin != Some(x.who) then Some(NotAuthorized) else None
    case TransferItem(c, i, dest) =>
      (match Uniques.Transfer(s.uniques, x.who, c, i, dest)
       case Success(_) => None
       case Failure(e) => Some(FromUniques(e)))
    case BurnItem(c, i, checkOwner) =>
      (match Uniques.Burn(s.uniques, x.who, c, i, checkOwner)
       case Success(_) => None
       case Failure(e) => Some(FromUniques(e)))
    case CreateCollection(c, a) =>
      (match Uniques.Create(s.uniques, x.who, c, a)
       case Success(_) => None
       case Failure(e) => Some(FromUniques(e)))
    case MintItem(c, i, dest) =>
      (match Uniques.Mint(s.uniques, x.who, c, i, dest)
       case Success(_) => None
       case Failure(e) => Some(FromUniques(e)))
  }

  /** The state after a call that passes every check. */
  function Effect(s: State, x: Signed): State
    requires Check(s, x).None?
  {
    match x.call
    case ListProduct(name, metadata, price) => EffectList(s, x.who, name, metadata, price)
    case BuyProduct(id) => EffectBuy(s, x.who, id)
    case RegisterManufacturer(m) =>
      s.(manufacturers := s.manufacturers + {m}, events := s.events + [ManufacturerRegistered(m)])
    case ToggleSale(id, forSale) => EffectToggle(s, x.who, id, forSale)
    case RedeemProduct(id) => EffectRedeem(s, x.who, id)
    case UnregisterManufacturer(m) =>
      s.(manufacturers := s.manufacturers - {m}, events := s.events + [ManufacturerUnregistered(m)])
    case SetAdmin(a) =>
      s.(admin := Some(a), events := s.events + [AdminSet(a)])
    case TransferItem(c, i, dest) =>
      s.(uniques := Uniques.Transfer(s.uniques, x.who, c, i, dest).value)
    case BurnItem(c, i, checkOwner) =>
      s.(uniques := Uniques.Burn(s.uniques, x.who, c, i, checkOwner).value)
    case CreateCollection(c, a) =>
      s.(uniques := Uniques.Create(s.uniques, x.who, c, a).value)
    case MintItem(c, i, dest) =>
      s.(uniques := Uniques.Mint(s.uniques, x.who, c, i, dest).value)
  }

  /** One signed call on the chain: all of its effect, or none of it. */
  function Exec(s: State, x: Signed): State {
    if Check(s, x).None? then Effect(s, x) else s
  }

  function Verdict(e: Option<Error>): Result<(), Error> {
    match e
    case None => Success(())
    case Some(error) => Failure(error)
  }

  /** The chain's storage, updated in place. `Dispatch` is the entry point: it runs one of the call
      bodies in a storage layer. The bodies write as they go, so a body that fails halfway leaves
      its earlier writes behind for `Dispatch` to undo. */
  class Chain {
    var products: map<U32, Product>
    var manufacturers: set<Account>
    var nextId: U32
    var admin: Option<Account>
    var uniques: Uniques.Ledger
    var balances: Balances.Ledger
    var events: seq<Event>

    function View(): State
      reads this
    {
      State(products, manufacturers, nextId, admin, uniques, balances, events)
    }

    constructor (endowed: Balances.Ledger)
      ensures View() == State(map[], {}, 0, None, Uniques.Ledger(map[], map[]), endowed, [])
    {
      products := map[];
      manufacturers := {};
      nextId := 0;
      admin := None;
      uniques := Uniques.Ledger(map[], map[]);
      balances := endowed;
      events := [];
    }

    method DepositEvent(e: Event)
      modifies this`events
      ensures events == old(events) + [e]
    {
      events := events + [e];
    }

    method EnsureCollectionExists(collection: U32) returns (r: Result<(), Error>)
      modifies this`uniques
      ensures r == (if WithCollection(old(uniques), collection).Success? then Success(())
                    else Failure(CollectionCreateFailed))
      ensures r.Success? ==> uniques == WithCollection(old(uniques), collection).value
      ensures r.Failure? ==> uniques == old(uniques)
    {
      if collection in uniques.collections {
        return Success(());
      }
      var owner := PalletAccount;
      match Uniques.Create(uniques, owner, collection, owner) {
        case Failure(_) => return Failure(CollectionCreateFailed);
        case Success(u) => uniques := u;
      }
      r := Success(());
    }

    /** When minting fails, a collection created by this very call is already in place. */
    method ListProduct(who: Account, name: Name, metadata: Metadata, price: U128) returns (r: Result<(), Error>)
      modifies this
      ensures r == Verdict(old(CheckList(View(), who)))
      ensures r.Success? ==> View() == old(EffectList(View(), who, name, metadata, price))
      ensures r == Failure(MintFailed) ==> View() == old(View().(uniques := Prepared(View()).value))
      ensures r.Failure? && r.error != MintFailed ==> View() == old(View())
    {
      if who !in manufacturers {
        return Failure(NotManufacturer);
      }
      var id := nextId;
      if !(id < MAX_PRODUCTS) {
        return Failure(Overflow);
      }
      var ensured := EnsureCollectionExists(MARKETPLACE_COLLECTION);
      if ensured.Failure? {
        return ensured;
      }
      var item := ItemOf(id);
      match Uniques.Mint(uniques, PalletAccount, MARKETPLACE_COLLECTION, item, who) {
        case Failure(_) => return Failure(MintFailed);
        case Success(u) => uniques := u;
      }
      products := products[id := Product(id, item, name, price, who, who, metadata, true, false, 0)];
      nextId := id + 1;
      DepositEvent(ProductListed(id, item, who, price));
      r := Success(());
    }

    /** When the NFT cannot be transferred, the seller has already been paid. */
    method BuyProduct(buyer: Account, id: U32) returns (r: Result<(), Error>)
      modifies this
      ensures r == Verdict(old(CheckBuy(View(), buyer, id)))
      ensures r.Success? ==> View() == old(EffectBuy(View(), buyer, id))
      ensures r == Failure(TransferFailed) ==> View() == old(View().(balances := Payment(View(), buyer, id).value))
      ensures r.Failure? && r.error != TransferFailed ==> View() == old(View())
    {
      if id !in products {
        return Failure(ProductNotFound);
      }
      var product := products[id];
      if !product.onSale {
        return Failure(ProductNotForSale);
      }
      if product.owner == buyer {
        return Failure(AlreadyOwner);
      }
      var owner := product.owner;
      match Balances.Transfer(balances, buyer, product.owner, product.price) {
        case Failure(_) => return Failure(InsufficientBalance);
        case Success(b) => balances := b;
      }
      match Uniques.Transfer(uniques, owner, MARKETPLACE_COLLECTION, product.item, buyer) {
        case Failure(_) => return Failure(TransferFailed);
        case Success(u) => uniques := u;
      }
      product := product.(onSale := false);
      product := product.(holdersCount := SaturatingInc(product.holdersCount));
      product := product.(owner := buyer);
      products := products[id := product];
      DepositEvent(ProductPurchased(id, product.item, buyer, product.price, product.holdersCount));
      r := Success(());
    }

    method RegisterManufacturer(who: Account, manufacturer: Account) returns (r: Result<(), Error>)
      modifies this
      ensures r == Verdict(old(Check(View(), Signed(who, Call.RegisterManufacturer(manufacturer)))))
      ensures View() == old(Exec(View(), Signed(who, Call.RegisterManufacturer(manufacturer))))
    {
      if Some(who) != admin {
        return Failure(NotAuthorized);
      }
      if manufacturer in manufacturers {
        return Failure(ManufacturerAlreadyRegistered);
      }
      manufacturers := manufacturers + {manufacturer};
      DepositEvent(ManufacturerRegistered(manufacturer));
      r := Success(());
    }

    method ToggleSale(who: Account, id: U32, forSale: bool) returns (r: Result<(), Error>)
      modifies this
      ensures r == Verdict(old(CheckToggle(View(), who, id)))
      ensures r.Success? ==> View() == old(EffectToggle(View(), who, id, forSale))
      ensures r.Failure? ==> View() == old(View())
    {
      if id !in products {
        return Failure(ProductNotFound);
      }
      var product := products[id];
      if product.owner != who {
        return Failure(NotOwner);
      }
      product := product.(onSale := forSale);
      DepositEvent(SaleToggled(id, who, product.onSale));
      products := products[id := product];
      r := Success(());
    }

    method RedeemProduct(who: Account, id: U32) returns (r: Result<(), Error>)
      modifies this
      ensures r == Verdict(old(CheckRedeem(View(), who, id)))
      ensures r.Success? ==> View() == old(EffectRedeem(View(), who, id))
      ensures r.Failure? ==> View() == old(View())
    {
      if id !in products {
        return Failure(ProductNotFound);
      }
      var product := products[id];
      var owner := Uniques.HolderOf(uniques, MARKETPLACE_COLLECTION, product.item);
      if owner.None? || owner.value != who {
        return Failure(NotOwner);
      }
      if product.isRedeemed {
        return Failure(AlreadyRedeemed);
      }
      match Uniques.Burn(uniques, who, MARKETPLACE_COLLECTION, product.item, Some(who)) {
        case Failure(_) => return Failure(BurnFailed);
        case Success(u) => uniques := u;
      }
      product := product.(isRedeemed := true);
      products := products[id := product];
      DepositEvent(ProductRedeemed(id, product.item, who));
      r := Success(());
    }

    method UnregisterManufacturer(who: Account, manufacturer: Account) returns (r: Result<(), Error>)
      modifies this
      ensures r == Verdict(old(Check(View(), Signed(who, Call.UnregisterManufacturer(manufacturer)))))
      ensures View() == old(Exec(View(), Signed(who, Call.UnregisterManufacturer(manufacturer))))
    {
      if Some(who) != admin {
        return Failure(NotAuthorized);
      }
      if manufacturer !in manufacturers {
        return Failure(ManufacturerNotFound);
      }
      manufacturers := manufacturers - {manufacturer};
      DepositEvent(ManufacturerUnregistered(manufacturer));
      r := Success(());
    }

    method SetAdmin(who: Account, newAdmin: Account) returns (r: Result<(), Error>)
      modifies this
      ensures r == Verdict(old(Check(View(), Signed(who, Call.SetAdmin(newAdmin)))))
      ensures View() == old(Exec(View(), Signed(who, Call.SetAdmin(newAdmin))))
    {
      if admin.Some? {
        if Some(who) != admin {
          return Failure(NotAuthorized);
        }
      }
      admin := Some(newAdmin);
      DepositEvent(AdminSet(newAdmin));
      r := Success(());
    }

    method Restore(s: State)
      modifies this
      ensures View() == s
    {
      products := s.products;
      manufacturers := s.manufacturers;
      nextId := s.nextId;
      admin := s.admin;
      uniques := s.uniques;
      balances := s.balances;
      events := s.events;
    }

    /** Runs a signed call in a storage layer: an error undoes every write of the call. */
    method Dispatch(x: Signed) returns (r: Result<(), Error>)
      modifies this
      ensures r == Verdict(old(Check(View(), x)))
      ensures View() == old(Exec(View(), x))
    {
      var before := View();
      match x.call {
        case ListProduct(name, metadata, price) => r := ListProduct(x.who, name, metadata, price);
        case BuyProduct(id) => r := BuyProduct(x.who, id);
        case RegisterManufacturer(m) => r := RegisterManufacturer(x.who, m);
        case ToggleSale(id, forSale) => r := ToggleSale(x.who, id, forSale);
        case RedeemProduct(id) => r := RedeemProduct(x.who, id);
        case UnregisterManufacturer(m) => r := UnregisterManufacturer(x.who, m);
        case SetAdmin(a) => r := SetAdmin(x.who, a);
        case TransferItem(c, i, dest) =>
          match Uniques.Transfer(uniques, x.who, c, i, dest) {
            case Failure(e) => r := Failure(FromUniques(e));
            case Success(u) => uniques := u; r := Success(());
          }
        case BurnItem(c, i, checkOwner) =>
          match Uniques.Burn(uniques, x.who, c, i, checkOwner) {
            case Failure(e) => r := Failure(FromUniques(e));
            case Success(u) => uniques := u; r := Success(());
          }
        case CreateCollection(c, a) =>
          match Uniques.Create(uniques, x.who, c, a) {
            case Failure(e) => r := Failure(FromUniques(e));
            case Success(u) => uniques := u; r := Success(());
          }
        case MintItem(c, i, dest) =>
          match Uniques.Mint(uniques, x.who, c, i, dest) {
            case Failure(e) => r := Failure(FromUniques(e));
            case Success(u) => uniques := u; r := Success(());
          }
      }
      if r.Failure? {
        Restore(before);
      }
    }
  }
}
