/** The web client's copy of the market. It reads the chain once when an account is connected, and from
    then on patches its two lists after each call of its own instead of reading again. */
module Client {
  import opened Types
  import opened Pallet

  /** What the client keeps of a product, as far as it depends on the chain's answers. */
  datatype Local = Local(id: U32, owner: Account, onSale: bool, isRedeemed: bool)

  datatype Lists = Lists(products: seq<Local>, locker: seq<Local>)

  datatype Action =
    | Buy(product: Local)
    | Toggle(product: Local, forSale: bool)
    | Redeem(product: Local)

  function LocalOf(id: U32, p: Product): Local {
    Local(id, p.owner, p.onSale, p.isRedeemed)
  }

  function Filtered(ps: seq<Local>, who: Account): seq<Local> {
    if ps == [] then [] else
      var front, last := ps[..|ps| - 1], ps[|ps| - 1];
      Filtered(front, who) + if last.owner == who then [last] else []
  }

  function WithSale(ps: seq<Local>, id: U32, flag: bool): seq<Local> {
    seq(|ps|, i requires 0 <= i < |ps| => if ps[i].id == id then ps[i].(onSale := flag) else ps[i])
  }

  function WithRedeemed(ps: seq<Local>, id: U32): seq<Local> {
    seq(|ps|, i requires 0 <= i < |ps| => if ps[i].id == id then ps[i].(isRedeemed := true) else ps[i])
  }

  /** The chain call behind an action. */
  function CallOf(a: Action): Call {
    match a
    case Buy(p) => BuyProduct(p.id)
    case Toggle(p, forSale) => ToggleSale(p.id, forSale)
    case Redeem(p) => RedeemProduct(p.id)
  }

  /** The patch a handler applies to the lists after its call went through. */
  function Patched(v: Lists, a: Action): Lists {
    match a
    case Buy(p) => Lists(WithSale(v.products, p.id, false), WithSale([p] + v.locker, p.id, false))
    case Toggle(p, forSale) => Lists(WithSale(v.products, p.id, forSale), WithSale(v.locker, p.id, forSale))
    case Redeem(p) => Lists(WithRedeemed(v.products, p.id), WithRedeemed(v.locker, p.id))
  }

  function ChainAfter(s: State, who: Account, a: Action): State {
    Exec(s, Signed(who, CallOf(a)))
  }

  function ListsAfter(s: State, who: Account, v: Lists, a: Action): Lists {
    if Check(s, Signed(who, CallOf(a))).None? then Patched(v, a) else v
  }

  /** The lists as they stand right after a sync over storage keys `keys`. */
  ghost predicate Synced(s: State, who: Account, keys: seq<U32>, v: Lists) {
    && v.products == SyncedProducts(s, keys)
    && v.locker == Filtered(v.products, who)
  }

  function SyncedProducts(s: State, keys: seq<U32>): seq<Local> {
    if keys == [] then [] else
      var front, last := keys[..|keys| - 1], keys[|keys| - 1];
      SyncedProducts(s, front) + if last in s.products then [LocalOf(last, s.products[last])] else []
  }
}
