/** What a run's calls alone tell about its state (tier C). The functions below look at the arguments and
    signers of successful calls, never at what the calls do. */
module Calls {
  import opened Types
  import opened Pallet
  import opened Runs
  import Creation

  /** The admin, whether account `m` is registered, and the two flags of product `id`. */
  datatype Told = Told(admin: Option<Account>, registered: bool, onSale: bool, redeemed: bool)

  function AdminAfter(admin: Option<Account>, call: Call): Option<Account> {
    if call.SetAdmin? then Some(call.admin) else admin
  }

  function RegisteredAfter(registered: bool, call: Call, m: Account): bool {
    if call == RegisterManufacturer(m) then true
    else if call == UnregisterManufacturer(m) then false
    else registered
  }

  /** Listing puts a product on sale, a purchase takes it off, and a toggle says. */
  function OnSaleAfter(onSale: bool, nextId: U32, call: Call, id: U32): bool {
    if call.ListProduct? && nextId == id then true
    else if call == BuyProduct(id) then false
    else if call.ToggleSale? && call.id == id then call.forSale
    else onSale
  }

  function After(t: Told, nextId: U32, call: Call, m: Account, id: U32): Told {
    Told(AdminAfter(t.admin, call), RegisteredAfter(t.registered, call, m),
         OnSaleAfter(t.onSale, nextId, call, id), t.redeemed || call == RedeemProduct(id))
  }

  ghost function ToldBy(g: State, xs: seq<Signed>, m: Account, id: U32): Told {
    if xs == [] then Told(None, false, false, false) else
      var front, x := xs[..|xs| - 1], xs[|xs| - 1];
      var s, t := Run(g, front), ToldBy(g, front, m, id);
      if Check(s, x).None? then After(t, s.nextId, x.call, m, id) else t
  }

  function Actual(s: State, m: Account, id: U32): Told {
    Told(s.admin, m in s.manufacturers,
         id in s.products && s.products[id].onSale, id in s.products && s.products[id].isRedeemed)
  }

  lemma StepTells(s: State, x: Signed, m: Account, id: U32)
    requires Check(s, x).None? && s.nextId !in s.products
    ensures Actual(Exec(s, x), m, id) == After(Actual(s, m, id), s.nextId, x.call, m, id)
  {
  }

  /** Tier C: the admin is the argument of the last admin change, an account is registered iff the last
      call about it registered it, a product is on sale iff the last listing, purchase or toggle of it
      left it so, and redeemed iff it was ever redeemed. */
  lemma {:induction false} CallsTell(g: State, xs: seq<Signed>, m: Account, id: U32)
    requires Genesis(g) && AllTierC(xs)
    ensures Actual(Run(g, xs), m, id) == ToldBy(g, xs, m, id)
    decreases |xs|
  {
    if xs != [] {
      var front, x := xs[..|xs| - 1], xs[|xs| - 1];
      CallsTell(g, front, m, id);
      Creation.ReachableC(g, front);
      if Check(Run(g, front), x).None? { StepTells(Run(g, front), x, m, id); }
    }
  }
}
