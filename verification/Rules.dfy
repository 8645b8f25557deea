/** What a reader of the event log may conclude (tier B throughout). The lemmas about legal logs need
    no chain; the theorems at the end apply them to runs. */
module Rules {
  import opened Types
  import opened Pallet
  import opened Runs
  import opened Log
  import History
  import Verdicts

  /** A replica from which nothing was listed yet. */
  ghost predicate Fresh(r: Replica) {
    r.records == map[] && r.manufacturers == {} && r.nextId == 0 && r.admin == None
  }

  lemma ReplayOneMore(r: Replica, log: seq<Event>, i: nat)
    requires i < |log|
    ensures Replay(r, log[..i + 1]) == Apply(Replay(r, log[..i]), log[i])
  {
    assert log[..i + 1][..i] == log[..i];
  }

  // Resale needs relisting.

  predicate Purchase(e: Event, id: U32) {
    e.ProductPurchased? && e.id == id
  }

  /** The buyer of the latest purchase of a product, from the log alone. */
  function LatestBuyer(log: seq<Event>, id: U32): Option<Account> {
    if log == [] then None
    else if Purchase(log[|log| - 1], id) then Some(log[|log| - 1].buyer)
    else LatestBuyer(log[..|log| - 1], id)
  }

  /** What a replica and the latest buyer in its log have to do with each other. */
  ghost predicate OwnedByLatestBuyer(r: Replica, buyer: Option<Account>, id: U32) {
    buyer.Some? ==> id in r.records && r.records[id].owner == buyer.value
  }

  lemma ApplyKeepsOwner(r: Replica, e: Event, buyer: Option<Account>, id: U32)
    requires Legal(r, e) && OwnedByLatestBuyer(r, buyer, id)
    ensures OwnedByLatestBuyer(Apply(r, e), if Purchase(e, id) then Some(e.buyer) else buyer, id)
  {
  }

  lemma {:induction false} OwnerIsLatestBuyer(r: Replica, log: seq<Event>, i: nat, id: U32)
    requires Fresh(r) && LegalLog(r, log) && i <= |log|
    ensures OwnedByLatestBuyer(Replay(r, log[..i]), LatestBuyer(log[..i], id), id)
  {
    if i > 0 {
      OwnerIsLatestBuyer(r, log, i - 1, id);
      ReplayOneMore(r, log, i - 1);
      assert log[..i][..i - 1] == log[..i - 1];
      ApplyKeepsOwner(Replay(r, log[..i - 1]), log[i - 1], LatestBuyer(log[..i - 1], id), id);
    }
  }

  /** Only a toggle puts a listed product back on sale. */
  lemma OnlyTogglePutsOnSale(r: Replica, e: Event, id: U32)
    requires Legal(r, e) && id in r.records && !r.records[id].onSale
    requires Apply(r, e).records[id].onSale
    ensures e == SaleToggled(id, r.records[id].owner, true)
  {
  }

  ghost predicate OnSale(r: Replica, id: U32) {
    id in r.records && r.records[id].onSale
  }

  /** If a product was off sale after event `i` and is on sale before event `j`, somebody put it back on
      sale in between. */
  lemma {:induction false} BackOnSale(r: Replica, log: seq<Event>, i: nat, j: nat, id: U32) returns (k: nat)
    requires LegalLog(r, log) && i <= j <= |log|
    requires id in Replay(r, log[..i]).records
    requires !OnSale(Replay(r, log[..i]), id) && OnSale(Replay(r, log[..j]), id)
    ensures i <= k < j && log[k].SaleToggled? && log[k] == SaleToggled(id, log[k].who, true)
    decreases j
  {
    var h := j - 1;
    StaysListed(r, log, i, h, id);
    if OnSale(Replay(r, log[..h]), id) {
      k := BackOnSale(r, log, i, h, id);
    } else {
      k := h;
      ReplayOneMore(r, log, h);
      assert Legal(Replay(r, log[..h]), log[h]);
      OnlyTogglePutsOnSale(Replay(r, log[..h]), log[h], id);
    }
  }

  lemma ApplyKeepsListed(r: Replica, e: Event, id: U32)
    requires id in r.records
    ensures id in Apply(r, e).records
  {
  }

  lemma {:induction false} StaysListed(r: Replica, log: seq<Event>, i: nat, j: nat, id: U32)
    requires i <= j <= |log| && id in Replay(r, log[..i]).records
    ensures id in Replay(r, log[..j]).records
    decreases j
  {
    if i < j {
      StaysListed(r, log, i, j - 1, id);
      ReplayOneMore(r, log, j - 1);
      ApplyKeepsListed(Replay(r, log[..j - 1]), log[j - 1], id);
    }
  }

  lemma {:induction false} BoughtBefore(log: seq<Event>, i: nat, k: nat, id: U32)
    requires i < k <= |log| && Purchase(log[i], id)
    ensures LatestBuyer(log[..k], id).Some?
  {
    assert log[..k][..k - 1] == log[..k - 1];
    if i < k - 1 { BoughtBefore(log, i, k - 1, id); }
  }

  /** Between two purchases of a product in a run's log, the latest buyer put it back on sale. */
  lemma ResaleNeedsRelisting(g: State, xs: seq<Signed>, i: nat, j: nat, id: U32)
    requires Genesis(g) && AllTierB(xs)
    requires i < j < |Run(g, xs).events| && Purchase(Run(g, xs).events[i], id) && Purchase(Run(g, xs).events[j], id)
    ensures var log := Run(g, xs).events;
      exists k: nat :: i < k < j && LatestBuyer(log[..k], id).Some?
        && log[k] == SaleToggled(id, LatestBuyer(log[..k], id).value, true)
  {
    ReplayRebuilds(g, xs);
    var r, log := Erase(g), Run(g, xs).events;
    assert Legal(Replay(r, log[..i]), log[i]) && Legal(Replay(r, log[..j]), log[j]);
    ReplayOneMore(r, log, i);
    var k := BackOnSale(r, log, i + 1, j, id);
    BoughtBefore(log, i, k, id);
    OwnerIsLatestBuyer(r, log, k, id);
    assert Legal(Replay(r, log[..k]), log[k]);
  }

  // Who may list.

  predicate Registration(e: Event, m: Account) {
    e == ManufacturerRegistered(m)
  }

  predicate Unregistration(e: Event, m: Account) {
    e == ManufacturerUnregistered(m)
  }

  /** Registered at some point before `n`, and not unregistered since. */
  ghost predicate RegisteredSince(log: seq<Event>, n: nat, m: Account, j: nat)
    requires n <= |log|
  {
    j < n && Registration(log[j], m) && forall k :: j < k < n ==> !Unregistration(log[k], m)
  }

  ghost predicate UnregisteredSince(log: seq<Event>, n: nat, m: Account, j: nat)
    requires n <= |log|
  {
    j < n && Unregistration(log[j], m) && forall k :: j < k < n ==> !Registration(log[k], m)
  }

  ghost predicate RegisteredAt(log: seq<Event>, n: nat, m: Account)
    requires n <= |log|
  {
    exists j: nat :: RegisteredSince(log, n, m, j)
  }

  lemma RegisteredAtNext(log: seq<Event>, n: nat, m: Account)
    requires n < |log|
    ensures RegisteredAt(log, n + 1, m) <==>
      Registration(log[n], m) || (!Unregistration(log[n], m) && RegisteredAt(log, n, m))
  {
    var next := n + 1;
    if Registration(log[n], m) {
      assert RegisteredSince(log, next, m, n);
    } else if !Unregistration(log[n], m) {
      forall j: nat ensures RegisteredSince(log, n, m, j) <==> RegisteredSince(log, next, m, j) {}
    }
  }

  /** The replayed set of manufacturers, in terms of positions in the log. */
  lemma {:induction false} RegisteredIff(r: Replica, log: seq<Event>, n: nat, m: Account)
    requires r.manufacturers == {} && n <= |log|
    ensures m in Replay(r, log[..n]).manufacturers <==> RegisteredAt(log, n, m)
  {
    if n > 0 {
      RegisteredIff(r, log, n - 1, m);
      ReplayOneMore(r, log, n - 1);
      RegisteredAtNext(log, n - 1, m);
    }
  }

  lemma {:induction false} UnregisteredIfNot(r: Replica, log: seq<Event>, n: nat, m: Account)
    requires r.manufacturers == {} && n <= |log| && m !in Replay(r, log[..n]).manufacturers
    ensures (forall k :: 0 <= k < n ==> !Registration(log[k], m)) || exists j: nat :: UnregisteredSince(log, n, m, j)
  {
    if n > 0 {
      ReplayOneMore(r, log, n - 1);
      if Unregistration(log[n - 1], m) {
        assert UnregisteredSince(log, n, m, n - 1);
      } else {
        var before: nat := n - 1;
        UnregisteredIfNot(r, log, before, m);
        if exists j: nat :: UnregisteredSince(log, before, m, j) {
          var j: nat :| UnregisteredSince(log, before, m, j);
          assert UnregisteredSince(log, n, m, j);
        }
      }
    }
  }

  /** Every listing is by an account that was registered before and not unregistered since. */
  lemma ListingNeedsRegistration(g: State, xs: seq<Signed>, i: nat)
    requires Genesis(g) && AllTierB(xs) && i < |Run(g, xs).events| && Run(g, xs).events[i].ProductListed?
    ensures var log := Run(g, xs).events;
      RegisteredAt(log, i, log[i].who)
  {
    ReplayRebuilds(g, xs);
    var r, log := Erase(g), Run(g, xs).events;
    assert Legal(Replay(r, log[..i]), log[i]);
    RegisteredIff(r, log, i, log[i].who);
  }

  /** Registrations and unregistrations of one account strictly alternate, a registration first: each
      registration follows an unregistration or is the first event of its kind, and each
      unregistration follows a registration. */
  lemma RegistrationsAlternate(g: State, xs: seq<Signed>, i: nat, m: Account)
    requires Genesis(g) && AllTierB(xs) && i < |Run(g, xs).events|
    ensures var log := Run(g, xs).events;
      && (Registration(log[i], m) ==>
            || (forall k :: 0 <= k < i ==> !Registration(log[k], m) && !Unregistration(log[k], m))
            || exists j: nat :: UnregisteredSince(log, i, m, j))
      && (Unregistration(log[i], m) ==> RegisteredAt(log, i, m))
  {
    ReplayRebuilds(g, xs);
    var r, log := Erase(g), Run(g, xs).events;
    assert Legal(Replay(r, log[..i]), log[i]);
    RegisteredIff(r, log, i, m);
    if Registration(log[i], m) {
      UnregisteredIfNot(r, log, i, m);
      if !exists j: nat :: UnregisteredSince(log, i, m, j) {
        forall k: nat | k < i ensures !Unregistration(log[k], m) {
          if Unregistration(log[k], m) {
            assert UnregisteredSince(log, i, m, k);
          }
        }
      }
    }
  }

  // Who may decide.

  /** The account named in the latest admin event. */
  function LatestAdmin(log: seq<Event>): Option<Account> {
    if log == [] then None
    else if log[|log| - 1].AdminSet? then Some(log[|log| - 1].admin)
    else LatestAdmin(log[..|log| - 1])
  }

  lemma {:induction false} AdminIsLatest(r: Replica, log: seq<Event>)
    requires r.admin == None
    ensures Replay(r, log).admin == LatestAdmin(log)
  {
    if log != [] { AdminIsLatest(r, log[..|log| - 1]); }
  }

  /** Tier B: the stored admin is the account named in the latest admin event. */
  lemma AdminIsInTheLog(g: State, xs: seq<Signed>)
    requires Genesis(g) && AllTierB(xs)
    ensures Run(g, xs).admin == LatestAdmin(Run(g, xs).events)
  {
    ReplayRebuilds(g, xs);
    AdminIsLatest(Erase(g), Run(g, xs).events);
    assert Erase(Run(g, xs)).admin == Run(g, xs).admin;
  }

  lemma AdminDecides(s: State, x: Signed)
    requires Check(s, x).None?
    ensures x.call.RegisterManufacturer? || x.call.UnregisterManufacturer? ==> s.admin == Some(x.who)
    ensures x.call.SetAdmin? ==> s.admin == None || s.admin == Some(x.who)
  {
  }

  /** Every registration, unregistration and admin change of a run was signed by the account named in
      the latest admin event before it. Only the first admin event, before which there is none, is open
      to anybody. Once there is an admin there always is one. */
  lemma AdminSuccession(g: State, xs: seq<Signed>, k: nat)
    requires Genesis(g) && AllTierB(xs) && k < |xs|
    ensures var log, x := Run(g, xs[..k]).events, xs[k];
      Check(Run(g, xs[..k]), x).None? ==>
        && (x.call.RegisterManufacturer? || x.call.UnregisterManufacturer? ==> LatestAdmin(log) == Some(x.who))
        && (x.call.SetAdmin? ==> LatestAdmin(log) == None || LatestAdmin(log) == Some(x.who))
    ensures LatestAdmin(Run(g, xs[..k]).events).Some? ==> LatestAdmin(Run(g, xs).events).Some?
  {
    AdminIsInTheLog(g, xs[..k]);
    AdminIsInTheLog(g, xs);
    if Check(Run(g, xs[..k]), xs[k]).None? { AdminDecides(Run(g, xs[..k]), xs[k]); }
    assert xs[..k] + xs[k..] == xs;
    History.HistoryOnlyGrows(g, xs[..k], xs[k..]);
  }

  // Exactly when the calls of the authorities go through, and what they report otherwise.

  /** The current registrations, in terms of positions in the log. */
  lemma RegisteredIsInTheLog(g: State, xs: seq<Signed>, m: Account)
    requires Genesis(g) && AllTierB(xs)
    ensures var log := Run(g, xs).events;
      m in Run(g, xs).manufacturers <==> RegisteredAt(log, |log|, m)
  {
    ReplayRebuilds(g, xs);
    var log := Run(g, xs).events;
    assert log[..|log|] == log;
    RegisteredIff(Erase(g), log, |log|, m);
    assert Erase(Run(g, xs)).manufacturers == Run(g, xs).manufacturers;
  }

  /** Registering succeeds iff the signer is the account in the latest admin event and the manufacturer is
      not registered already. */
  lemma RegisterVerdict(g: State, xs: seq<Signed>, who: Account, m: Account)
    requires Genesis(g) && AllTierB(xs)
    ensures var log, e := Run(g, xs).events, Check(Run(g, xs), Signed(who, RegisterManufacturer(m)));
      && (e == None <==> LatestAdmin(log) == Some(who) && !RegisteredAt(log, |log|, m))
      && (e == Some(NotAuthorized) <==> LatestAdmin(log) != Some(who))
      && (e == Some(ManufacturerAlreadyRegistered) <==> LatestAdmin(log) == Some(who) && RegisteredAt(log, |log|, m))
  {
    AdminIsInTheLog(g, xs);
    RegisteredIsInTheLog(g, xs, m);
  }

  /** Unregistering succeeds iff the signer is the account in the latest admin event and the manufacturer
      is registered. */
  lemma UnregisterVerdict(g: State, xs: seq<Signed>, who: Account, m: Account)
    requires Genesis(g) && AllTierB(xs)
    ensures var log, e := Run(g, xs).events, Check(Run(g, xs), Signed(who, UnregisterManufacturer(m)));
      && (e == None <==> LatestAdmin(log) == Some(who) && RegisteredAt(log, |log|, m))
      && (e == Some(NotAuthorized) <==> LatestAdmin(log) != Some(who))
      && (e == Some(ManufacturerNotFound) <==> LatestAdmin(log) == Some(who) && !RegisteredAt(log, |log|, m))
  {
    AdminIsInTheLog(g, xs);
    RegisteredIsInTheLog(g, xs, m);
  }

  /** The admin can be changed by the account in the latest admin event, or by anybody before there is
      one; everybody else is not authorized. */
  lemma SetAdminVerdict(g: State, xs: seq<Signed>, who: Account, a: Account)
    requires Genesis(g) && AllTierB(xs)
    ensures var log, e := Run(g, xs).events, Check(Run(g, xs), Signed(who, SetAdmin(a)));
      && (e == None <==> LatestAdmin(log) == None || LatestAdmin(log) == Some(who))
      && (e != None ==> e == Some(NotAuthorized))
  {
    AdminIsInTheLog(g, xs);
  }

  /** A listing with a name of up to 64 bytes and metadata of up to 256 bytes, at any price, succeeds iff
      the signer is registered and fewer than 1000 products were listed. */
  lemma ListVerdictFromLog(
    g: State, xs: seq<Signed>, who: Account, name: seq<Byte>, metadata: seq<Byte>, price: U128)
    requires Genesis(g) && AllTierB(xs) && |name| <= 64 && |metadata| <= 256
    ensures var log, e := Run(g, xs).events, Check(Run(g, xs), Signed(who, ListProduct(name, metadata, price)));
      && (e == None <==> RegisteredAt(log, |log|, who) && Listings(log) < 1000)
      && (e == Some(NotManufacturer) <==> !RegisteredAt(log, |log|, who))
      && (e != None ==> e == Some(NotManufacturer) || e == Some(Error.Overflow))
  {
    RegisteredIsInTheLog(g, xs, who);
    ReachableB(g, xs);
    Verdicts.ListVerdict(Run(g, xs), who);
    ReplayRebuilds(g, xs);
    ListingsAreIds(Erase(g), Run(g, xs).events);
    assert Erase(Run(g, xs)).nextId == Run(g, xs).nextId;
  }

  function Listings(log: seq<Event>): nat {
    if log == [] then 0
    else Listings(log[..|log| - 1]) + if log[|log| - 1].ProductListed? then 1 else 0
  }

  lemma {:induction false} ListingsAreIds(r: Replica, log: seq<Event>)
    requires r.nextId == 0 && LegalLog(r, log)
    ensures Replay(r, log).nextId == Listings(log)
  {
    if log != [] {
      var front := log[..|log| - 1];
      forall i | 0 <= i < |front| ensures Legal(Replay(r, front[..i]), front[i]) {
        assert front[..i] == log[..i] && Legal(Replay(r, log[..i]), log[i]);
      }
      ListingsAreIds(r, front);
      assert Legal(Replay(r, log[..|front|]), log[|front|]);
    }
  }

  /** The event of a redemption names the account that held the NFT, which is the one that signed. */
  lemma RedemptionNamesHolder(g: State, xs: seq<Signed>, who: Account, id: U32)
    requires Genesis(g) && AllTierB(xs) && CheckRedeem(Run(g, xs), who, id).None?
    ensures var s := Run(g, xs);
      && Holder(s, id) == Some(who)
      && Exec(s, Signed(who, RedeemProduct(id))).events == s.events + [ProductRedeemed(id, id, who)]
  {
    ReachableB(g, xs);
    assert ProductOk(Run(g, xs).products[id], id, Run(g, xs).uniques);
  }
}
