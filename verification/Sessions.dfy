/** Sessions of the client: a sync, then any number of actions of the connected account, in which
    nobody else acts on the chain. */
module Sessions {
  import opened Types
  import opened Pallet
  import opened Client
  import Runs

  datatype World = World(chain: State, lists: Lists)

  /** Buttons act on what is on screen: a purchase takes an entry of the product list. */
  predicate OnScreen(v: Lists, a: Action) {
    a.Buy? ==> a.product in v.products
  }

  function After(w: World, who: Account, a: Action): World {
    World(ChainAfter(w.chain, who, a), ListsAfter(w.chain, who, w.lists, a))
  }

  ghost function Session(w: World, who: Account, actions: seq<Action>): World {
    if actions == [] then w
    else After(Session(w, who, actions[..|actions| - 1]), who, actions[|actions| - 1])
  }

  ghost predicate AllOnScreen(w: World, who: Account, actions: seq<Action>) {
    actions != [] ==>
      var front := actions[..|actions| - 1];
      AllOnScreen(w, who, front) && OnScreen(Session(w, who, front).lists, actions[|actions| - 1])
  }

  /** Storage keys are reported once each. */
  ghost predicate KeysOf(s: State, keys: seq<U32>) {
    && (forall i, j :: 0 <= i < j < |keys| ==> keys[i] != keys[j])
    && (forall id: U32 :: id in keys <==> id in s.products)
  }

  ghost predicate Distinct(ps: seq<Local>) {
    forall i, j :: 0 <= i < j < |ps| ==> ps[i].id != ps[j].id
  }

  ghost predicate FlagsMatch(s: State, ps: seq<Local>) {
    forall i :: 0 <= i < |ps| ==>
      && ps[i].id in s.products
      && ps[i].onSale == s.products[ps[i].id].onSale
      && ps[i].isRedeemed == s.products[ps[i].id].isRedeemed
  }

  ghost predicate Shows(ps: seq<Local>, id: U32) {
    exists i :: 0 <= i < |ps| && ps[i].id == id
  }

  /** The client's lists say the truth: all products, and in the locker exactly those of the account,
      each once and with its flags right. */
  ghost predicate Truthful(w: World, who: Account) {
    && Distinct(w.lists.products) && Distinct(w.lists.locker)
    && FlagsMatch(w.chain, w.lists.products) && FlagsMatch(w.chain, w.lists.locker)
    && (forall id: U32 :: Shows(w.lists.products, id) <==> id in w.chain.products)
    && (forall id: U32 :: Shows(w.lists.locker, id) <==> id in w.chain.products && w.chain.products[id].owner == who)
  }

  // A sync makes the lists truthful.

  lemma {:induction false} SyncReadsAll(s: State, keys: seq<U32>)
    requires forall i :: 0 <= i < |keys| ==> keys[i] in s.products
    ensures var ps := SyncedProducts(s, keys);
      |ps| == |keys| && forall i :: 0 <= i < |keys| ==> ps[i] == LocalOf(keys[i], s.products[keys[i]])
  {
    if keys != [] { SyncReadsAll(s, keys[..|keys| - 1]); }
  }

  lemma {:induction false} FilteredKeeps(s: State, ps: seq<Local>, who: Account)
    requires Distinct(ps) && FlagsMatch(s, ps)
    ensures var f := Filtered(ps, who);
      && Distinct(f) && FlagsMatch(s, f)
      && (forall id: U32 :: Shows(f, id) <==> exists i :: 0 <= i < |ps| && ps[i].id == id && ps[i].owner == who)
  {
    if ps != [] {
      var front, last := ps[..|ps| - 1], ps[|ps| - 1];
      FilteredKeeps(s, front, who);
      var g, f := Filtered(front, who), Filtered(ps, who);
      forall j | 0 <= j < |g| ensures g[j].id != last.id {
        assert Shows(g, g[j].id);
      }
      forall id: U32 ensures Shows(f, id) <==> exists i :: 0 <= i < |ps| && ps[i].id == id && ps[i].owner == who {
        if Shows(g, id) {
          var j :| 0 <= j < |g| && g[j].id == id;
          assert f[j].id == id;
          var i :| 0 <= i < |front| && front[i].id == id && front[i].owner == who;
          assert ps[i].id == id && ps[i].owner == who;
        } else if last.id == id && last.owner == who {
          assert f[|f| - 1].id == id && ps[|ps| - 1].id == id;
        } else {
          assert forall j :: 0 <= j < |g| ==> g[j].id != id;
          assert forall i :: 0 <= i < |front| ==> !(front[i].id == id && front[i].owner == who);
        }
      }
    }
  }

  lemma SyncedProductsAreRight(s: State, keys: seq<U32>)
    requires KeysOf(s, keys)
    ensures var ps := SyncedProducts(s, keys);
      && Distinct(ps) && FlagsMatch(s, ps)
      && (forall i :: 0 <= i < |ps| ==> ps[i].owner == s.products[ps[i].id].owner)
      && (forall id: U32 :: Shows(ps, id) <==> id in s.products)
  {
    SyncReadsAll(s, keys);
    var ps := SyncedProducts(s, keys);
    forall id: U32 ensures Shows(ps, id) <==> id in s.products {
      if id in s.products {
        assert id in keys;
        var i :| 0 <= i < |keys| && keys[i] == id;
        assert ps[i].id == id;
      }
    }
  }

  lemma SyncIsTruthful(s: State, who: Account, keys: seq<U32>, v: Lists)
    requires KeysOf(s, keys) && Synced(s, who, keys, v)
    ensures Truthful(World(s, v), who)
  {
    SyncedProductsAreRight(s, keys);
    FilteredKeeps(s, v.products, who);
    LockerIsOwned(s, v.products, who);
  }

  lemma LockerIsOwned(s: State, ps: seq<Local>, who: Account)
    requires FlagsMatch(s, ps)
    requires forall i :: 0 <= i < |ps| ==> ps[i].owner == s.products[ps[i].id].owner
    requires forall id: U32 :: Shows(ps, id) <==> id in s.products
    ensures forall id: U32 ::
      (exists i :: 0 <= i < |ps| && ps[i].id == id && ps[i].owner == who)
      <==> id in s.products && s.products[id].owner == who
  {
    forall id: U32 | id in s.products && s.products[id].owner == who
      ensures exists i :: 0 <= i < |ps| && ps[i].id == id && ps[i].owner == who
    {
      assert Shows(ps, id);
    }
  }

  // Actions keep them so.

  lemma SaleFlagPatch(s: State, s': State, ps: seq<Local>, id: U32, flag: bool)
    requires Distinct(ps) && FlagsMatch(s, ps)
    requires id in s'.products && s'.products[id].onSale == flag
    requires id in s.products && s'.products[id].isRedeemed == s.products[id].isRedeemed
    requires forall i: U32 :: i in s.products && i != id ==> i in s'.products && s'.products[i] == s.products[i]
    ensures var r := WithSale(ps, id, flag);
      Distinct(r) && FlagsMatch(s', r) && forall i: U32 :: Shows(r, i) <==> Shows(ps, i)
  {
    SameIds(ps, WithSale(ps, id, flag));
  }

  lemma RedeemedFlagPatch(s: State, s': State, ps: seq<Local>, id: U32)
    requires Distinct(ps) && FlagsMatch(s, ps)
    requires id in s'.products && s'.products[id].isRedeemed
    requires id in s.products && s'.products[id].onSale == s.products[id].onSale
    requires forall i: U32 :: i in s.products && i != id ==> i in s'.products && s'.products[i] == s.products[i]
    ensures var r := WithRedeemed(ps, id);
      Distinct(r) && FlagsMatch(s', r) && forall i: U32 :: Shows(r, i) <==> Shows(ps, i)
  {
    SameIds(ps, WithRedeemed(ps, id));
  }

  lemma SameIds(ps: seq<Local>, qs: seq<Local>)
    requires |ps| == |qs| && forall i :: 0 <= i < |ps| ==> ps[i].id == qs[i].id
    ensures forall id: U32 :: Shows(ps, id) <==> Shows(qs, id)
  {
    forall id: U32 ensures Shows(ps, id) <==> Shows(qs, id) {
      if Shows(ps, id) {
        var i :| 0 <= i < |ps| && ps[i].id == id;
        assert qs[i].id == id;
      }
      if Shows(qs, id) {
        var i :| 0 <= i < |qs| && qs[i].id == id;
        assert ps[i].id == id;
      }
    }
  }

  /** What a call of the client does to the product table: one record changes, in a few fields. */
  lemma OneRecordChanges(s: State, who: Account, a: Action)
    requires Check(s, Signed(who, CallOf(a))).None?
    ensures var s', id := ChainAfter(s, who, a), a.product.id;
      && s'.products.Keys == s.products.Keys && id in s.products
      && (forall i: U32 :: i in s.products && i != id ==> s'.products[i] == s.products[i])
      && var p, p' := s.products[id], s'.products[id];
         match a
         case Buy(_) => p.onSale && !p'.onSale && p'.isRedeemed == p.isRedeemed && p.owner != who && p'.owner == who
         case Toggle(_, flag) => p' == p.(onSale := flag)
         case Redeem(_) => !p.isRedeemed && p' == p.(isRedeemed := true)
  {
  }

  lemma LockerGains(s: State, locker: seq<Local>, product: Local)
    requires Distinct(locker) && FlagsMatch(s, locker) && !Shows(locker, product.id)
    requires FlagsMatch(s, [product])
    ensures var more := [product] + locker;
      Distinct(more) && FlagsMatch(s, more) && forall i: U32 :: Shows(more, i) <==> i == product.id || Shows(locker, i)
  {
    var more := [product] + locker;
    assert more[0] == product && more[1..] == locker;
    forall i, j | 0 <= i < j < |more| ensures more[i].id != more[j].id {
      assert more[j] == locker[j - 1];
      assert i > 0 ==> more[i] == locker[i - 1];
    }
    forall i: U32 ensures Shows(more, i) <==> i == product.id || Shows(locker, i) {
      if Shows(locker, i) {
        var k :| 0 <= k < |locker| && locker[k].id == i;
        assert more[k + 1].id == i;
      }
    }
  }

  lemma BuyStaysTruthful(w: World, who: Account, product: Local)
    requires Truthful(w, who) && product in w.lists.products
    requires Check(w.chain, Signed(who, BuyProduct(product.id))).None?
    ensures Truthful(After(w, who, Buy(product)), who)
  {
    var s, s', v, id := w.chain, ChainAfter(w.chain, who, Buy(product)), w.lists, product.id;
    OneRecordChanges(s, who, Buy(product));
    SaleFlagPatch(s, s', v.products, id, false);
    LockerGains(s, v.locker, product);
    SaleFlagPatch(s, s', [product] + v.locker, id, false);
  }

  lemma ActionStaysTruthful(w: World, who: Account, a: Action)
    requires Truthful(w, who) && OnScreen(w.lists, a)
    ensures Truthful(After(w, who, a), who)
  {
    if Check(w.chain, Signed(who, CallOf(a))).None? {
      var s, s', v := w.chain, ChainAfter(w.chain, who, a), w.lists;
      OneRecordChanges(s, who, a);
      match a
      case Buy(p) => BuyStaysTruthful(w, who, p);
      case Toggle(p, flag) =>
        SaleFlagPatch(s, s', v.products, p.id, flag);
        SaleFlagPatch(s, s', v.locker, p.id, flag);
      case Redeem(p) =>
        RedeemedFlagPatch(s, s', v.products, p.id);
        RedeemedFlagPatch(s, s', v.locker, p.id);
    }
  }

  // Calls the client does not know of.

  /** Calls that leave every product on display as it is: those of the authorities and of the uniques
      pallet, and toggles to the flag a product already has. */
  predicate Unseen(s: State, x: Signed) {
    match x.call
    case ListProduct(_, _, _) => false
    case BuyProduct(_) => false
    case RedeemProduct(_) => false
    case ToggleSale(id, flag) => id in s.products && s.products[id].onSale == flag
    case _ => true
  }

  ghost predicate SameDisplay(s: State, s': State) {
    && s'.products.Keys == s.products.Keys
    && (forall i: U32 :: i in s.products ==>
          && s'.products[i].onSale == s.products[i].onSale
          && s'.products[i].isRedeemed == s.products[i].isRedeemed
          && s'.products[i].owner == s.products[i].owner)
  }

  lemma UnseenKeepsDisplay(s: State, x: Signed)
    requires Check(s, x).None? && Unseen(s, x)
    ensures SameDisplay(s, Exec(s, x))
  {
  }

  /** Any other successful call adds a product or flips a flag of one. */
  lemma SeenChangesDisplay(s: State, x: Signed) returns (id: U32)
    requires Check(s, x).None? && !Unseen(s, x) && s.nextId !in s.products
    ensures var s' := Exec(s, x);
      && id in s'.products
      && (id in s.products ==>
            s'.products[id].onSale != s.products[id].onSale || s'.products[id].isRedeemed != s.products[id].isRedeemed)
  {
    id := if x.call.ListProduct? then s.nextId else x.call.id;
  }

  /** A call made behind the client's back, by whomever, leaves its lists truthful iff it fails or changes
      nothing that is on display. */
  lemma ForeignCallKeepsTruthIff(w: World, who: Account, x: Signed)
    requires Runs.InvB(w.chain) && Truthful(w, who)
    ensures Truthful(World(Exec(w.chain, x), w.lists), who) <==> Check(w.chain, x).Some? || Unseen(w.chain, x)
  {
    var s, s', ps := w.chain, Exec(w.chain, x), w.lists.products;
    if Check(s, x).None? {
      if Unseen(s, x) {
        UnseenKeepsDisplay(s, x);
      } else {
        var id := SeenChangesDisplay(s, x);
        if id in s.products {
          assert Shows(ps, id);
          var i :| 0 <= i < |ps| && ps[i].id == id;
          assert !FlagsMatch(s', ps);
        } else {
          assert !Shows(ps, id);
        }
      }
    }
  }

  lemma {:induction false} SessionStaysTruthful(w: World, who: Account, actions: seq<Action>)
    requires Truthful(w, who) && AllOnScreen(w, who, actions)
    ensures Truthful(Session(w, who, actions), who)
  {
    if actions != [] {
      var front := actions[..|actions| - 1];
      SessionStaysTruthful(w, who, front);
      ActionStaysTruthful(Session(w, who, front), who, actions[|actions| - 1]);
    }
  }

  /** From a sync on, and through any actions of the connected account, successful or not, the client's
      lists agree with the chain it never reads again. */
  lemma ClientSimulatesChain(s: State, who: Account, keys: seq<U32>, v: Lists, actions: seq<Action>)
    requires KeysOf(s, keys) && Synced(s, who, keys, v)
    requires AllOnScreen(World(s, v), who, actions)
    ensures Truthful(Session(World(s, v), who, actions), who)
  {
    SyncIsTruthful(s, who, keys, v);
    SessionStaysTruthful(World(s, v), who, actions);
  }

  // The owner field is the one thing the patches forget.

  ghost predicate Bought(w: World, who: Account, actions: seq<Action>, id: U32) {
    actions != [] &&
      var front, a := actions[..|actions| - 1], actions[|actions| - 1];
      || Bought(w, who, front, id)
      || (a == Buy(a.product) && a.product.id == id
          && Check(Session(w, who, front).chain, Signed(who, CallOf(a))).None?)
  }

  lemma {:induction false} OwnersInSession(w: World, who: Account, actions: seq<Action>, i: nat)
    requires i < |w.lists.products|
    requires var p := w.lists.products[i]; p.id in w.chain.products && p.owner == w.chain.products[p.id].owner
    ensures var w', p := Session(w, who, actions), w.lists.products[i];
      && |w'.lists.products| == |w.lists.products|
      && w'.lists.products[i].id == p.id && w'.lists.products[i].owner == p.owner
      && p.id in w'.chain.products
      && (if Bought(w, who, actions, p.id) then p.owner != who == w'.chain.products[p.id].owner
          else w'.chain.products[p.id].owner == p.owner)
  {
    if actions != [] {
      var front, a := actions[..|actions| - 1], actions[|actions| - 1];
      OwnersInSession(w, who, front, i);
      var mid := Session(w, who, front);
      if Check(mid.chain, Signed(who, CallOf(a))).None? {
        OneRecordChanges(mid.chain, who, a);
      }
    }
  }

  /** The owner shown for a product is the owner at the time of the sync. It is right exactly for the
      products that the account did not buy during the session. */
  lemma OwnerShownIff(s: State, who: Account, keys: seq<U32>, v: Lists, actions: seq<Action>, i: nat)
    requires KeysOf(s, keys) && Synced(s, who, keys, v) && i < |v.products|
    ensures var w := Session(World(s, v), who, actions);
      && i < |w.lists.products| && w.lists.products[i].id in w.chain.products
      && (w.lists.products[i].owner == w.chain.products[w.lists.products[i].id].owner
          <==> !Bought(World(s, v), who, actions, v.products[i].id))
  {
    SyncReadsAll(s, keys);
    OwnersInSession(World(s, v), who, actions, i);
  }

  // The order of the locker.

  /** `now` is `was` with `p`, off sale, put in front. An entry of the same id goes off sale as well. */
  ghost predicate PutInFront(was: seq<Local>, p: Local, now: seq<Local>) {
    && |now| == |was| + 1
    && now[0] == p.(onSale := false)
    && forall i, j :: 0 <= i < |was| && j == i + 1 ==>
         now[j] == if was[i].id == p.id then was[i].(onSale := false) else was[i]
  }

  lemma BoughtGoesInFront(v: Lists, p: Local)
    ensures PutInFront(v.locker, p, Patched(v, Buy(p)).locker)
  {
  }

  function Ids(ps: seq<Local>): seq<U32> {
    seq(|ps|, i requires 0 <= i < |ps| => ps[i].id)
  }

  /** The ids a session bought, the latest first. */
  ghost function BoughtLatestFirst(w: World, who: Account, actions: seq<Action>): seq<U32> {
    if actions == [] then [] else
      var front, a := actions[..|actions| - 1], actions[|actions| - 1];
      var before := BoughtLatestFirst(w, who, front);
      if a.Buy? && Check(Session(w, who, front).chain, Signed(who, CallOf(a))).None? then [a.product.id] + before
      else before
  }

  /** The keys of the products that an account owns, in the order of the keys. */
  function OwnedKeys(s: State, keys: seq<U32>, who: Account): seq<U32> {
    if keys == [] then [] else
      var front, last := keys[..|keys| - 1], keys[|keys| - 1];
      OwnedKeys(s, front, who) + if last in s.products && s.products[last].owner == who then [last] else []
  }

  /** Filtering picks the entries of one owner, unchanged and in their order, and misses none. */
  lemma {:induction false} FilteredPicks(ps: seq<Local>, who: Account) returns (at: seq<nat>)
    ensures |at| == |Filtered(ps, who)|
    ensures forall j :: 0 <= j < |at| ==>
      at[j] < |ps| && Filtered(ps, who)[j] == ps[at[j]] && ps[at[j]].owner == who
    ensures forall j, k :: 0 <= j < k < |at| ==> at[j] < at[k]
    ensures forall i: nat :: i < |ps| && ps[i].owner == who ==> i in at
  {
    if ps == [] {
      at := [];
    } else {
      var front, last := ps[..|ps| - 1], ps[|ps| - 1];
      var before := FilteredPicks(front, who);
      at := before + if last.owner == who then [|ps| - 1] else [];
      forall i: nat | i < |ps| && ps[i].owner == who ensures i in at {
        if i < |front| { assert front[i].owner == who && i in before; }
      }
    }
  }

  lemma FilteredOneMore(ps: seq<Local>, p: Local, who: Account)
    ensures Ids(Filtered(ps + [p], who)) == Ids(Filtered(ps, who)) + if p.owner == who then [p.id] else []
  {
    assert (ps + [p])[..|ps|] == ps;
  }

  lemma {:induction false} SyncedLockerIds(s: State, keys: seq<U32>, who: Account)
    ensures Ids(Filtered(SyncedProducts(s, keys), who)) == OwnedKeys(s, keys, who)
  {
    if keys != [] {
      var front, last := keys[..|keys| - 1], keys[|keys| - 1];
      SyncedLockerIds(s, front, who);
      if last in s.products {
        FilteredOneMore(SyncedProducts(s, front), LocalOf(last, s.products[last]), who);
      } else {
        assert SyncedProducts(s, front) + [] == SyncedProducts(s, front);
      }
    }
  }

  lemma ActionExtendsLocker(w: World, who: Account, a: Action)
    ensures Ids(After(w, who, a).lists.locker)
      == (if a.Buy? && Check(w.chain, Signed(who, CallOf(a))).None? then [a.product.id] else []) + Ids(w.lists.locker)
  {
  }

  lemma {:induction false} LockerIdsInSession(w: World, who: Account, actions: seq<Action>)
    ensures Ids(Session(w, who, actions).lists.locker) == BoughtLatestFirst(w, who, actions) + Ids(w.lists.locker)
  {
    if actions != [] {
      var front, a := actions[..|actions| - 1], actions[|actions| - 1];
      LockerIdsInSession(w, who, front);
      ActionExtendsLocker(Session(w, who, front), who, a);
    }
  }

  /** The locker shows what the account bought in the session, the latest first, and then what it owned at
      the sync, in the order of the keys. */
  lemma LockerOrder(s: State, who: Account, keys: seq<U32>, v: Lists, actions: seq<Action>)
    requires Synced(s, who, keys, v)
    ensures Ids(Session(World(s, v), who, actions).lists.locker)
      == BoughtLatestFirst(World(s, v), who, actions) + OwnedKeys(s, keys, who)
  {
    LockerIdsInSession(World(s, v), who, actions);
    SyncedLockerIds(s, keys, who);
  }

  /** Every entry of the locker is an entry of the product list, in all its fields. */
  ghost predicate LockerMirrors(v: Lists) {
    forall j :: 0 <= j < |v.locker| ==> v.locker[j] in v.products
  }

  lemma ActionKeepsMirror(w: World, who: Account, a: Action)
    requires LockerMirrors(w.lists) && OnScreen(w.lists, a)
    ensures LockerMirrors(After(w, who, a).lists)
  {
    var v, v' := w.lists, After(w, who, a).lists;
    if Check(w.chain, Signed(who, CallOf(a))).None? {
      forall j | 0 <= j < |v'.locker| ensures v'.locker[j] in v'.products {
        var was := if !a.Buy? then v.locker[j] else if j == 0 then a.product else v.locker[j - 1];
        var i :| 0 <= i < |v.products| && v.products[i] == was;
        assert v'.products[i] == v'.locker[j];
      }
    }
  }

  lemma {:induction false} LockerMirrorsInSession(
    s: State, who: Account, keys: seq<U32>, v: Lists, actions: seq<Action>)
    requires Synced(s, who, keys, v) && AllOnScreen(World(s, v), who, actions)
    ensures LockerMirrors(Session(World(s, v), who, actions).lists)
  {
    if actions == [] {
      var at := FilteredPicks(v.products, who);
    } else {
      var front := actions[..|actions| - 1];
      LockerMirrorsInSession(s, who, keys, v, front);
      ActionKeepsMirror(Session(World(s, v), who, front), who, actions[|actions| - 1]);
    }
  }
}
