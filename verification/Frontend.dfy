/** The client itself, driving the chain. Its handlers keep its lists truthful: all products, and in the
    locker exactly those of the connected account, each once and with its flags right. */
module Frontend {
  import opened Types
  import opened Pallet
  import opened Client
  import opened Sessions

  class App {
    var account: Option<Account>
    var products: seq<Local>
    var locker: seq<Local>

    function View(): Lists
      reads this
    {
      Lists(products, locker)
    }

    ghost predicate ShowsTruth(chain: Chain)
      reads this, chain
    {
      account.Some? && Truthful(World(chain.View(), View()), account.value)
    }

    constructor (initialProducts: seq<Local>)
      ensures account == None && View() == Lists(initialProducts, [])
    {
      account := None;
      products := initialProducts;
      locker := [];
    }

    /** Runs when the account changes: reads every product once, in the order of the storage keys. */
    method Sync(chain: Chain, keys: seq<U32>)
      modifies this`products, this`locker
      ensures account.None? ==> View() == old(View())
      ensures account.Some? ==> Synced(chain.View(), account.value, keys, View())
      ensures account.Some? && KeysOf(chain.View(), keys) ==> ShowsTruth(chain)
    {
      if account.None? {
        return;
      }
      var updated: seq<Local> := [];
      for k := 0 to |keys|
        invariant updated == SyncedProducts(chain.View(), keys[..k])
      {
        var id := keys[k];
        if id in chain.products {
          updated := updated + [LocalOf(id, chain.products[id])];
        }
        assert keys[..k + 1][..k] == keys[..k];
      }
      assert keys[..|keys|] == keys;
      products := updated;
      locker := Filtered(updated, account.value);
      if KeysOf(chain.View(), keys) {
        SyncIsTruthful(chain.View(), account.value, keys, View());
      }
    }

    method HandleBuy(chain: Chain, product: Local)
      modifies this`products, this`locker, chain
      ensures account.None? ==> View() == old(View()) && chain.View() == old(chain.View())
      ensures account.Some? ==>
        && View() == old(ListsAfter(chain.View(), account.value, View(), Buy(product)))
        && chain.View() == old(ChainAfter(chain.View(), account.value, Buy(product)))
      ensures old(ShowsTruth(chain) && OnScreen(View(), Buy(product))) ==> ShowsTruth(chain)
      ensures account.Some? && old(CheckBuy(chain.View(), account.value, product.id)).None? ==>
        PutInFront(old(locker), product, locker)
    {
      if account.None? {
        return;
      }
      ghost var before := World(chain.View(), View());
      BoughtGoesInFront(before.lists, product);
      var sent := chain.Dispatch(Signed(account.value, BuyProduct(product.id)));
      if sent.Success? {
        locker := [product] + locker;
        locker := WithSale(locker, product.id, false);
        products := WithSale(products, product.id, false);
      }
      if Truthful(before, account.value) && OnScreen(before.lists, Buy(product)) {
        ActionStaysTruthful(before, account.value, Buy(product));
      }
    }

    method HandleToggleSale(chain: Chain, product: Local, forSale: bool)
      modifies this`products, this`locker, chain
      ensures account.None? ==> View() == old(View()) && chain.View() == old(chain.View())
      ensures account.Some? ==>
        && View() == old(ListsAfter(chain.View(), account.value, View(), Toggle(product, forSale)))
        && chain.View() == old(ChainAfter(chain.View(), account.value, Toggle(product, forSale)))
      ensures old(ShowsTruth(chain) && OnScreen(View(), Toggle(product, forSale))) ==> ShowsTruth(chain)
    {
      if account.None? {
        return;
      }
      ghost var before := World(chain.View(), View());
      var sent := chain.Dispatch(Signed(account.value, ToggleSale(product.id, forSale)));
      if sent.Success? {
        locker := WithSale(locker, product.id, forSale);
        products := WithSale(products, product.id, forSale);
      }
      if Truthful(before, account.value) && OnScreen(before.lists, Toggle(product, forSale)) {
        ActionStaysTruthful(before, account.value, Toggle(product, forSale));
      }
    }

    method HandleRedeem(chain: Chain, product: Local)
      modifies this`products, this`locker, chain
      ensures account.None? ==> View() == old(View()) && chain.View() == old(chain.View())
      ensures account.Some? ==>
        && View() == old(ListsAfter(chain.View(), account.value, View(), Redeem(product)))
        && chain.View() == old(ChainAfter(chain.View(), account.value, Redeem(product)))
      ensures old(ShowsTruth(chain) && OnScreen(View(), Redeem(product))) ==> ShowsTruth(chain)
    {
      if account.None? {
        return;
      }
      ghost var before := World(chain.View(), View());
      var sent := chain.Dispatch(Signed(account.value, RedeemProduct(product.id)));
      if sent.Success? {
        locker := WithRedeemed(locker, product.id);
        products := WithRedeemed(products, product.id);
      }
      if Truthful(before, account.value) && OnScreen(before.lists, Redeem(product)) {
        ActionStaysTruthful(before, account.value, Redeem(product));
      }
    }
  }
}
