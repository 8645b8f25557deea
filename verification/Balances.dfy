/** The part of the balances pallet that the marketplace uses: free balances, and a transfer
    that keeps the sender alive. There are no locks, freezes or reserves. */
module Balances {
  import opened Types

  type Ledger = map<Account, U128>

  /** An account without an entry has nothing. */
  function Free(b: Ledger, who: Account): U128 {
    if who in b then b[who] else 0
  }

  /** `Currency::transfer` with `ExistenceRequirement::KeepAlive`. */
  function Transfer(b: Ledger, from: Account, to: Account, value: U128): (r: Result<Ledger, ()>) {
    if value == 0 || from == to then
      Success(b)
    else if Free(b, from) < value + EXISTENTIAL_DEPOSIT then
      Failure(())
    else if Free(b, to) + value < EXISTENTIAL_DEPOSIT || Free(b, to) + value > U128_MAX then
      Failure(())
    else
      Success(b[from := Free(b, from) - value][to := Free(b, to) + value])
  }

  /** No account is left with dust: it holds nothing, or at least the existential deposit. */
  ghost predicate NoDust(b: Ledger) {
    forall a :: a in b ==> b[a] == 0 || b[a] >= EXISTENTIAL_DEPOSIT
  }

  /** Total issuance. */
  ghost function Total(b: Ledger): nat
    decreases |b|
  {
    if b == map[] then 0 else
      var a :| a in b;
      assert |b - {a}| < |b| by { assert (b - {a}).Keys == b.Keys - {a}; }
      b[a] + Total(b - {a})
  }

  /** The order in which `Total` picks accounts does not matter. */
  lemma {:induction false} TotalRemove(b: Ledger, a: Account)
    requires a in b
    ensures Total(b) == b[a] + Total(b - {a})
    decreases |b|
  {
    var first :| first in b && Total(b) == b[first] + Total(b - {first});
    if first != a {
      assert |b - {first}| < |b| && |b - {a}| < |b| by {
        assert (b - {first}).Keys == b.Keys - {first};
        assert (b - {a}).Keys == b.Keys - {a};
      }
      TotalRemove(b - {first}, a);
      TotalRemove(b - {a}, first);
      assert b - {first} - {a} == b - {a} - {first};
    }
  }

  lemma TotalUpdate(b: Ledger, a: Account, value: U128)
    ensures Total(b[a := value]) == Total(b) - Free(b, a) + value
  {
    var c := b[a := value];
    TotalRemove(c, a);
    if a in b {
      TotalRemove(b, a);
      assert c - {a} == b - {a};
    } else {
      assert c - {a} == b;
    }
  }

  /** Two different accounts never hold more than what was issued. */
  lemma TwoWithinTotal(b: Ledger, x: Account, y: Account)
    requires x != y
    ensures Free(b, x) + Free(b, y) <= Total(b)
  {
    if x in b { TotalRemove(b, x); }
    if y in b { TotalRemove(if x in b then b - {x} else b, y); }
  }

  /** A successful transfer moves exactly `value`, and neither creates nor destroys money. */
  lemma TransferConserves(b: Ledger, from: Account, to: Account, value: U128)
    requires Transfer(b, from, to, value).Success?
    requires NoDust(b)
    ensures var b' := Transfer(b, from, to, value).value;
      && Total(b') == Total(b)
      && NoDust(b')
      && (forall a :: Free(b', a) == Free(b, a) - (if a == from then value else 0) + (if a == to then value else 0))
  {
    if value != 0 && from != to {
      TotalUpdate(b, from, Free(b, from) - value);
      TotalUpdate(b[from := Free(b, from) - value], to, Free(b, to) + value);
    }
  }

  /** What a payer has to be able to afford, and the payee to end up with. */
  predicate Payable(b: Ledger, from: Account, to: Account, value: U128) {
    value != 0 ==>
      && Free(b, from) >= value + EXISTENTIAL_DEPOSIT
      && Free(b, to) + value >= EXISTENTIAL_DEPOSIT
  }

  /** While the issuance fits in 128 bits, the overflow check of a transfer never decides. */
  lemma TransferSucceedsIff(b: Ledger, from: Account, to: Account, value: U128)
    requires Total(b) <= U128_MAX && from != to
    ensures Transfer(b, from, to, value).Success? <==> Payable(b, from, to, value)
  {
    TwoWithinTotal(b, from, to);
  }
}
