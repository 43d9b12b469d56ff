/** An exact ledger of free balances. */
module Ledger {
  import opened Numbers

  type Ledger = map<nat, Balance>

  function BalanceOf(l: Ledger, a: nat): Balance { if a in l then l[a] else 0 }

  /** The sum of all values: the tokens of a ledger. */
  ghost function Total<K>(l: map<K, nat>): nat {
    if l == map[] then 0
    else
      var a :| a in l;
      l[a] + Total(l - {a})
  }

  lemma {:induction false} TotalRemove<K>(l: map<K, nat>, a: K)
    requires a in l
    ensures Total(l) == l[a] + Total(l - {a})
    decreases |l|
  {
    var b :| b in l && Total(l) == l[b] + Total(l - {b});
    if b != a {
      TotalRemove(l - {b}, a);
      TotalRemove(l - {a}, b);
      assert l - {b} - {a} == l - {a} - {b};
    }
  }

  /** Setting one balance moves the total by the change. */
  lemma {:induction false} TotalUpdate<K>(l: map<K, nat>, a: K, x: nat)
    ensures Total(l[a := x]) == Total(l) - (if a in l then l[a] else 0) + x
  {
    TotalRemove(l[a := x], a);
    if a in l {
      TotalRemove(l, a);
      assert l[a := x] - {a} == l - {a};
    } else {
      assert l[a := x] - {a} == l;
    }
  }

  lemma {:induction false} BalanceWithin<K>(l: map<K, nat>, a: K)
    requires a in l
    ensures l[a] <= Total(l)
  {
    TotalRemove(l, a);
  }

  /** What a slash takes: as much as there is. */
  function Taken(l: Ledger, a: nat, amount: Balance): Balance { Min(BalanceOf(l, a), amount) }

  /** The ledger after a slash; what was taken is in flight until it is deposited. */
  function Slash(l: Ledger, a: nat, amount: Balance): Ledger {
    l[a := BalanceOf(l, a) - Taken(l, a, amount)]
  }

  /** The ledger after tokens in flight arrive. */
  function Deposit(l: Ledger, a: nat, amount: Balance): Ledger {
    l[a := SatAdd(BalanceOf(l, a), amount)]
  }

  lemma {:induction false} SlashTotal(l: Ledger, a: nat, amount: Balance)
    ensures Total(Slash(l, a, amount)) + Taken(l, a, amount) == Total(l)
  {
    TotalUpdate(l, a, BalanceOf(l, a) - Taken(l, a, amount));
  }

  /** No deposit saturates as long as all tokens together fit a balance. */
  lemma {:induction false} DepositTotal(l: Ledger, a: nat, amount: Balance)
    requires Total(l) + amount <= U128_MAX
    ensures Total(Deposit(l, a, amount)) == Total(l) + amount
    ensures BalanceOf(Deposit(l, a, amount), a) == BalanceOf(l, a) + amount
  {
    if a in l {
      BalanceWithin(l, a);
    }
    TotalUpdate(l, a, SatAdd(BalanceOf(l, a), amount));
  }
}
