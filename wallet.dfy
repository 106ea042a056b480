/**
 * A wallet keeps one balance per asset symbol.  `credit` adds to a balance
 * (an absent asset counts as 0); `debit` refuses when the balance is smaller
 * than the amount, and otherwise subtracts in place.
 */
module Wallets {
  import opened Wrappers

  type Balances = map<string, int>

  /** Why a debit raised: the sufficiency guard, or the `-=` on a key that is not there. */
  datatype DebitError = InsufficientBalance | MissingAsset

  /** The asset every new wallet starts with. */
  const DefaultAsset: string := "MERIT"

  /** `balances.get(asset, 0)` */
  function BalanceOf(m: Balances, asset: string): int
  {
    if asset in m then m[asset] else 0
  }

  /** The balance map after `credit(asset, amount)`. */
  function Credited(m: Balances, asset: string, amount: int): (r: Balances)
    ensures r.Keys == m.Keys + {asset}
    ensures r[asset] == BalanceOf(m, asset) + amount
    ensures forall b :: b in m && b != asset ==> r[b] == m[b]
  {
    m[asset := BalanceOf(m, asset) + amount]
  }

  /**
   * The balance map after `debit(asset, amount)`, or the error it raises.
   * The guard reads the balance with a default of 0, so an absent asset
   * passes it when `amount <= 0` and then fails on the in-place subtraction.
   */
  function Debited(m: Balances, asset: string, amount: int): (r: Result<Balances, DebitError>)
    ensures r.Success? <==> asset in m && amount <= m[asset]
    ensures r == Failure(InsufficientBalance) <==> BalanceOf(m, asset) < amount
    ensures r == Failure(MissingAsset) <==> asset !in m && amount <= 0
    ensures r.Success? ==> r.value.Keys == m.Keys
    ensures r.Success? ==> r.value[asset] == m[asset] - amount && r.value[asset] >= 0
    ensures r.Success? ==> forall b :: b in m && b != asset ==> r.value[b] == m[b]
  {
    if BalanceOf(m, asset) < amount then Failure(InsufficientBalance)
    else if asset !in m then Failure(MissingAsset)
    else Success(m[asset := m[asset] - amount])
  }

  /** A single call on a wallet's balances. */
  datatype Op = CreditOp(asset: string, amount: int) | DebitOp(asset: string, amount: int)

  /** One call; a debit that raises leaves the balances as they were. */
  function Apply(m: Balances, op: Op): Balances
  {
    match op
    case CreditOp(a, x) => Credited(m, a, x)
    case DebitOp(a, x) =>
      var r := Debited(m, a, x);
      if r.Success? then r.value else m
  }

  /** A sequence of calls, in order. */
  function ApplyAll(m: Balances, ops: seq<Op>): Balances
    decreases |ops|
  {
    if ops == [] then m else ApplyAll(Apply(m, ops[0]), ops[1..])
  }

  ghost predicate NonNegative(m: Balances)
  {
    forall a :: a in m ==> m[a] >= 0
  }

  ghost predicate CreditsNonNegative(ops: seq<Op>)
  {
    forall i :: 0 <= i < |ops| && ops[i].CreditOp? ==> ops[i].amount >= 0
  }

  /** When no credit is negative, no sequence of credits and debits makes a balance negative. */
  lemma {:induction false} BalancesStayNonNegative(m: Balances, ops: seq<Op>)
    requires NonNegative(m) && CreditsNonNegative(ops)
    ensures NonNegative(ApplyAll(m, ops))
    decreases |ops|
  {
    if ops != [] {
      var m' := Apply(m, ops[0]);
      assert NonNegative(m');
      assert CreditsNonNegative(ops[1..]) by {
        forall i | 0 <= i < |ops[1..]| && ops[1..][i].CreditOp?
          ensures ops[1..][i].amount >= 0
        {
          assert ops[1..][i] == ops[i + 1];
        }
      }
      BalancesStayNonNegative(m', ops[1..]);
    }
  }

  /**
   * Crediting then debiting the same amount succeeds exactly when the asset's
   * balance was not negative, and then restores that balance (an absent asset
   * is left present at 0).
   */
  lemma CreditThenDebitRestores(m: Balances, asset: string, amount: int)
    ensures Debited(Credited(m, asset, amount), asset, amount).Success? <==> BalanceOf(m, asset) >= 0
    ensures BalanceOf(m, asset) >= 0 ==>
      Debited(Credited(m, asset, amount), asset, amount).value == m[asset := BalanceOf(m, asset)]
  {
  }

  /** A successful debit followed by a credit of the same amount gives back the very same map. */
  lemma DebitThenCreditRestores(m: Balances, asset: string, amount: int)
    requires Debited(m, asset, amount).Success?
    ensures Credited(Debited(m, asset, amount).value, asset, amount) == m
  {
  }

  /** A wallet: an opaque identifier and a per-asset balance map updated in place. */
  class Wallet {
    const walletId: string
    var balances: Balances

    constructor (walletId: string)
      ensures this.walletId == walletId
      ensures balances == map[DefaultAsset := 0]
    {
      this.walletId := walletId;
      balances := map[DefaultAsset := 0];
    }

    method Credit(asset: string, amount: int)
      modifies this
      ensures balances == Credited(old(balances), asset, amount)
      ensures balances == Apply(old(balances), CreditOp(asset, amount))
    {
      balances := balances[asset := BalanceOf(balances, asset) + amount];
    }

    method Debit(asset: string, amount: int) returns (outcome: Outcome<DebitError>)
      modifies this
      ensures outcome.Pass? <==> Debited(old(balances), asset, amount).Success?
      ensures outcome.Fail? ==> outcome.error == Debited(old(balances), asset, amount).error
      ensures outcome.Pass? ==> balances == Debited(old(balances), asset, amount).value
      ensures outcome.Fail? ==> balances == old(balances)
      ensures balances == Apply(old(balances), DebitOp(asset, amount))
    {
      if BalanceOf(balances, asset) < amount {
        return Fail(InsufficientBalance);
      }
      if asset !in balances {
        return Fail(MissingAsset);
      }
      balances := balances[asset := balances[asset] - amount];
      outcome := Pass;
    }
  }
}
