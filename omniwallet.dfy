/**
 * The identity-bearing wallet: the same balance rules as `Wallet`, plus a
 * `nonce` that every successful debit bumps by one.  The identifier comes
 * from a random generator and is taken here as an opaque parameter.
 */
module OmniWallets {
  import opened Wrappers
  import opened Wallets

  /** The part of an OmniWallet that its operations change. */
  datatype OmniState = OmniState(balances: Balances, nonce: nat)

  /** Whether a call leaves the wallet without raising. */
  predicate Succeeds(m: Balances, op: Op)
  {
    op.DebitOp? ==> Debited(m, op.asset, op.amount).Success?
  }

  /** One call on an OmniWallet. */
  function Step(s: OmniState, op: Op): OmniState
  {
    OmniState(Apply(s.balances, op), if op.DebitOp? && Succeeds(s.balances, op) then s.nonce + 1 else s.nonce)
  }

  /** A sequence of calls, in order. */
  function Run(s: OmniState, ops: seq<Op>): OmniState
    decreases |ops|
  {
    if ops == [] then s else Run(Step(s, ops[0]), ops[1..])
  }

  /** The number of debits in `ops` that succeed when the calls are made in order from `m`. */
  function SuccessfulDebits(m: Balances, ops: seq<Op>): nat
    decreases |ops|
  {
    if ops == [] then 0
    else (if ops[0].DebitOp? && Succeeds(m, ops[0]) then 1 else 0) + SuccessfulDebits(Apply(m, ops[0]), ops[1..])
  }

  /** The nonce counts successful debits, and the balances evolve exactly as a plain wallet's. */
  lemma {:induction false} NonceCountsSuccessfulDebits(s: OmniState, ops: seq<Op>)
    ensures Run(s, ops).nonce == s.nonce + SuccessfulDebits(s.balances, ops)
    ensures Run(s, ops).balances == ApplyAll(s.balances, ops)
    decreases |ops|
  {
    if ops != [] {
      NonceCountsSuccessfulDebits(Step(s, ops[0]), ops[1..]);
    }
  }

  /** Hence the nonce never decreases over any sequence of calls. */
  lemma NonceNeverDecreases(s: OmniState, ops: seq<Op>)
    ensures Run(s, ops).nonce >= s.nonce
  {
    NonceCountsSuccessfulDebits(s, ops);
  }

  class OmniWallet {
    const uid: string
    var balances: Balances
    var nonce: nat

    /** The current state, as the sequence lemmas above see it. */
    function State(): OmniState
      reads this
    {
      OmniState(balances, nonce)
    }

    constructor (uid: string)
      ensures this.uid == uid
      ensures balances == map[DefaultAsset := 0] && nonce == 0
    {
      this.uid := uid;
      balances := map[DefaultAsset := 0];
      nonce := 0;
    }

    method Credit(asset: string, amount: int)
      modifies this
      ensures balances == Credited(old(balances), asset, amount)
      ensures nonce == old(nonce)
      ensures State() == Step(old(State()), CreditOp(asset, amount))
    {
      balances := balances[asset := BalanceOf(balances, asset) + amount];
    }

    method Debit(asset: string, amount: int) returns (outcome: Outcome<DebitError>)
      modifies this
      ensures outcome.Pass? <==> Debited(old(balances), asset, amount).Success?
      ensures outcome.Fail? ==> outcome.error == Debited(old(balances), asset, amount).error
      ensures outcome.Pass? ==> balances == Debited(old(balances), asset, amount).value && nonce == old(nonce) + 1
      ensures outcome.Fail? ==> balances == old(balances) && nonce == old(nonce)
      ensures State() == Step(old(State()), DebitOp(asset, amount))
    {
      if BalanceOf(balances, asset) < amount {
        return Fail(InsufficientBalance);
      }
      if asset !in balances {
        return Fail(MissingAsset);
      }
      balances := balances[asset := balances[asset] - amount];
      nonce := nonce + 1;
      outcome := Pass;
    }
  }
}
