/**
 * Moving an amount of one asset between two wallets: debit the sender, then
 * credit the receiver, then record a ledger entry.  A debit that raises stops
 * the operation before anything else happens.
 */
module Transfers {
  import opened Wrappers
  import opened Wallets
  import opened Ledger

  /** The two balance maps after a transfer between two distinct wallets, or the debit's error. */
  function TransferBalances(from: Balances, to: Balances, asset: string, amount: int)
    : (r: Result<(Balances, Balances), DebitError>)
  {
    var d := Debited(from, asset, amount);
    if d.Failure? then Failure(d.error) else Success((d.value, Credited(to, asset, amount)))
  }

  /**
   * Between distinct wallets a transfer succeeds exactly when the sender's
   * debit does; it then moves `amount` from one balance to the other, keeps
   * their sum, and leaves every other asset alone.
   */
  lemma TransferMovesAmount(from: Balances, to: Balances, asset: string, amount: int)
    ensures TransferBalances(from, to, asset, amount).Success? <==> asset in from && amount <= from[asset]
    ensures TransferBalances(from, to, asset, amount).Failure? ==>
      TransferBalances(from, to, asset, amount).error == Debited(from, asset, amount).error
    ensures TransferBalances(from, to, asset, amount).Success? ==>
      var (f, t) := TransferBalances(from, to, asset, amount).value;
      && BalanceOf(f, asset) == BalanceOf(from, asset) - amount
      && BalanceOf(t, asset) == BalanceOf(to, asset) + amount
      && BalanceOf(f, asset) + BalanceOf(t, asset) == BalanceOf(from, asset) + BalanceOf(to, asset)
      && (forall b :: b != asset ==> BalanceOf(f, b) == BalanceOf(from, b) && BalanceOf(t, b) == BalanceOf(to, b))
  {
  }

  /**
   * `transfer(sender, receiver, amount, asset="MERIT")`.  `now` is the clock
   * reading and `digest` the hash algorithm the new entry uses.
   */
  method Transfer(sender: Wallet, receiver: Wallet, amount: int, now: string,
                  digest: string -> string, asset: string := DefaultAsset)
    returns (r: Result<LedgerEntry, DebitError>)
    modifies sender, receiver
    ensures r.Success? <==> Debited(old(sender.balances), asset, amount).Success?
    // all-or-nothing: a failed debit changes neither wallet and yields no entry
    ensures r.Failure? ==>
      && r.error == Debited(old(sender.balances), asset, amount).error
      && sender.balances == old(sender.balances)
      && receiver.balances == old(receiver.balances)
    ensures r.Success? && sender != receiver ==>
      TransferBalances(old(sender.balances), old(receiver.balances), asset, amount)
        == Success((sender.balances, receiver.balances))
    ensures r.Success? && sender != receiver ==>
      BalanceOf(sender.balances, asset) + BalanceOf(receiver.balances, asset)
        == old(BalanceOf(sender.balances, asset) + BalanceOf(receiver.balances, asset))
    // a transfer from a wallet to itself leaves it as it was
    ensures r.Success? && sender == receiver ==> sender.balances == old(sender.balances)
    ensures r.Success? ==>
      && fresh(r.value)
      && r.value.sender == sender.walletId && r.value.receiver == receiver.walletId
      && r.value.amount == amount && r.value.asset == asset
      && r.value.timestamp == now
      && r.value.digest == digest && r.value.Valid()
  {
    var debit := sender.Debit(asset, amount);
    if debit.Fail? {
      return Failure(debit.error);
    }
    receiver.Credit(asset, amount);
    if sender == receiver {
      DebitThenCreditRestores(old(sender.balances), asset, amount);
    }
    var entry := new LedgerEntry(sender.walletId, receiver.walletId, amount, asset, now, digest);
    r := Success(entry);
  }

  /** Wallet A holds 100 MERIT and B none: moving 30 leaves 70 and 30; then moving 1000 fails. */
  method TwoTransfers(digest: string -> string)
  {
    var a := new Wallet("A");
    var b := new Wallet("B");
    a.Credit(DefaultAsset, 100);
    var first := Transfer(a, b, 30, "t1", digest);
    assert first.Success?;
    assert a.balances[DefaultAsset] == 70 && b.balances[DefaultAsset] == 30;
    assert first.value.amount == 30 && first.value.asset == DefaultAsset;
    var second := Transfer(a, b, 1000, "t2", digest);
    assert second == Failure(InsufficientBalance);
    assert a.balances[DefaultAsset] == 70 && b.balances[DefaultAsset] == 30;
  }
}
