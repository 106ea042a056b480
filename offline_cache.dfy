/**
 * A client-side buffer of pending transactions: `add` appends one, and
 * `flush` hands back everything buffered, in insertion order, and starts
 * a fresh empty buffer.
 */
module OfflineQueue {

  class OfflineCache<Tx> {
    var pendingTx: seq<Tx>

    constructor ()
      ensures pendingTx == []
    {
      pendingTx := [];
    }

    method Add(tx: Tx)
      modifies this
      ensures pendingTx == old(pendingTx) + [tx]
    {
      pendingTx := pendingTx + [tx];
    }

    /** The returned batch is the old buffer itself; later adds go to the new one. */
    method Flush() returns (txs: seq<Tx>)
      modifies this
      ensures txs == old(pendingTx)
      ensures pendingTx == []
    {
      txs := pendingTx;
      pendingTx := [];
    }
  }

  /**
   * Flushing twice in a row yields the buffered transactions and then nothing,
   * and a transaction added after a flush does not reach the batch already returned.
   */
  method FlushTwiceThenAdd<Tx>(cache: OfflineCache<Tx>, tx: Tx) returns (first: seq<Tx>, second: seq<Tx>)
    modifies cache
    ensures first == old(cache.pendingTx) && second == []
    ensures cache.pendingTx == [tx]
  {
    first := cache.Flush();
    second := cache.Flush();
    cache.Add(tx);
  }
}
