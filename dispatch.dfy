/**
 * `send_reward` (src/scripts/new_bridge_users_reward.py lines 86-102): split
 * the addresses into batches of 100 and, unless in dry-run mode, submit one
 * `batchSend` transaction per batch carrying 0.1 ether per recipient. The
 * submitted transactions are the output; the nonce the node reports before
 * each batch is a parameter. The receipt status is only logged and feeds
 * nothing back, so it is not modelled.
 */
module Dispatch {
  import opened Scanner
  import opened Utils

  /** The batch size passed to `split_list_by_n`. */
  const BATCH_SIZE: nat := 100

  /** `Web3.toWei(0.1, 'ether')` */
  const REWARD_WEI: nat := 100000000000000000

  /** One submitted `batchSend(recipients, amount)` transaction. */
  datatype Tx = Tx(recipients: seq<Address>, amount: nat, value: nat, nonce: int)

  /** `w3.eth.get_transaction_count`, read before building the `k`-th batch. */
  type NonceSource = nat -> int

  function BatchTx(batch: seq<Address>, nonce: int): Tx {
    Tx(batch, REWARD_WEI, REWARD_WEI * |batch|, nonce)
  }

  /** The transactions `send_reward(addresses)` submits, in order. */
  function Transactions(addresses: seq<Address>, mockSend: bool, nonceAt: NonceSource): seq<Tx> {
    if mockSend then []
    else
      var batches := SplitByN(addresses, BATCH_SIZE);
      seq(|batches|, k requires 0 <= k < |batches| => BatchTx(batches[k], nonceAt(k)))
  }

  function Recipients(txs: seq<Tx>): seq<seq<Address>> {
    seq(|txs|, k requires 0 <= k < |txs| => txs[k].recipients)
  }

  function TotalValue(txs: seq<Tx>): nat {
    if txs == [] then 0 else txs[0].value + TotalValue(txs[1..])
  }

  /** The loop of `send_reward`. */
  method SendReward(addresses: seq<Address>, mockSend: bool, nonceAt: NonceSource) returns (txs: seq<Tx>)
    ensures txs == Transactions(addresses, mockSend, nonceAt)
  {
    var batches := SplitByN(addresses, BATCH_SIZE);
    txs := [];
    for k := 0 to |batches|
      invariant mockSend ==> txs == []
      invariant !mockSend ==> |txs| == k
      invariant !mockSend ==> forall i :: 0 <= i < k ==> txs[i] == BatchTx(batches[i], nonceAt(i))
    {
      if !mockSend {
        var nonce := nonceAt(k);
        txs := txs + [BatchTx(batches[k], nonce)];
      }
    }
  }

  /**
   * Dry run submits nothing. Otherwise there is one transaction per batch, in
   * batch order; each pays between 1 and 100 recipients 0.1 ether apiece,
   * carries `value = 10^17 * len(batch)` and the nonce read just before it.
   */
  lemma TransactionsShape(addresses: seq<Address>, mockSend: bool, nonceAt: NonceSource)
    ensures mockSend ==> Transactions(addresses, mockSend, nonceAt) == []
    ensures !mockSend ==> Recipients(Transactions(addresses, mockSend, nonceAt)) == SplitByN(addresses, BATCH_SIZE)
    ensures forall k :: 0 <= k < |Transactions(addresses, mockSend, nonceAt)| ==>
              var tx := Transactions(addresses, mockSend, nonceAt)[k];
              1 <= |tx.recipients| <= BATCH_SIZE &&
              tx.amount == REWARD_WEI &&
              tx.value == REWARD_WEI * |tx.recipients| &&
              tx.nonce == nonceAt(k)
  {
    SplitChunkSizes(addresses, BATCH_SIZE);
    if !mockSend {
      var batches := SplitByN(addresses, BATCH_SIZE);
      var txs := Transactions(addresses, mockSend, nonceAt);
      assert |txs| == |batches|;
      forall k | 0 <= k < |batches|
        ensures txs[k] == BatchTx(batches[k], nonceAt(k)) && Recipients(txs)[k] == batches[k]
      {
        assert txs[k] == BatchTx(batches[k], nonceAt(k));
      }
    }
  }

  /** Every address is paid exactly once and in the order given: the batches concatenate back to the list. */
  lemma TransactionsPayEach(addresses: seq<Address>, nonceAt: NonceSource)
    ensures Flatten(Recipients(Transactions(addresses, false, nonceAt))) == addresses
    ensures (|Transactions(addresses, false, nonceAt)| - 1) * BATCH_SIZE < |addresses| <=
            |Transactions(addresses, false, nonceAt)| * BATCH_SIZE
  {
    TransactionsShape(addresses, false, nonceAt);
    SplitFlatten(addresses, BATCH_SIZE);
    SplitCount(addresses, BATCH_SIZE);
  }

  lemma {:induction false} TotalValueOfBatches(txs: seq<Tx>)
    requires forall k :: 0 <= k < |txs| ==> txs[k].value == REWARD_WEI * |txs[k].recipients|
    ensures TotalValue(txs) == REWARD_WEI * |Flatten(Recipients(txs))|
  {
    if txs != [] {
      assert Recipients(txs[1..]) == Recipients(txs)[1..];
      TotalValueOfBatches(txs[1..]);
    }
  }

  /** A round sends `10^17` wei per address in total. */
  lemma TransactionsTotalValue(addresses: seq<Address>, nonceAt: NonceSource)
    ensures TotalValue(Transactions(addresses, false, nonceAt)) == REWARD_WEI * |addresses|
  {
    TransactionsShape(addresses, false, nonceAt);
    TransactionsPayEach(addresses, nonceAt);
    TotalValueOfBatches(Transactions(addresses, false, nonceAt));
  }
}
