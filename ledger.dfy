/**
 * The campaign ledger's reference total: what the transactions that reached
 * `completed` for a campaign add up to. Transactions are kept under ids
 * below a bound, so the total is a sum over the ids in order.
 */
module Ledger {
  import opened Ids
  import opened TransactionSchema

  /** What one transaction contributes to a campaign's total: its amount once it is completed, else nothing. */
  function Contribution(t: Transaction, d: DonationId): int {
    if t.donation == d && t.status == Completed then t.amount else 0
  }

  /** The sum of the contributions of the transactions stored under ids below `n`. */
  function CompletedSum(txs: map<TxId, Transaction>, d: DonationId, n: nat): int {
    if n == 0 then 0
    else CompletedSum(txs, d, n - 1) + (if n - 1 in txs then Contribution(txs[n - 1], d) else 0)
  }

  /**
   * Storing `t` under id `k` changes a campaign's total by exactly the change
   * in that one record's contribution, and not at all when `k` is beyond the
   * bound.
   */
  lemma {:induction false} SumUpdate(txs: map<TxId, Transaction>, k: TxId, t: Transaction, d: DonationId, n: nat)
    ensures CompletedSum(txs[k := t], d, n) ==
      CompletedSum(txs, d, n)
      + (if k < n then Contribution(t, d) - (if k in txs then Contribution(txs[k], d) else 0) else 0)
  {
    if n > 0 {
      SumUpdate(txs, k, t, d, n - 1);
    }
  }

  /** Records of other campaigns, and records that are not completed, never count. */
  lemma {:induction false} SumIgnoresOthers(txs: map<TxId, Transaction>, d: DonationId, n: nat)
    requires forall k :: k in txs ==> txs[k].donation != d || txs[k].status != Completed
    ensures CompletedSum(txs, d, n) == 0
  {
    if n > 0 {
      SumIgnoresOthers(txs, d, n - 1);
    }
  }
}
