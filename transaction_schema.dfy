/**
 * The Transaction schema of backend/models/Transaction.js: the record shape,
 * the status and proof-type enumerations, the defaults Mongoose fills in and
 * the `required` checks it runs when a record is created.
 */
module TransactionSchema {
  import opened Wrappers
  import opened Ids
  import opened Mongoose

  datatype Status = Pending | Verified | Completed | Rejected | Failed

  /** The stored spelling of a status. */
  function StatusName(s: Status): string {
    match s
    case Pending => "pending"
    case Verified => "verified"
    case Completed => "completed"
    case Rejected => "rejected"
    case Failed => "failed"
  }

  datatype ProofType = Image | Pdf | Doc

  /** The stored spelling of a proof type. */
  function ProofTypeName(p: ProofType): string {
    match p
    case Image => "image"
    case Pdf => "pdf"
    case Doc => "doc"
  }

  /** A stored transaction. Optional schema paths are `Option`s; `donor` is optional too. */
  datatype Transaction = Transaction(
    donation: DonationId,
    donor: Option<UserId>,
    amount: int,
    message: Option<string>,
    anonymous: bool,
    transactionId: Option<string>,
    status: Status,
    proofOfTransaction: string,
    proofType: ProofType,
    verifiedBy: Option<UserId>,
    verificationDate: Option<Time>,
    verificationComment: Option<string>,
    createdAt: Time)

  /** The fields handed to `Transaction.create`; any of them may be missing. */
  datatype TransactionDraft = TransactionDraft(
    donation: Option<DonationId>,
    donor: Option<UserId>,
    amount: Option<int>,
    message: Option<string>,
    anonymous: Option<bool>,
    transactionId: Option<string>,
    status: Option<Status>,
    proofOfTransaction: Option<string>,
    proofType: Option<ProofType>,
    verifiedBy: Option<UserId>,
    verificationDate: Option<Time>,
    verificationComment: Option<string>,
    createdAt: Option<Time>)

  /**
   * The `required` checks, in schema order: `donation`, `amount` and
   * `proofType` must be present; `proofOfTransaction` must be present and,
   * being a String path, non-empty.
   */
  function MissingPaths(d: TransactionDraft): (ms: seq<string>)
    ensures ms == [] <==> d.donation.Some? && d.amount.Some? && d.proofOfTransaction.Some?
                          && d.proofOfTransaction.value != [] && d.proofType.Some?
    ensures d.donation.None? ==> RequiredMessage("donation") in ms
    ensures d.amount.None? ==> RequiredMessage("amount") in ms
    ensures d.proofOfTransaction.None? || d.proofOfTransaction.value == [] ==> RequiredMessage("proofOfTransaction") in ms
    ensures d.proofType.None? ==> RequiredMessage("proofType") in ms
  {
    (if d.donation.None? then [RequiredMessage("donation")] else [])
    + (if d.amount.None? then [RequiredMessage("amount")] else [])
    + (if d.proofOfTransaction.None? || d.proofOfTransaction.value == [] then [RequiredMessage("proofOfTransaction")] else [])
    + (if d.proofType.None? then [RequiredMessage("proofType")] else [])
  }

  /**
   * `Transaction.create(draft)`: fails with the messages of every failed
   * `required` check, or stores the draft with the schema defaults filled in
   * (`anonymous` false, `status` pending, `createdAt` now).
   */
  function Create(d: TransactionDraft, now: Time): (r: Result<Transaction, seq<string>>)
    ensures r.Err? <==> MissingPaths(d) != []
    ensures r.Err? ==> r.error == MissingPaths(d)
    ensures r.Ok? ==>
      && Some(r.value.donation) == d.donation && Some(r.value.amount) == d.amount
      && Some(r.value.proofOfTransaction) == d.proofOfTransaction && Some(r.value.proofType) == d.proofType
      && r.value.status == d.status.GetOr(Pending)
      && r.value.anonymous == d.anonymous.GetOr(false)
      && r.value.createdAt == d.createdAt.GetOr(now)
      && r.value.donor == d.donor && r.value.message == d.message
      && r.value.transactionId == d.transactionId
      && r.value.verifiedBy == d.verifiedBy && r.value.verificationDate == d.verificationDate
      && r.value.verificationComment == d.verificationComment
  {
    var missing := MissingPaths(d);
    if missing != [] then Err(missing)
    else Ok(Transaction(
      d.donation.value, d.donor, d.amount.value, d.message, d.anonymous.GetOr(false),
      d.transactionId, d.status.GetOr(Pending), d.proofOfTransaction.value, d.proofType.value,
      d.verifiedBy, d.verificationDate, d.verificationComment, d.createdAt.GetOr(now)))
  }

  /** A stored record written back out as a draft, every path present. */
  function DraftOf(t: Transaction): TransactionDraft {
    TransactionDraft(
      Some(t.donation), t.donor, Some(t.amount), t.message, Some(t.anonymous),
      t.transactionId, Some(t.status), Some(t.proofOfTransaction), Some(t.proofType),
      t.verifiedBy, t.verificationDate, t.verificationComment, Some(t.createdAt))
  }

  /**
   * Storing a record and loading it back preserves it exactly: status, amount,
   * proof locator and kind, and the verification fields.
   */
  lemma ReloadPreserves(t: Transaction, now: Time)
    requires t.proofOfTransaction != []
    ensures Create(DraftOf(t), now) == Ok(t)
  {
  }

  /** A record whose proof locator is empty cannot be stored at all. */
  lemma EmptyProofRejected(t: Transaction, now: Time)
    requires t.proofOfTransaction == []
    ensures Create(DraftOf(t), now) == Err([RequiredMessage("proofOfTransaction")])
  {
    var d := DraftOf(t);
    assert MissingPaths(d) == [] + [] + [RequiredMessage("proofOfTransaction")] + [];
    assert Create(d, now).error == [RequiredMessage("proofOfTransaction")];
  }
}
