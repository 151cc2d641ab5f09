/**
 * The transaction routes of backend/routes/transactions.js: submitting a
 * proof-backed contribution, the administrator's verify and complete
 * transitions with their credit to the campaign's `currentAmount`, the
 * listings, and the single-record and proof-download access checks.
 *
 * The two collections are maps held by a `Store`; `Store.Valid()` carries the
 * ledger invariant: every campaign's `currentAmount` is its opening amount
 * plus the amounts of its completed transactions.
 */
module TransactionRoutes {
  import opened Wrappers
  import opened Strings
  import opened Ids
  import opened ErrorMiddleware
  import opened AuthMiddleware
  import opened TransactionSchema
  import opened DonationSchema
  import opened Ledger
  import opened Mongoose

  // ---------------------------------------------------------------------------
  // Proof classification and download headers

  /** The uploaded proof file as the upload middleware describes it. */
  datatype ProofFile = ProofFile(mimetype: string, path: string)

  /**
   * The proof kind of an upload, decided by substring tests on its media type
   * in a fixed order: "pdf" first, then "image", then "word"; anything else is
   * refused.
   */
  function ClassifyProof(mimetype: string): (r: Option<ProofType>)
    ensures r == Some(Pdf) <==> Contains(mimetype, "pdf")
    ensures r == Some(Image) <==> !Contains(mimetype, "pdf") && Contains(mimetype, "image")
    ensures r == Some(Doc) <==> !Contains(mimetype, "pdf") && !Contains(mimetype, "image") && Contains(mimetype, "word")
    ensures r.None? <==> !Contains(mimetype, "pdf") && !Contains(mimetype, "image") && !Contains(mimetype, "word")
  {
    if Contains(mimetype, "pdf") then Some(Pdf)
    else if Contains(mimetype, "image") then Some(Image)
    else if Contains(mimetype, "word") then Some(Doc)
    else None
  }

  /**
   * The download's Content-Type, chosen from the stored proof type and, for
   * images, from the file's extension.
   */
  function ContentType(proofType: string, path: string): (r: string)
    ensures proofType == "pdf" ==> r == "application/pdf"
    ensures proofType == "doc" ==> r == "application/msword"
    ensures proofType == "image" ==>
      && (r == "image/jpeg" <==> EndsWith(path, ".jpg") || EndsWith(path, ".jpeg"))
      && (r == "image/png" <==> EndsWith(path, ".png"))
      && (r == "image/gif" <==> EndsWith(path, ".gif"))
      && (r == "application/octet-stream" <==>
            !EndsWith(path, ".jpg") && !EndsWith(path, ".jpeg") && !EndsWith(path, ".png") && !EndsWith(path, ".gif"))
    ensures proofType != "pdf" && proofType != "doc" && proofType != "image" ==> r == "application/octet-stream"
  {
    ExtensionsExclusive(path);
    if proofType == "pdf" then "application/pdf"
    else if proofType == "doc" then "application/msword"
    else if proofType == "image" then
      if EndsWith(path, ".jpg") || EndsWith(path, ".jpeg") then "image/jpeg"
      else if EndsWith(path, ".png") then "image/png"
      else if EndsWith(path, ".gif") then "image/gif"
      else "application/octet-stream"
    else "application/octet-stream"
  }

  /** No path ends with two of the image extensions, so the order of the extension tests does not matter. */
  lemma ExtensionsExclusive(path: string)
    ensures !(EndsWith(path, ".png") && (EndsWith(path, ".jpg") || EndsWith(path, ".jpeg") || EndsWith(path, ".gif")))
    ensures !(EndsWith(path, ".gif") && (EndsWith(path, ".jpg") || EndsWith(path, ".jpeg")))
  {
    var n := |path|;
    if EndsWith(path, ".png") {
      assert path[n - 3] == 'p' && path[n - 4] == '.';
    }
    if EndsWith(path, ".gif") {
      assert path[n - 3] == 'g' && path[n - 1] == 'f';
    }
  }

  /** The download's file name: the last "/"-separated piece of the stored path. */
  function FileName(path: string): (r: string)
    ensures '/' !in r
    ensures |r| <= |path| && path[|path| - |r|..] == r
    ensures |r| < |path| ==> path[|path| - |r| - 1] == '/'
  {
    LastPieceIsSuffix(path, '/');
    LastPiece(path, '/')
  }

  /** The name is the whole path when it has no "/", and otherwise everything after the last "/". */
  lemma FileNameAfterLastSlash(path: string)
    ensures '/' !in path ==> FileName(path) == path
    ensures '/' in path ==> |FileName(path)| < |path| && '/' !in path[|path| - |FileName(path)|..]
  {
  }

  /**
   * The Content-Type of a stored proof, whose type is always one of the
   * schema's three: the switch's default branch is never taken, and only an
   * image with an unknown extension is sent as a generic byte stream.
   */
  lemma StoredProofContentType(p: ProofType, path: string)
    ensures var r := ContentType(ProofTypeName(p), path);
      && (r == "application/octet-stream" <==>
            p == Image && !EndsWith(path, ".jpg") && !EndsWith(path, ".jpeg") && !EndsWith(path, ".png") && !EndsWith(path, ".gif"))
      && (p == Pdf <==> r == "application/pdf")
      && (p == Doc <==> r == "application/msword")
  {
  }

  /** The headers of a successful proof download. */
  datatype Download = Download(contentType: string, disposition: string, path: string)

  // ---------------------------------------------------------------------------
  // Listings and access checks

  /** The filters the listing routes hand to `Transaction.find`. */
  datatype Query = All | ByStatus(status: Status) | ByDonor(donor: UserId) | ByDonation(donation: DonationId)

  predicate Matches(q: Query, t: Transaction) {
    match q
    case All => true
    case ByStatus(s) => t.status == s
    case ByDonor(u) => t.donor == Some(u)
    case ByDonation(d) => t.donation == d
  }

  /** `Transaction.find(filter)` over the records stored under ids below `n`, in creation order. */
  function Find(txs: map<TxId, Transaction>, q: Query, n: nat): (r: seq<TxId>)
    ensures forall k :: k in r <==> k < n && k in txs && Matches(q, txs[k])
    ensures forall i, j :: 0 <= i < j < |r| ==> r[i] < r[j]
  {
    if n == 0 then []
    else
      var earlier := Find(txs, q, n - 1);
      assert forall i :: 0 <= i < |earlier| ==> earlier[i] in earlier;
      earlier + (if n - 1 in txs && Matches(q, txs[n - 1]) then [n - 1] else [])
  }

  /**
   * The error a non-admin gets on reading a record whose donor is missing:
   * the route reads `transaction.donor.id` without a check, and the handler
   * turns the resulting TypeError into a 500.
   */
  const MissingDonorError := ErrorHandler(JsError(None, "TypeError", [], None, "Cannot read properties of null (reading 'id')"))

  /** `GET /:id`: who may read a record (`None`), and the refusal otherwise. */
  function ViewDenial(caller: User, t: Transaction): (r: Option<ErrorResponse>)
    ensures r.None? <==> IsAdmin(caller) || t.donor == Some(caller.id)
    ensures r.Some? && t.donor.Some? ==> r.value == Fail(403, "Not authorized to access this transaction")
    ensures r.Some? && t.donor.None? ==> r.value.status == 500
  {
    if !IsAdmin(caller) then
      if t.donor.None? then Some(MissingDonorError)
      else if t.donor.value != caller.id then Some(Fail(403, "Not authorized to access this transaction"))
      else None
    else None
  }

  /** `GET /:id/download-proof`: refused only to a non-admin when the record has a donor other than the caller. */
  function DownloadDenial(caller: User, t: Transaction): (r: Option<ErrorResponse>)
    ensures r.None? <==> IsAdmin(caller) || t.donor.None? || t.donor == Some(caller.id)
    ensures r.Some? ==> r.value == Fail(403, "Not authorized to access this transaction")
  {
    if !IsAdmin(caller) && t.donor.Some? && t.donor.value != caller.id then
      Some(Fail(403, "Not authorized to access this transaction"))
    else None
  }

  /**
   * Whoever may read a record may download its proof; the converse fails
   * exactly for donor-less records, whose proof any signed-in user may
   * download although no non-admin may read the record.
   */
  lemma DownloadAtLeastAsOpenAsView(caller: User, t: Transaction)
    ensures ViewDenial(caller, t).None? ==> DownloadDenial(caller, t).None?
    ensures DownloadDenial(caller, t).None? && ViewDenial(caller, t).Some? <==> !IsAdmin(caller) && t.donor.None?
  {
  }

  // ---------------------------------------------------------------------------
  // The ledger

  /** `$inc: { currentAmount: amount }`. */
  function Credit(d: Donation, amount: int): (r: Donation)
    ensures r.currentAmount - d.currentAmount == amount
    ensures r.(currentAmount := d.currentAmount) == d
  {
    d.(currentAmount := d.currentAmount + amount)
  }

  /** Every campaign's amount is its opening amount plus what its completed transactions add up to. */
  ghost predicate Balanced(txs: map<TxId, Transaction>, donations: map<DonationId, Donation>, opening: map<DonationId, int>, n: nat) {
    forall d :: d in donations ==> d in opening && donations[d].currentAmount == opening[d] + CompletedSum(txs, d, n)
  }

  /**
   * Moving a record into `completed` while crediting its campaign with its
   * amount keeps every campaign balanced.
   */
  lemma {:induction false} CreditKeepsBalance(
    txs: map<TxId, Transaction>, donations: map<DonationId, Donation>, opening: map<DonationId, int>, n: nat,
    id: TxId, t: Transaction)
    requires Balanced(txs, donations, opening, n)
    requires id in txs && id < n && txs[id].donation in donations
    requires txs[id].status != Completed && t.status == Completed
    requires t.donation == txs[id].donation && t.amount == txs[id].amount
    ensures Balanced(txs[id := t], donations[t.donation := Credit(donations[t.donation], t.amount)], opening, n)
  {
    var donations' := donations[t.donation := Credit(donations[t.donation], t.amount)];
    forall d | d in donations'
      ensures d in opening && donations'[d].currentAmount == opening[d] + CompletedSum(txs[id := t], d, n)
    {
      SumUpdate(txs, id, t, d, n);
    }
  }

  /** A status change that neither enters nor leaves `completed` needs no credit to keep every campaign balanced. */
  lemma {:induction false} UncreditedKeepsBalance(
    txs: map<TxId, Transaction>, donations: map<DonationId, Donation>, opening: map<DonationId, int>, n: nat,
    id: TxId, t: Transaction)
    requires Balanced(txs, donations, opening, n)
    requires id in txs && txs[id].status != Completed && t.status != Completed
    ensures Balanced(txs[id := t], donations, opening, n)
  {
    forall d | d in donations
      ensures donations[d].currentAmount == opening[d] + CompletedSum(txs[id := t], d, n)
    {
      SumUpdate(txs, id, t, d, n);
    }
  }

  /** A record stored under a fresh id at or above the bound does not change any total below it. */
  lemma {:induction false} InsertKeepsBalance(
    txs: map<TxId, Transaction>, donations: map<DonationId, Donation>, opening: map<DonationId, int>, n: nat,
    t: Transaction)
    requires Balanced(txs, donations, opening, n)
    requires t.status != Completed
    ensures Balanced(txs[n := t], donations, opening, n + 1)
  {
    forall d | d in donations
      ensures donations[d].currentAmount == opening[d] + CompletedSum(txs[n := t], d, n + 1)
    {
      SumUpdate(txs, n, t, d, n);
    }
  }

  /** Records that reached a terminal status (`completed`, `rejected`) are still there, unchanged. */
  ghost predicate KeepsSettled(before: map<TxId, Transaction>, after: map<TxId, Transaction>) {
    forall k :: k in before && before[k].status in {Completed, Rejected} ==> k in after && after[k] == before[k]
  }

  /** The verification fields recorded by `verify`, with the new status. */
  function Reviewed(t: Transaction, status: Status, verifier: UserId, now: Time, comment: Option<string>): Transaction {
    t.(status := status, verifiedBy := Some(verifier), verificationDate := Some(now),
       verificationComment := Some(comment.GetOr("")))
  }

  /**
   * No record rests in `verified`. Submit creates `pending` records and
   * verify moves a `verified` record straight on to `completed`, so a store
   * that starts empty keeps this, and there `complete` always fails. This
   * holds because verify's writes are one step here; a `save()` that failed
   * after the first write would leave a record in `verified`.
   */
  ghost predicate NoneVerified(txs: map<TxId, Transaction>) {
    forall k :: k in txs ==> txs[k].status != Verified
  }

  /** Rewriting a record with a status other than `verified` keeps `NoneVerified`. */
  lemma NoneVerifiedUpdate(txs: map<TxId, Transaction>, id: TxId, t: Transaction)
    requires t.status != Verified
    ensures NoneVerified(txs) ==> NoneVerified(txs[id := t])
  {
  }

  /** The two outcomes `verify` accepts. */
  predicate IsOutcome(verificationStatus: string): (r: bool)
    ensures r <==> verificationStatus == StatusName(Verified) || verificationStatus == StatusName(Rejected)
  {
    verificationStatus == "verified" || verificationStatus == "rejected"
  }

  /** Rewriting a record that has not settled keeps every settled record. */
  lemma KeepsSettledUpdate(txs: map<TxId, Transaction>, id: TxId, t: Transaction)
    requires id in txs ==> txs[id].status !in {Completed, Rejected}
    ensures KeepsSettled(txs, txs[id := t])
  {
  }

  /** A stored transaction with its id. */
  datatype Stored = Stored(id: TxId, record: Transaction)

  class Store {
    var txs: map<TxId, Transaction>
    var donations: map<DonationId, Donation>
    /** The id the next submitted transaction gets. */
    var nextId: TxId
    /** Each campaign's amount before any transaction was credited to it. */
    ghost var opening: map<DonationId, int>

    ghost predicate Valid()
      reads this
    {
      && (forall k :: k in txs ==> k < nextId)
      && opening.Keys == donations.Keys
      && (forall k :: k in txs ==> txs[k].donation in donations)
      && Balanced(txs, donations, opening, nextId)
    }

    /** An empty database. */
    constructor ()
      ensures Valid()
      ensures txs == map[] && donations == map[] && nextId == 0
      ensures NoneVerified(txs)
    {
      txs, donations, nextId := map[], map[], 0;
      opening := map[];
    }

    /**
     * An existing database: any records, in any status (a record may rest in
     * `verified`), as long as every transaction names an existing campaign.
     * Each campaign's opening amount is what its current amount does not
     * owe to completed transactions.
     */
    constructor Load(txs0: map<TxId, Transaction>, donations0: map<DonationId, Donation>, next0: TxId)
      requires forall k :: k in txs0 ==> k < next0
      requires forall k :: k in txs0 ==> txs0[k].donation in donations0
      ensures Valid()
      ensures txs == txs0 && donations == donations0 && nextId == next0
      ensures forall d :: d in donations0 ==> opening[d] == donations0[d].currentAmount - CompletedSum(txs0, d, next0)
    {
      txs, donations, nextId := txs0, donations0, next0;
      opening := map d | d in donations0 :: donations0[d].currentAmount - CompletedSum(txs0, d, next0);
    }

    /**
     * `Donation.create(draft)` under a fresh id: a validation failure or a
     * duplicate id goes through the error handler (400); otherwise the new
     * campaign starts its ledger at its stored `currentAmount`.
     */
    method AddDonation(id: DonationId, draft: DonationDraft, now: Time) returns (r: Result<Donation, ErrorResponse>)
      requires Valid()
      modifies this
      ensures Valid()
      ensures txs == old(txs) && nextId == old(nextId)
      ensures DonationSchema.Create(draft, now).Err? ==>
        r == Err(ErrorHandler(ValidationError(DonationSchema.Create(draft, now).error)))
      ensures DonationSchema.Create(draft, now).Ok? && id in old(donations) ==>
        r == Err(Fail(400, "Duplicate field value entered"))
      ensures r.Ok? <==> id !in old(donations) && DonationSchema.Create(draft, now).Ok?
      ensures r.Ok? ==>
        && r.value == DonationSchema.Create(draft, now).value
        && donations == old(donations)[id := r.value] && opening == old(opening)[id := r.value.currentAmount]
      ensures r.Err? ==> donations == old(donations) && opening == old(opening)
    {
      var created := DonationSchema.Create(draft, now);
      if created.Err? {
        return Err(ErrorHandler(ValidationError(created.error)));
      }
      if id in donations {
        return Err(ErrorHandler(JsError(Some(DuplicateKey), "MongoServerError", [], None, "E11000 duplicate key error")));
      }
      SumIgnoresOthers(txs, id, nextId);
      donations := donations[id := created.value];
      opening := opening[id := created.value.currentAmount];
      r := Ok(created.value);
    }

    /** An administrator's change of a campaign's visibility; the amount raised is untouched. */
    method SetVisibility(id: DonationId, isPublic: bool) returns (found: bool)
      requires Valid()
      modifies this
      ensures Valid()
      ensures txs == old(txs) && nextId == old(nextId) && opening == old(opening)
      ensures found <==> id in old(donations)
      ensures found ==> donations == old(donations)[id := old(donations)[id].(isPublic := isPublic)]
      ensures !found ==> donations == old(donations)
    {
      found := id in donations;
      if found {
        donations := donations[id := donations[id].(isPublic := isPublic)];
      }
    }

    /**
     * `POST /`: a signed-in caller submits a contribution to a public
     * campaign, backed by a proof file. No campaign amount changes.
     */
    method Submit(caller: User, file: Option<ProofFile>, donationId: DonationId, amount: Option<int>,
                  message: Option<string>, anonymous: Option<bool>, now: Time)
      returns (r: Result<Stored, ErrorResponse>)
      requires Valid()
      modifies this
      ensures Valid()
      ensures donations == old(donations) && opening == old(opening)
      ensures KeepsSettled(old(txs), txs)
      ensures NoneVerified(old(txs)) ==> NoneVerified(txs)
      ensures file.None? ==> r == Err(Fail(400, "Proof of transaction is required"))
      ensures file.Some? && ClassifyProof(file.value.mimetype).None? ==>
        r == Err(Fail(400, "Invalid file type for proof of transaction"))
      ensures file.Some? && ClassifyProof(file.value.mimetype).Some? && donationId !in donations ==>
        r == Err(Fail(404, "Donation not found"))
      ensures file.Some? && ClassifyProof(file.value.mimetype).Some? && donationId in donations
              && !donations[donationId].isPublic ==>
        r == Err(Fail(400, "Cannot donate to a non-public donation"))
      ensures file.Some? && ClassifyProof(file.value.mimetype).Some? && donationId in donations
              && donations[donationId].isPublic && amount.None? ==>
        r.Err? && r.error.status == 400 && r.error.message.Texts? && RequiredMessage("amount") in r.error.message.texts
      ensures r.Ok? <==>
        && file.Some? && ClassifyProof(file.value.mimetype).Some? && file.value.path != []
        && donationId in donations && donations[donationId].isPublic && amount.Some?
      ensures r.Err? ==> txs == old(txs) && nextId == old(nextId)
      ensures r.Ok? ==>
        && r.value.id == old(nextId) && nextId == old(nextId) + 1
        && txs == old(txs)[r.value.id := r.value.record]
        && r.value.record == Transaction(
             donationId, Some(caller.id), amount.value, Some(message.GetOr("")), anonymous.GetOr(false),
             None, Pending, file.value.path, ClassifyProof(file.value.mimetype).value,
             None, None, None, now)
    {
      if file.None? {
        return Err(Fail(400, "Proof of transaction is required"));
      }
      var proofType := ClassifyProof(file.value.mimetype);
      if proofType.None? {
        return Err(Fail(400, "Invalid file type for proof of transaction"));
      }
      if donationId !in donations {
        return Err(Fail(404, "Donation not found"));
      }
      if !donations[donationId].isPublic {
        return Err(Fail(400, "Cannot donate to a non-public donation"));
      }
      var draft := TransactionDraft(
        Some(donationId), Some(caller.id), amount, Some(message.GetOr("")), Some(anonymous.GetOr(false)),
        None, Some(Pending), Some(file.value.path), proofType, None, None, None, None);
      var created := TransactionSchema.Create(draft, now);
      if created.Err? {
        return Err(ErrorHandler(ValidationError(created.error)));
      }
      var id := Insert(created.value);
      r := Ok(Stored(id, created.value));
    }

    /** `Transaction.create` storing a new pending record under a fresh id. */
    method Insert(t: Transaction) returns (id: TxId)
      requires Valid()
      requires t.status == Pending && t.donation in donations
      modifies this
      ensures Valid()
      ensures donations == old(donations) && opening == old(opening)
      ensures id == old(nextId) && nextId == old(nextId) + 1 && txs == old(txs)[id := t]
      ensures KeepsSettled(old(txs), txs)
      ensures NoneVerified(old(txs)) ==> NoneVerified(txs)
    {
      InsertKeepsBalance(txs, donations, opening, nextId, t);
      id := nextId;
      txs := txs[id := t];
      nextId := nextId + 1;
    }

    /**
     * `PUT /:id/verify`: an administrator rejects a pending transaction, or
     * verifies it, which moves it on to `completed` and credits its campaign
     * with its amount.
     */
    method Verify(caller: User, id: TxId, verificationStatus: string, comment: Option<string>, now: Time)
      returns (r: Result<Transaction, ErrorResponse>)
      requires Valid()
      modifies this
      ensures Valid()
      ensures nextId == old(nextId) && opening == old(opening)
      ensures KeepsSettled(old(txs), txs)
      ensures NoneVerified(old(txs)) ==> NoneVerified(txs)
      ensures !IsAdmin(caller) ==> r == Err(Fail(403, "Not authorized as an admin"))
      ensures IsAdmin(caller) && !IsOutcome(verificationStatus) ==>
        r == Err(Fail(400, "Invalid verification status. Must be 'verified' or 'rejected'"))
      ensures IsAdmin(caller) && IsOutcome(verificationStatus) && id !in old(txs) ==>
        r == Err(Fail(404, "Transaction not found"))
      ensures IsAdmin(caller) && IsOutcome(verificationStatus) && id in old(txs)
              && old(txs)[id].status != Pending ==>
        r == Err(Fail(400, "Cannot verify a transaction that is already " + StatusName(old(txs)[id].status)))
      ensures r.Ok? <==>
        IsAdmin(caller) && IsOutcome(verificationStatus) && id in old(txs) && old(txs)[id].status == Pending
      ensures r.Err? ==> txs == old(txs) && donations == old(donations)
      ensures r.Ok? ==> txs == old(txs)[id := r.value]
      ensures r.Ok? && verificationStatus == "rejected" ==>
        r.value == Reviewed(old(txs)[id], Rejected, caller.id, now, comment)
        && donations == old(donations)
      ensures r.Ok? && verificationStatus == "verified" ==>
        r.value == Reviewed(old(txs)[id], Completed, caller.id, now, comment)
        && donations == old(donations)[r.value.donation := Credit(old(donations)[r.value.donation], r.value.amount)]
    {
      var denied := Authorize(Some(caller));
      if denied.Some? {
        return Err(denied.value);
      }
      if !IsOutcome(verificationStatus) {
        return Err(Fail(400, "Invalid verification status. Must be 'verified' or 'rejected'"));
      }
      if id !in txs {
        return Err(Fail(404, "Transaction not found"));
      }
      var t := txs[id];
      if t.status != Pending {
        return Err(Fail(400, "Cannot verify a transaction that is already " + StatusName(t.status)));
      }
      var verified := verificationStatus == "verified";
      var settled := ApplyOutcome(id, verified, caller.id, comment, now);
      r := Ok(settled);
    }

    /**
     * The successful end of `PUT /:id/verify` on a pending record: the
     * outcome is saved, and a verified record is moved on to `completed`
     * and credited to its campaign.
     */
    method ApplyOutcome(id: TxId, verified: bool, verifier: UserId, comment: Option<string>, now: Time)
      returns (t: Transaction)
      requires Valid()
      requires id in txs && txs[id].status == Pending
      modifies this
      ensures Valid()
      ensures nextId == old(nextId) && opening == old(opening)
      ensures KeepsSettled(old(txs), txs)
      ensures NoneVerified(old(txs)) ==> NoneVerified(txs)
      ensures txs == old(txs)[id := t]
      ensures !verified ==>
        t == Reviewed(old(txs)[id], Rejected, verifier, now, comment) && donations == old(donations)
      ensures verified ==>
        t == Reviewed(old(txs)[id], Completed, verifier, now, comment)
        && donations == old(donations)[t.donation := Credit(old(donations)[t.donation], t.amount)]
    {
      ghost var before := txs;
      // findByIdAndUpdate: the outcome and the verification fields
      var updated := Reviewed(txs[id], if verified then Verified else Rejected, verifier, now, comment);
      Review(id, updated);
      if verified {
        // then the status is saved as completed and the campaign is credited
        t := updated.(status := Completed);
        SettleAndCredit(id, t);
        assert txs == before[id := t];
      } else {
        t := updated;
      }
      KeepsSettledUpdate(before, id, t);
      NoneVerifiedUpdate(before, id, t);
    }

    /**
     * `PUT /:id/complete`: an administrator completes a `verified`
     * transaction with an external settlement id, crediting its campaign
     * with its amount.
     */
    method Complete(caller: User, id: TxId, transactionId: Option<string>)
      returns (r: Result<Transaction, ErrorResponse>)
      requires Valid()
      modifies this
      ensures Valid()
      ensures nextId == old(nextId) && opening == old(opening)
      ensures KeepsSettled(old(txs), txs)
      ensures NoneVerified(old(txs)) ==> NoneVerified(txs)
      ensures !IsAdmin(caller) ==> r == Err(Fail(403, "Not authorized as an admin"))
      ensures IsAdmin(caller) && (transactionId.None? || transactionId.value == []) ==>
        r == Err(Fail(400, "Transaction ID is required"))
      ensures IsAdmin(caller) && transactionId.Some? && transactionId.value != [] && id !in old(txs) ==>
        r == Err(Fail(404, "Transaction not found"))
      ensures IsAdmin(caller) && transactionId.Some? && transactionId.value != [] && id in old(txs)
              && old(txs)[id].status != Verified ==>
        r == Err(Fail(400, "Only verified transactions can be completed"))
      ensures r.Ok? <==>
        IsAdmin(caller) && transactionId.Some? && transactionId.value != [] && id in old(txs)
        && old(txs)[id].status == Verified
      ensures r.Err? ==> txs == old(txs) && donations == old(donations)
      ensures r.Ok? ==>
        && r.value == old(txs)[id].(status := Completed, transactionId := transactionId)
        && txs == old(txs)[id := r.value]
        && donations == old(donations)[r.value.donation := Credit(old(donations)[r.value.donation], r.value.amount)]
    {
      var denied := Authorize(Some(caller));
      if denied.Some? {
        return Err(denied.value);
      }
      if transactionId.None? || transactionId.value == [] {
        return Err(Fail(400, "Transaction ID is required"));
      }
      if id !in txs {
        return Err(Fail(404, "Transaction not found"));
      }
      var t := txs[id];
      if t.status != Verified {
        return Err(Fail(400, "Only verified transactions can be completed"));
      }
      KeepsSettledUpdate(txs, id, t);
      var completed := t.(status := Completed, transactionId := transactionId);
      NoneVerifiedUpdate(txs, id, completed);
      SettleAndCredit(id, completed);
      r := Ok(completed);
    }

    /**
     * `findByIdAndUpdate` of a pending record with its verification outcome;
     * no campaign amount changes.
     */
    method Review(id: TxId, t: Transaction)
      requires Valid()
      requires id in txs && txs[id].status == Pending && t.status != Completed
      requires t.donation == txs[id].donation && t.amount == txs[id].amount
      modifies this
      ensures Valid()
      ensures nextId == old(nextId) && opening == old(opening) && donations == old(donations)
      ensures txs == old(txs)[id := t]
    {
      UncreditedKeepsBalance(txs, donations, opening, nextId, id, t);
      txs := txs[id := t];
    }

    /**
     * The credit step both transitions share: the record is stored as
     * `completed` and its campaign's `currentAmount` is incremented by its
     * amount (`$inc`). Called only for a record not yet completed.
     */
    method SettleAndCredit(id: TxId, t: Transaction)
      requires Valid()
      requires id in txs && txs[id].status != Completed && t.status == Completed
      requires t.donation == txs[id].donation && t.amount == txs[id].amount
      modifies this
      ensures Valid()
      ensures nextId == old(nextId) && opening == old(opening)
      ensures txs == old(txs)[id := t]
      ensures donations == old(donations)[t.donation := Credit(old(donations)[t.donation], t.amount)]
    {
      CreditKeepsBalance(txs, donations, opening, nextId, id, t);
      txs := txs[id := t];
      donations := donations[t.donation := Credit(donations[t.donation], t.amount)];
    }

    /** `GET /pending` (administrators): the pending transactions. */
    method ListPending(caller: User) returns (r: Result<seq<TxId>, ErrorResponse>)
      requires Valid()
      ensures !IsAdmin(caller) ==> r == Err(Fail(403, "Not authorized as an admin"))
      ensures IsAdmin(caller) ==> r.Ok? && forall k :: k in r.value <==> k in txs && txs[k].status == Pending
      ensures IsAdmin(caller) ==> r == Ok(Find(txs, ByStatus(Pending), nextId))
    {
      var denied := Authorize(Some(caller));
      if denied.Some? {
        return Err(denied.value);
      }
      r := Ok(Find(txs, ByStatus(Pending), nextId));
    }

    /** `GET /` (administrators): every transaction. */
    method ListAll(caller: User) returns (r: Result<seq<TxId>, ErrorResponse>)
      requires Valid()
      ensures !IsAdmin(caller) ==> r == Err(Fail(403, "Not authorized as an admin"))
      ensures IsAdmin(caller) ==> r.Ok? && forall k :: k in r.value <==> k in txs
      ensures IsAdmin(caller) ==> r == Ok(Find(txs, All, nextId))
    {
      var denied := Authorize(Some(caller));
      if denied.Some? {
        return Err(denied.value);
      }
      r := Ok(Find(txs, All, nextId));
    }

    /** `GET /my`: the caller's own transactions; any signed-in user may ask. */
    method ListMine(caller: User) returns (ids: seq<TxId>)
      requires Valid()
      ensures forall k :: k in ids <==> k in txs && txs[k].donor == Some(caller.id)
      ensures ids == Find(txs, ByDonor(caller.id), nextId)
    {
      ids := Find(txs, ByDonor(caller.id), nextId);
    }

    /** `GET /donation/:donationId` (administrators): one campaign's transactions. */
    method ListForDonation(caller: User, donationId: DonationId) returns (r: Result<seq<TxId>, ErrorResponse>)
      requires Valid()
      ensures !IsAdmin(caller) ==> r == Err(Fail(403, "Not authorized as an admin"))
      ensures IsAdmin(caller) ==> r.Ok? && forall k :: k in r.value <==> k in txs && txs[k].donation == donationId
      ensures IsAdmin(caller) ==> r == Ok(Find(txs, ByDonation(donationId), nextId))
    {
      var denied := Authorize(Some(caller));
      if denied.Some? {
        return Err(denied.value);
      }
      r := Ok(Find(txs, ByDonation(donationId), nextId));
    }

    /** `GET /:id`: one record, for an administrator or its donor. */
    method Get(caller: User, id: TxId) returns (r: Result<Transaction, ErrorResponse>)
      ensures id !in txs ==> r == Err(Fail(404, "Transaction not found"))
      ensures r.Ok? <==> id in txs && (IsAdmin(caller) || txs[id].donor == Some(caller.id))
      ensures id in txs && r.Err? ==> Some(r.error) == ViewDenial(caller, txs[id])
      ensures r.Ok? ==> r.value == txs[id]
    {
      if id !in txs {
        return Err(Fail(404, "Transaction not found"));
      }
      var denied := ViewDenial(caller, txs[id]);
      if denied.Some? {
        return Err(denied.value);
      }
      r := Ok(txs[id]);
    }

    /** `GET /:id/download-proof`: the headers for streaming the stored proof file. */
    method DownloadProof(caller: User, id: TxId) returns (r: Result<Download, ErrorResponse>)
      ensures id !in txs ==> r == Err(Fail(404, "Transaction not found"))
      ensures r.Ok? <==> id in txs && (IsAdmin(caller) || txs[id].donor.None? || txs[id].donor == Some(caller.id))
      ensures id in txs && r.Err? ==> Some(r.error) == DownloadDenial(caller, txs[id])
      ensures r.Ok? ==>
        var path := txs[id].proofOfTransaction;
        && r.value.path == path
        && r.value.contentType == ContentType(ProofTypeName(txs[id].proofType), path)
        && r.value.disposition == "attachment; filename=\"" + FileName(path) + "\""
    {
      if id !in txs {
        return Err(Fail(404, "Transaction not found"));
      }
      var t := txs[id];
      var denied := DownloadDenial(caller, t);
      if denied.Some? {
        return Err(denied.value);
      }
      var path := t.proofOfTransaction;
      r := Ok(Download(ContentType(ProofTypeName(t.proofType), path), "attachment; filename=\"" + FileName(path) + "\"", path));
    }
  }
}
