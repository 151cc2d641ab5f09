/**
 * Client code that drives the store through whole request sequences, using
 * nothing but the operations' contracts: a verified contribution is credited
 * once, a private campaign takes no submissions, and a settled transaction
 * cannot be verified or completed again.
 */
module Scenarios {
  import opened Wrappers
  import opened Strings
  import opened Ids
  import opened ErrorMiddleware
  import opened AuthMiddleware
  import opened TransactionSchema
  import opened DonationSchema
  import opened TransactionRoutes

  const Admin := User("a1", "Admin", "admin", true)
  const Donor := User("u1", "Donor", "user", true)

  /** A campaign "G" with goal 1000, opened to the public. */
  method OpenCampaign() returns (store: Store)
    ensures store.Valid() && fresh(store)
    ensures store.txs == map[] && store.nextId == 0
    ensures "G" in store.donations && store.donations["G"].isPublic && store.donations["G"].currentAmount == 0
  {
    store := new Store();
    var draft := MinimalDraft("G", "Relief fund", 1000, Admin.id);
    assert Trim("G") == "G";
    var added := store.AddDonation("G", draft, 0);
    var found := store.SetVisibility("G", true);
  }

  /** A PDF upload is classified as a PDF proof. */
  lemma PdfUpload()
    ensures ClassifyProof("application/pdf") == Some(Pdf)
  {
    assert OccursAt("application/pdf", "pdf", 12);
  }

  /** Submit 200 with a PDF proof, then verify it: the campaign goes from 0 to 200 only at verification. */
  method ScenarioA() {
    var store := OpenCampaign();
    PdfUpload();
    var t1 := store.Submit(Donor, Some(ProofFile("application/pdf", "uploads/t1.pdf")), "G", Some(200), None, None, 1);
    assert t1.Ok? && t1.value.record.status == Pending;
    assert store.donations["G"].currentAmount == 0;
    var v := store.Verify(Admin, t1.value.id, "verified", None, 2);
    assert v.Ok? && v.value.status == Completed;
    assert store.donations["G"].currentAmount == 200;
  }

  /** A campaign that was never made public refuses a submission and nothing is stored. */
  method ScenarioB() {
    var store := new Store();
    var draft := MinimalDraft("P", "Private fund", 1000, Admin.id);
    assert Trim("P") == "P";
    var added := store.AddDonation("P", draft, 0);
    assert !store.donations["P"].isPublic;
    PdfUpload();
    var t := store.Submit(Donor, Some(ProofFile("application/pdf", "uploads/t.pdf")), "P", Some(150), None, None, 1);
    assert t == Err(Fail(400, "Cannot donate to a non-public donation"));
    assert store.txs == map[];
  }

  /** Two pending contributions to the open campaign: 100 under id 0 and 50 under id 1. */
  method TwoPending() returns (store: Store)
    ensures store.Valid() && fresh(store)
    ensures store.nextId == 2 && 0 in store.txs && 1 in store.txs
    ensures store.txs[0].status == Pending && store.txs[0].donation == "G" && store.txs[0].amount == 100
    ensures store.txs[1].status == Pending && store.txs[1].donation == "G" && store.txs[1].amount == 50
    ensures "G" in store.donations && store.donations["G"].currentAmount == 0
  {
    store := OpenCampaign();
    PdfUpload();
    var t1 := store.Submit(Donor, Some(ProofFile("application/pdf", "uploads/t1.pdf")), "G", Some(100), None, None, 1);
    var t2 := store.Submit(Donor, Some(ProofFile("application/pdf", "uploads/t2.pdf")), "G", Some(50), None, None, 2);
  }

  /** Verify one of two pending transactions and reject the other; the rejected one never counts. */
  method ScenarioC() {
    var store := TwoPending();
    var v1 := store.Verify(Admin, 0, "verified", None, 3);
    assert store.donations["G"].currentAmount == 100;
    RejectCreditsNothing(store, 1);
    assert store.donations["G"].currentAmount == 100;
    VerifyAgainRefused(store, 1);
    assert store.donations["G"].currentAmount == 100;
  }

  /** Rejecting a pending transaction settles it without moving any campaign amount. */
  method RejectCreditsNothing(store: Store, id: TxId)
    requires store.Valid() && id in store.txs && store.txs[id].status == Pending
    modifies store
    ensures store.Valid()
    ensures id in store.txs && store.txs[id].status == Rejected
    ensures store.donations == old(store.donations)
  {
    var r := store.Verify(Admin, id, "rejected", Some("no match"), 4);
    assert r.Ok?;
  }

  /** Verifying a settled transaction again is refused, names its status, and credits nothing. */
  method VerifyAgainRefused(store: Store, id: TxId)
    requires store.Valid() && id in store.txs && store.txs[id].status in {Completed, Rejected}
    modifies store
    ensures store.Valid()
    ensures store.txs == old(store.txs) && store.donations == old(store.donations)
  {
    var again := store.Verify(Admin, id, "verified", None, 0);
    assert again == Err(Fail(400, "Cannot verify a transaction that is already " + StatusName(store.txs[id].status)));
  }

  /** Completing a transaction that is not `verified` is refused and credits nothing. */
  method CompleteAgainRefused(store: Store, id: TxId)
    requires store.Valid() && id in store.txs && store.txs[id].status != Verified
    modifies store
    ensures store.Valid()
    ensures store.txs == old(store.txs) && store.donations == old(store.donations)
  {
    var again := store.Complete(Admin, id, Some("BANK-REF-1"));
    assert again == Err(Fail(400, "Only verified transactions can be completed"));
  }

  /**
   * A database holding a `verified` record: completing it credits the
   * campaign once; completing it again, or verifying it, is refused.
   */
  method ScenarioComplete(campaign: Donation, t: Transaction)
    requires t.donation == "G" && t.status == Verified
  {
    var store := new Store.Load(map[7 := t], map["G" := campaign], 8);
    var c := store.Complete(Admin, 7, Some("BANK-REF-1"));
    assert c.Ok? && c.value.status == Completed && c.value.transactionId == Some("BANK-REF-1");
    assert store.donations["G"].currentAmount == campaign.currentAmount + t.amount;
    CompleteAgainRefused(store, 7);
    VerifyAgainRefused(store, 7);
    assert store.donations["G"].currentAmount == campaign.currentAmount + t.amount;
  }

  /** Completing needs a non-empty settlement id and an administrator. */
  method ScenarioCompleteRefusals(campaign: Donation, t: Transaction)
    requires t.donation == "G" && t.status == Verified
  {
    var store := new Store.Load(map[7 := t], map["G" := campaign], 8);
    var missing := store.Complete(Admin, 7, Some(""));
    assert missing == Err(Fail(400, "Transaction ID is required"));
    var notAdmin := store.Complete(Donor, 7, Some("BANK-REF-2"));
    assert notAdmin == Err(Fail(403, "Not authorized as an admin"));
    assert store.txs[7] == t;
  }
}
