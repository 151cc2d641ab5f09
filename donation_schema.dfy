/**
 * The Donation (campaign) schema of backend/models/Donation.js: the record
 * shape, the defaults Mongoose fills in (`currentAmount` 0, `isPublic` false,
 * `caseStudy` null, the dates now), the trimming of `title` and the
 * `required` checks it runs when a record is created.
 */
module DonationSchema {
  import opened Wrappers
  import opened Strings
  import opened Ids
  import opened Mongoose

  /** A stored donation campaign. */
  datatype Donation = Donation(
    title: string,
    description: string,
    goal: int,
    currentAmount: int,
    caseStudy: Option<string>,
    image: Option<string>,
    isPublic: bool,
    startDate: Time,
    endDate: Option<Time>,
    createdBy: UserId,
    createdAt: Time,
    updatedAt: Time)

  /** The fields handed to `Donation.create`; any of them may be missing. */
  datatype DonationDraft = DonationDraft(
    title: Option<string>,
    description: Option<string>,
    goal: Option<int>,
    currentAmount: Option<int>,
    caseStudy: Option<string>,
    image: Option<string>,
    isPublic: Option<bool>,
    startDate: Option<Time>,
    endDate: Option<Time>,
    createdBy: Option<UserId>,
    createdAt: Option<Time>,
    updatedAt: Option<Time>)

  /** A required String path fails when it is missing or empty (after any trimming). */
  predicate Blank(s: Option<string>) {
    s.None? || s.value == []
  }

  /** The title as stored: trimmed when present. */
  function StoredTitle(d: DonationDraft): Option<string> {
    if d.title.Some? then Some(Trim(d.title.value)) else None
  }

  /** The `required` checks, in schema order: title, description, goal, createdBy. */
  function MissingPaths(d: DonationDraft): (ms: seq<string>)
    ensures ms == [] <==> !Blank(StoredTitle(d)) && !Blank(d.description) && d.goal.Some? && d.createdBy.Some?
    ensures Blank(StoredTitle(d)) ==> RequiredMessage("title") in ms
    ensures d.goal.None? ==> RequiredMessage("goal") in ms
  {
    (if Blank(StoredTitle(d)) then [RequiredMessage("title")] else [])
    + (if Blank(d.description) then [RequiredMessage("description")] else [])
    + (if d.goal.None? then [RequiredMessage("goal")] else [])
    + (if d.createdBy.None? then [RequiredMessage("createdBy")] else [])
  }

  /**
   * `Donation.create(draft)`: fails with the messages of every failed
   * `required` check, or stores the draft with the title trimmed and the
   * schema defaults filled in.
   */
  function Create(d: DonationDraft, now: Time): (r: Result<Donation, seq<string>>)
    ensures r.Err? <==> MissingPaths(d) != []
    ensures r.Err? ==> r.error == MissingPaths(d)
    ensures r.Ok? ==>
      && Some(r.value.title) == StoredTitle(d) && r.value.title != []
      && Some(r.value.description) == d.description && Some(r.value.goal) == d.goal
      && Some(r.value.createdBy) == d.createdBy
      && r.value.currentAmount == d.currentAmount.GetOr(0)
      && r.value.isPublic == d.isPublic.GetOr(false)
      && r.value.caseStudy == d.caseStudy
      && r.value.image == d.image && r.value.endDate == d.endDate
      && r.value.startDate == d.startDate.GetOr(now)
      && r.value.createdAt == d.createdAt.GetOr(now) && r.value.updatedAt == d.updatedAt.GetOr(now)
  {
    var missing := MissingPaths(d);
    if missing != [] then Err(missing)
    else Ok(Donation(
      StoredTitle(d).value, d.description.value, d.goal.value, d.currentAmount.GetOr(0),
      d.caseStudy, d.image, d.isPublic.GetOr(false), d.startDate.GetOr(now), d.endDate,
      d.createdBy.value, d.createdAt.GetOr(now), d.updatedAt.GetOr(now)))
  }

  /** A draft naming only the required paths. */
  function MinimalDraft(title: string, description: string, goal: int, createdBy: UserId): DonationDraft {
    DonationDraft(Some(title), Some(description), Some(goal), None, None, None, None, None, None, Some(createdBy), None, None)
  }

  /**
   * A campaign created from the required paths alone starts with nothing
   * raised, is private (so it takes no submissions until made public) and is
   * linked to no case study.
   */
  lemma NewCampaignDefaults(title: string, description: string, goal: int, createdBy: UserId, now: Time)
    requires Trim(title) != [] && description != []
    ensures var r := Create(MinimalDraft(title, description, goal, createdBy), now);
      && r.Ok? && r.value.currentAmount == 0 && !r.value.isPublic && r.value.caseStudy.None?
      && r.value.title == Trim(title) && r.value.startDate == now
  {
  }

  /** A title made only of whitespace is missing as far as `required` is concerned. */
  lemma BlankTitleRejected(d: DonationDraft, now: Time)
    requires d.title.Some? && forall k :: 0 <= k < |d.title.value| ==> IsSpace(d.title.value[k])
    ensures Create(d, now).Err? && RequiredMessage("title") in Create(d, now).error
  {
    TrimIsSlice(d.title.value);
    TrimIsIdempotent(d.title.value);
  }
}
