# Donation transactions: lifecycle and campaign ledger

A Dafny model of the backend of a donation platform. Administrators run
fundraising campaigns ("donations", each with a `currentAmount` raised so far
and an `isPublic` flag). Donors submit "transactions": a claimed contribution
to a campaign, backed by an uploaded proof file. An administrator then verifies
or rejects each pending transaction. Verifying moves it to `completed` and
credits its amount to the campaign. A second endpoint completes a transaction
that rests in `verified` with an external settlement id, and also credits the
campaign.

The model covers these parts of the backend:

- the transaction routes (`backend/routes/transactions.js`): submit, verify,
  complete, the four listings, single-record reads and proof downloads;
- the two Mongoose schemas, with their defaults and `required` checks;
- the `protect` and `authorize` middleware;
- the Express error handler.

The two collections live in a `Store` class as maps. The class methods update
them in place, as the routes update the database. `Store.Valid()` is the
ledger invariant, and every method keeps it:

- every campaign's `currentAmount` equals its opening amount plus the sum of
  the amounts of its `completed` transactions;
- the opening amount is the campaign's amount when it was added, or, for a
  loaded database, whatever its amount does not owe to completed transactions.

So a transaction is credited exactly when it moves into `completed`, and at
most once. Both credit sites pair the `$inc` with that move. Their status
guards (`pending` for verify, `verified` for complete) refuse every record that
has already moved on.

Modules, one per source file plus shared pieces:

- `ErrorMiddleware` (error.dfy): `backend/middleware/error.js`.
- `AuthMiddleware` (auth.dfy): `backend/middleware/auth.js`. Token
  verification (`jwt.verify`) and the user lookup (`User.findById`) are
  passed in as a function and a map.
- `TransactionSchema` and `DonationSchema`: `backend/models/Transaction.js`
  and `backend/models/Donation.js`, with `Create` modelling what Mongoose does
  on `create` for these schemas.
- `Ledger` (ledger.dfy): the reference total of completed amounts per
  campaign.
- `TransactionRoutes` (transactions.dfy): `backend/routes/transactions.js`.
- `Strings`: the JavaScript string built-ins the code relies on (`includes`,
  `split`, `pop`, `endsWith`, `startsWith`, `trim`).
- `Ids`, `Mongoose`, `Wrappers`: shared types and messages.
- `Scenarios`: client code that runs request sequences against the contracts
  alone. It covers a credited verification, a refused private campaign, a
  rejected transaction that never counts, and a completion that cannot repeat.

Some behaviour of the code is worth stating outright, because the model follows it:

- amounts are never checked to be positive, so they are unbounded integers;
- there is no separate "credited" flag; the status alone guards the credit;
- there is no locking, so the model is sequential;
- both credit paths exist: verify credits at once, and complete credits a
  record that rests in `verified`;
- listings come back in storage order, with no explicit sort.

Failures are `Err(ErrorResponse(status, false, message))`. `Ok` stands for the
route's success body (`201` for submit, `200` elsewhere).

## Model

| member | source | states |
|---|---|---|
| `TransactionRoutes.ClassifyProof` | backend/routes/transactions.js:29-41 | The proof kind is `pdf` iff the media type contains "pdf". It is `image` iff it contains "image" but not "pdf". It is `doc` iff it contains "word" but neither of the others. Anything else is refused. |
| `TransactionRoutes.IsOutcome` | backend/routes/transactions.js:89-95 | The accepted verification outcomes are exactly the schema status names `verified` and `rejected`. |
| `TransactionRoutes.Store.Submit` | backend/routes/transactions.js:17-75 | These fail and change nothing: no file gives 400; an unclassifiable file gives 400; an unknown campaign gives 404; a private campaign gives 400; a missing amount gives a 400 validation error. Otherwise exactly one record is added under a fresh id. It is `pending`, with the caller as donor, message defaulted to "" and `anonymous` to false. No campaign changes. The ledger invariant holds, and no settled record is touched. |
| `TransactionRoutes.Store.Verify` | backend/routes/transactions.js:85-154 | Non-admin: 403. A bad outcome: 400. A missing record: 404. A record that is not pending: 400, with its current status named in the message. Every failure changes nothing. Success happens exactly when the caller is an admin, the outcome is valid and the record is pending. Rejecting records the verifier, date and comment (defaulted to "") and leaves all campaigns alone. Verifying does the same but ends in `completed`, and credits exactly the referenced campaign with exactly the amount. Nothing else changes. |
| `TransactionRoutes.Store.Complete` | backend/routes/transactions.js:159-212 | Non-admin: 403. A missing or empty settlement id: 400. A missing record: 404. A record that is not `verified`: 400. None of these changes anything. Otherwise the record becomes `completed` with the settlement id stored, and its campaign is credited once with its amount. The ledger invariant holds. |
| `TransactionRoutes.Store.ApplyOutcome` | backend/routes/transactions.js:114-140 | The successful end of verify on a pending record. Rejecting stores the reviewed record and leaves every campaign alone. Verifying stores it as `completed` and credits exactly its campaign with exactly its amount. Only that record changes, and the ledger invariant holds. |
| `TransactionRoutes.Store.Insert` | backend/routes/transactions.js:60-70 | A new pending record is stored under the next fresh id. No other record and no campaign changes, and the ledger invariant holds. |
| `TransactionRoutes.Store.Review` | backend/routes/transactions.js:115-127 | The `findByIdAndUpdate` of a pending record with its outcome. Only that record changes, and no campaign amount moves. |
| `TransactionRoutes.Store.SettleAndCredit` | backend/routes/transactions.js:133-140 | The shared credit step. The record is stored as `completed`, and its campaign's `currentAmount` rises by its amount. The ledger invariant is kept. |
| `TransactionRoutes.Store.constructor` | backend/routes/transactions.js:133-140 | The model's starting state is an empty database. It satisfies the ledger invariant that the credit sites maintain, and no record rests in `verified`. |
| `TransactionRoutes.Store.Load` | backend/models/Transaction.js:27-31 | Any snapshot, in any status (including `verified`), whose transactions all name existing campaigns, satisfies the invariant. Each opening amount is the part of the current amount that completed transactions do not explain. |
| `TransactionRoutes.Store.AddDonation` | backend/models/Donation.js:3-54 | A campaign is created through the schema. A validation failure goes through the error handler as a 400 listing the failed paths. A duplicate id gives the duplicate-key 400. Otherwise the campaign is stored with its opening amount. |
| `TransactionRoutes.Store.SetVisibility` | backend/models/Donation.js:30-33 | Changing `isPublic` finds the campaign or reports it missing. It changes no amount and no transaction. |
| `TransactionRoutes.Store.ListPending` | backend/routes/transactions.js:217-231 | Admins only (403 otherwise). The result is `Find` of the matching filter: exactly the ids of the records with status `pending`, each once, in storage (id) order, so `count` is the number of matches. |
| `TransactionRoutes.Store.ListAll` | backend/routes/transactions.js:236-251 | Admins only (403 otherwise). The result is `Find` of the matching filter: exactly the ids of the stored records, each once, in storage (id) order, so `count` is the number of matches. |
| `TransactionRoutes.Store.ListMine` | backend/routes/transactions.js:255-269 | The result is `Find` of the donor filter: exactly the records whose donor is the caller, each once, in storage (id) order. |
| `TransactionRoutes.Store.ListForDonation` | backend/routes/transactions.js:274-293 | Admins only (403 otherwise). The result is `Find` of the matching filter: exactly the ids of the records of the named campaign, each once, in storage (id) order, so `count` is the number of matches. |
| `TransactionRoutes.Store.Get` | backend/routes/transactions.js:376-407 | A missing record gives 404. Otherwise the record is returned iff the caller is an admin or its donor. A refusal is exactly the access check's answer: 403 "Not authorized to access this transaction", or the handler's 500 for a donor-less record. |
| `TransactionRoutes.Store.DownloadProof` | backend/routes/transactions.js:295-371 | A missing record gives 404. The download is refused only to a non-admin when the record has a donor other than the caller, and the refusal is 403 "Not authorized to access this transaction". The headers carry the content type of the stored proof type and the file name taken from the stored path. |
| `TransactionRoutes.Find` | backend/routes/transactions.js:257-259 | `Transaction.find(filter)`: an id is listed iff it is stored and its record matches the filter. Ids come in increasing (creation) order. |
| `TransactionRoutes.ViewDenial` | backend/routes/transactions.js:390-398 | A read is allowed iff the caller is an admin or the record's donor. A non-admin reading a donor-less record hits the null dereference and gets the handler's 500. |
| `TransactionRoutes.DownloadDenial` | backend/routes/transactions.js:310-319 | A download is allowed iff the caller is an admin, the record has no donor, or the record's donor is the caller. Otherwise it gives 403. |
| `TransactionRoutes.DownloadAtLeastAsOpenAsView` | backend/routes/transactions.js:310-319 | Anyone who may read a record may download its proof. The two checks differ exactly on donor-less records seen by non-admins. |
| `TransactionRoutes.ContentType` | backend/routes/transactions.js:325-347 | pdf gives application/pdf and doc gives application/msword. An image gives image/jpeg iff the path ends in .jpg or .jpeg, image/png iff .png, image/gif iff .gif, and application/octet-stream otherwise. Any other proof type gives application/octet-stream. |
| `TransactionRoutes.ExtensionsExclusive` | backend/routes/transactions.js:335-343 | No path ends in two of the image extensions, so the order of the extension tests does not matter. |
| `TransactionRoutes.StoredProofContentType` | backend/routes/transactions.js:326-347 | For the three stored proof types, the default branch is never taken. Only an image with an unknown extension is sent as octet-stream. |
| `TransactionRoutes.FileName` | backend/routes/transactions.js:350 | The file name contains no "/" and is a suffix of the stored path. It is preceded by "/" unless it is the whole path. |
| `TransactionRoutes.FileNameAfterLastSlash` | backend/routes/transactions.js:350 | Without a "/" the name is the whole path. Otherwise it is shorter than the path and is everything after the last "/". |
| `TransactionRoutes.Credit` | backend/routes/transactions.js:138-140 | `$inc` raises `currentAmount` by exactly the amount and changes no other field. |
| `TransactionRoutes.CreditKeepsBalance` | backend/routes/transactions.js:133-140 | Moving a record into `completed` while crediting its campaign with its amount keeps every campaign balanced. |
| `TransactionRoutes.UncreditedKeepsBalance` | backend/routes/transactions.js:114-127 | A status change that neither enters nor leaves `completed` keeps every campaign balanced without any credit. |
| `TransactionRoutes.InsertKeepsBalance` | backend/routes/transactions.js:60-70 | Adding a non-completed record under a fresh id keeps every campaign balanced. |
| `TransactionRoutes.KeepsSettledUpdate` | backend/routes/transactions.js:106-112 | Rewriting a record that is neither completed nor rejected leaves every settled record as it was. |
| `TransactionRoutes.NoneVerifiedUpdate` | backend/routes/transactions.js:133-135 | Writing a status other than `verified` keeps the store free of records resting in `verified`. |
| `Ledger.SumUpdate` | backend/routes/transactions.js:201-203 | Storing a record under one id changes a campaign's completed total by exactly the change in that record's contribution. |
| `Ledger.SumIgnoresOthers` | backend/models/Donation.js:17-20 | A campaign that no completed record names has a completed total of zero. So a newly added campaign starts balanced at its stored amount. |
| `TransactionSchema.MissingPaths` | backend/models/Transaction.js:4-40 | The `required` checks fail exactly when one of these is absent: donation, amount, a non-empty proof path, or proof type. Each absent one is named. |
| `TransactionSchema.Create` | backend/models/Transaction.js:3-55 | Creation fails exactly when a required path is missing, with the failure messages. Otherwise status defaults to `pending`, `anonymous` to false and `createdAt` to now. Optional paths (donor, message, settlement id, verifier, date, comment) stay absent unless given. |
| `TransactionSchema.ReloadPreserves` | backend/models/Transaction.js:3-55 | Writing a stored record out and creating it again gives back exactly the same record: status, amount, proof, verification fields. |
| `TransactionSchema.EmptyProofRejected` | backend/models/Transaction.js:32-35 | A record with an empty proof path fails the `required` check on that path alone. |
| `DonationSchema.MissingPaths` | backend/models/Donation.js:4-45 | The `required` checks fail exactly when one of these is missing or empty: trimmed title, description, goal, or creator. |
| `DonationSchema.Create` | backend/models/Donation.js:3-54 | Creation fails exactly when a required path is missing. Otherwise the title is stored trimmed, `currentAmount` defaults to 0, `isPublic` to false, `caseStudy` to null, and the dates to now. |
| `DonationSchema.NewCampaignDefaults` | backend/models/Donation.js:17-33 | A campaign created from its required fields alone starts at 0 raised. It is private, so it takes no submissions, and it has no case study. |
| `DonationSchema.BlankTitleRejected` | backend/models/Donation.js:4-8 | A title made only of whitespace trims to empty and fails `required`. |
| `AuthMiddleware.Protect` | backend/middleware/auth.js:5-58 | If the header starts with "Bearer", the token comes from the header and the cookie is ignored, even when the header has no second word. Otherwise the token comes from the cookie. Success returns an active stored user; every failure is 401. |
| `AuthMiddleware.BearerToken` | backend/middleware/auth.js:14 | `split(" ")[1]` exists iff the header contains a space. |
| `AuthMiddleware.BearerTokenIsSecondWord` | backend/middleware/auth.js:14 | The token is the text after the first space, up to the next space or the end. |
| `AuthMiddleware.Authenticate` | backend/middleware/auth.js:20-57 | The request passes iff the token is present and non-empty, verifies to a known user, and that user is active. A missing token, a failed verification, an unknown user or an inactive user each give 401. |
| `AuthMiddleware.Authorize` | backend/middleware/auth.js:61-70 | The request passes iff a user is present with role "admin". Otherwise it gets 403 "Not authorized as an admin". |
| `ErrorMiddleware.ErrorHandler` | backend/middleware/error.js:1-27 | `success` is always false. Code 11000 gives 400 "Duplicate field value entered", checked before the name. A ValidationError gives 400 with its entries' messages in order. Any other error keeps its own set, non-zero status code, or gets 500 when it has none. It keeps its non-empty message, or gets "Server Error". |
| `ErrorMiddleware.ErrorHandlerStatus` | backend/middleware/error.js:6-26 | A 400 comes exactly from a duplicate key, a validation error, or an error whose own status code is 400. |
| `ErrorMiddleware.SubMessages` | backend/middleware/error.js:15 | The `.map` keeps one message per entry, in order. |
| `ErrorMiddleware.StatusOr500` | backend/middleware/error.js:23 | `err.statusCode \|\| 500`: a set, non-zero status code is returned as it is. A missing or zero code gives 500. |
| `ErrorMiddleware.MessageOrDefault` | backend/middleware/error.js:24 | `err.message \|\| "Server Error"` is never empty: it is the error's message, or "Server Error" when that is empty. |
| `ErrorMiddleware.ValidationError` | backend/middleware/error.js:14-20 | The Mongoose validation error built from failed-path messages carries exactly those messages. |
| `Strings.Contains` | backend/routes/transactions.js:30-34 | `includes` is true iff the text occurs at some position. |
| `Strings.StartsWith` | backend/middleware/auth.js:11 | `startsWith(p)` holds iff `p` is no longer than the string and agrees with it character by character from the front. |
| `Strings.EndsWith` | backend/routes/transactions.js:335-339 | `endsWith(p)` holds iff `p` is no longer than the string and agrees with it character by character at the back. |
| `Strings.Split` | backend/middleware/auth.js:14 | `split` on one character always gives at least one piece; an empty string gives one empty piece. |
| `Strings.LastPiece` | backend/routes/transactions.js:350 | `.pop()` of a split never holds the separator and is no longer than the string. |
| `Strings.IsSpace` | backend/models/Donation.js:7 | The whitespace `trim` removes includes space, tab, newline and carriage return. It never includes a visible ASCII character. |
| `Strings.TrimStart` | backend/models/Donation.js:7 | The leading-whitespace cut keeps a suffix of the string that does not start with whitespace. Everything it removes is whitespace. |
| `Strings.TrimEnd` | backend/models/Donation.js:7 | The trailing-whitespace cut keeps a prefix of the string that does not end with whitespace. Everything it removes is whitespace. |
| `Strings.Trim` | backend/models/Donation.js:7 | `trim` never lengthens the string, and its result neither starts nor ends with whitespace. |
| `Strings.JoinSplit` | backend/middleware/auth.js:14 | `split` on one character loses nothing: joining the pieces with the separator gives back the original string. |
| `Strings.SplitPiecesFree` | backend/middleware/auth.js:14 | No piece of a split holds the separator. |
| `Strings.LastPieceIsPop` | backend/routes/transactions.js:350 | The text after the last separator is exactly the last element of `split(sep)`, which `.pop()` returns. |
| `Strings.LastPieceIsSuffix` | backend/routes/transactions.js:350 | The text after the last separator is a suffix of the string. It is preceded by the separator unless it is the whole string. |
| `Strings.TrimIsSlice` | backend/models/Donation.js:4-8 | `trim` removes only whitespace, and only from the two ends. The result is the slice of the input between a whitespace prefix and a whitespace suffix. |
| `Strings.TrimIsIdempotent` | backend/models/Donation.js:4-8 | The result of `trim` neither starts nor ends with whitespace, so trimming it again changes nothing. |
| `Scenarios.RejectCreditsNothing` | backend/routes/transactions.js:114-127 | Rejecting a pending transaction settles it as `rejected` and leaves every campaign amount as it was. |
| `Scenarios.VerifyAgainRefused` | backend/routes/transactions.js:106-112 | Verifying a completed or rejected transaction again is refused and credits nothing. |
| `Scenarios.CompleteAgainRefused` | backend/routes/transactions.js:179-185 | Completing a transaction that is not `verified` is refused and credits nothing. |
| `Scenarios.PdfUpload` | backend/routes/transactions.js:30-31 | An `application/pdf` upload is classified as a PDF proof. |

## Left out

- File handling is not modelled: the upload middleware (multer), `path.resolve`, and streaming the proof with `fs.createReadStream`/`pipe` and its error handler. The stored path string stands for the file. A file uploaded with a refused submission stays on disk.
- Mongoose internals are not modelled: `populate`, query plumbing, `runValidators`, and type casting (a non-numeric amount or a malformed id would raise a CastError). Enum validation is not modelled either, because every caller writes one of the enum values.
- `jwt.verify`, `User.findById` and password hashing are foreign calls. They appear as a function from token to user id and a map of users.
- `TransactionRoutes.Store.SettleAndCredit`: the status write(s) and the campaign credit are one step here, and that step never fails partway. In the code they are separate awaited database writes. In verify, these are `findByIdAndUpdate`, then `save()`, then `$inc`. In complete, they are `findByIdAndUpdate`, then `$inc`. A database error between them goes to the error handler as a 500 and leaves the store changed. If the `save()` fails, a record rests in `verified` (so `NoneVerified` no longer holds). If the `$inc` fails, a record is `completed` but was never credited; neither status guard lets it be credited later, and the campaign's `currentAmount` no longer matches the ledger invariant in `Store.Valid()`. The model promises the invariant only for writes that all succeed.
- Concurrency is not modelled. Two racing verify or complete requests could both pass the status check and both credit the campaign, and nothing in the code prevents it. The model is sequential.
- Amounts are JavaScript Numbers (floating point); the model uses unbounded integers.
- `Date.now()` is a parameter, and `console.log` output is not modelled.
- Transaction ids are handed out by a counter in creation order instead of MongoDB ObjectIds.
- `server.js`, `routes/auth.js`, and the CRUD routes for users, case studies and messages are not part of this model, nor is `models/CaseStudy.js`. Of `routes/donations.js`, only creation (`AddDonation`) and the visibility flag (`SetVisibility`) are modelled. Admin edits of `currentAmount` and campaign deletion are not modelled: either would break the ledger balance outside the transaction endpoints.
- After crediting, the verify route looks the campaign up again for a log line, and would throw if the campaign were gone. Campaigns are never deleted in this model, so that path cannot occur.
- `TransactionRoutes.ViewDenial`: the 500 for a donor-less record uses Node's null-dereference message. A record whose donor path is undefined rather than null would give a message saying "undefined".
- `ErrorMiddleware.ErrorHandler`: a ValidationError without an `errors` object would make the handler itself throw; this is not modelled.
- The success body (`{ success: true, count, data }`) and the 200/201 status codes are represented by `Ok`.
