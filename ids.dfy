/** Identifiers and time stamps shared by the schemas, the middleware and the routes. */
module Ids {
  /** A user's id, compared as its string form (`donor.id.toString() !== req.user.id`). */
  type UserId = string
  /** A donation (campaign) id. */
  type DonationId = string
  /** A transaction id: handed out by the store in creation order. */
  type TxId = nat
  /** A `Date.now()` reading, in milliseconds. */
  type Time = int
}
