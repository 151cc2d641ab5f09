/** What the two schemas share from Mongoose's validation: the message of a failed `required` check. */
module Mongoose {
  /** Mongoose's default message for a failed `required` check on `path`. */
  function RequiredMessage(path: string): string {
    "Path `" + path + "` is required."
  }
}
