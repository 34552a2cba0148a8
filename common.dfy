/** Values shared by every part of the model: optional values, results that carry
    an error instead of throwing, the error kinds the providers raise, and bytes. */
module Common {

  datatype Option<+T> = None | Some(value: T)

  /** What a TypeScript `async` function either resolves with or rejects with. */
  datatype Result<+T> = Ok(value: T) | Err(error: Error)

  /** An upstream call that resolves with nothing useful, or rejects. */
  datatype Outcome = Pass | Fail(error: Error)

  /** The errors the core raises, one constructor per distinct throw site
      (the message text of `new Error(...)` is in the comment). */
  datatype Error =
    | NoClientFound                  // 'No client found'
    | NoProfileFound                 // 'No profile found'
    | NoPostFound                    // 'No post found'
    | NoContentUriFound              // 'No content URI found'
    | FailedToGeneratePayload        // 'Failed to generate custody payload.'
    | FailedToSerializePayload       // 'Failed to serialize payload.'
    | MalformedToken                 // `Buffer.from(undefined, 'base64')` throws a TypeError
    | SomethingWentWrong(detail: string)  // `Something went wrong ${JSON.stringify(...)}`
    | NoMirrorFound                  // 'No mirror found'
    | NoReactionFound                // 'No reaction found'
    | NoFollowerFound                // 'No follower found'
    | Upstream(message: string)      // a rejection or an error message coming from upstream

  /** A byte, as `Uint8Array` elements are. */
  type Byte = b: int | 0 <= b < 256
}
