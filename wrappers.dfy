/** Small value wrappers shared by the screens. */
module Wrappers {

  /** A value that may be absent (JavaScript's `undefined`/`null`). */
  datatype Option<+T> = None | Some(value: T)

  /** The outcome of a remote GET followed by JSON decoding: the decoded list,
      or a failure (network error, bad response, bad JSON) caught by the screen. */
  datatype FetchResult<+T> = Fetched(items: seq<T>) | FetchFailed
}
