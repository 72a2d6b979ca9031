/** Option and Result, the two failure-carrying shapes the modelled code uses. */
module Wrappers {

  datatype Option<+T> = None | Some(value: T)

  /** Rust's `Result<T, E>`: `Success` is `Ok`, `Failure` is `Err`. */
  datatype Result<+T, +E> = Success(value: T) | Failure(error: E)
}

/** The error variants of the application that the modelled core produces. */
module Errors {

  datatype Error =
    | InvalidNation
    | InvalidFactbookCategory
    | InvalidUsername
    | InvalidPassword(message: string)
    | UserAlreadyExists
    /** a reply that never came back over an internal channel */
    | Internal
    /** an `unwrap()` on a missing value: the Rust code panics here */
    | Panic
    /** the HTTP call to the external API failed; its message */
    | Http(message: string)
    /** the database refused a query; its message */
    | Sql(message: string)
    /** password hashing failed; its message */
    | Bcrypt(message: string)
}
