/** Shared value types: optional values, success-or-failure results and the
    failure kinds the journal's storage layer reports. */
module Common {

  /** An absent or present value; `None` stands for JavaScript's `null`/`undefined`. */
  datatype Option<+T> = None | Some(value: T)

  /** The settled state of one of the journal's promises: resolved or rejected. */
  datatype Result<+T> = Ok(value: T) | Err(error: Error)

  /** Why an operation rejected. */
  datatype Error =
    | NotNullConstraint(column: string)     // SQLITE_CONSTRAINT: NOT NULL constraint failed
    | UniqueConstraint(column: string)      // SQLITE_CONSTRAINT: UNIQUE constraint failed
    | Engine(message: string)               // any other failure reported by the database engine
    | NoSuchFile(path: string)              // ENOENT
    | IsDirectory(path: string)             // EISDIR
    | NotDirectory(path: string)            // ENOTDIR
    | AlreadyRecording                      // new Error('Already recording')
    | NotRecording                          // new Error('Not recording')
    | Thrown(message: string)               // an exception thrown by a transaction block

  newtype byte = b: int | 0 <= b < 256

  /** The contents of a file, as a Node.js Buffer holds them. */
  type Bytes = seq<byte>
}
