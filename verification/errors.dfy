/** The error table of the backend (`ERRORS`, src/errorMap.ts) and the ways an
    operation of the core can fail. */
module Errors {

  /** One constructor per entry of the `ERRORS` table, in table order. */
  datatype Error =
    | CantCreateUser
    | PasswordsDoNotMatch
    | UserExists
    | WrongPassword
    | UserNotFound
    | WrongRequest
    | PidExists
    | ErrorDecrypting
    | PidNotExists
    | PidUnableToDelete
    | InvalidSessionId
    | SessionExpired

  /** The HTTP status code the table gives an error. */
  function Code(e: Error): (c: int)
    ensures c == 400 || c == 401 || c == 500
    ensures c == 401 <==> e == SessionExpired
  {
    match e
    case CantCreateUser => 500
    case PasswordsDoNotMatch => 400
    case UserExists => 400
    case WrongPassword => 400
    case UserNotFound => 400
    case WrongRequest => 400
    case PidExists => 500
    case ErrorDecrypting => 500
    case PidNotExists => 400
    case PidUnableToDelete => 500
    case InvalidSessionId => 400
    case SessionExpired => 401
  }

  /** The user-facing message the table gives an error. */
  function Message(e: Error): (m: string)
    ensures |m| > 0
    ensures m != DECRYPTING_TEXT
  {
    match e
    case CantCreateUser => "Unable to create user"
    case PasswordsDoNotMatch => "Passwords do not match"
    case UserExists => "User exists"
    case WrongPassword => "Wrong Password"
    case UserNotFound => "User not found"
    case WrongRequest => "Wrong Request"
    case PidExists => "'pID' used, Please use a unique pID"
    case ErrorDecrypting => "Error while decrypting"
    case PidNotExists => "Given 'pID' not found"
    case PidUnableToDelete => "Unable to delete pID"
    case InvalidSessionId => "Session ID is invalid"
    case SessionExpired => "Session Expired"
  }

  /** The bare string `retrievePassword` throws when the stored envelope does not
      open under the session key. It is not an entry of the table. */
  const DECRYPTING_TEXT: string := "Error while decrypting."

  /** How an operation of the core fails. */
  datatype Failure =
    | Api(error: Error)      // an entry of the table is thrown
    | Plain(text: string)    // a bare string is thrown
    | Uncaught               // a rejection of a library call is passed on unhandled

  datatype Result<+T> = Ok(value: T) | Err(failure: Failure)

  /** The record and authentication errors the core throws are client errors, except
      a duplicate pID, which the table files as a server error. */
  lemma RecordAndAuthCodes()
    ensures Code(PidExists) == 500 && Code(PidNotExists) == 400
    ensures Code(PasswordsDoNotMatch) == 400 && Code(UserExists) == 400
    ensures Code(WrongPassword) == 400 && Code(UserNotFound) == 400
  {
  }

  /** The twelve messages are pairwise distinct, so a message names its error. */
  lemma MessageIdentifiesError(a: Error, b: Error)
    ensures Message(a) == Message(b) ==> a == b
  {
  }

  /** The string thrown on a failed decryption is none of the table's messages; in
      particular it differs from `ERROR_DECRYPTING`'s by its final full stop. */
  lemma DecryptingTextIsNotAMessage(e: Error)
    ensures Message(e) != DECRYPTING_TEXT
    ensures Message(ErrorDecrypting) + "." == DECRYPTING_TEXT
  {
  }
}
