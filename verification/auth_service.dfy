/** `AuthService`'s error handling: how a Firebase Auth failure becomes an
    `AuthError`, and the message each `AuthError` shows. */
module Auth {

  import opened Wrappers

  /** The Firebase Auth codes the service tells apart; `OtherCode` is any
      other recognised code. An unrecognised raw code is `None` where an
      `Option<AuthCode>` is expected. */
  datatype AuthCode =
    | WrongPassword
    | InvalidCredential
    | UserNotFound
    | EmailAlreadyInUse
    | WeakPassword
    | NetworkError
    | OtherCode(raw: int)

  datatype AuthError =
    | InvalidCredentials
    | UserNotFoundError
    | EmailAlreadyInUseError
    | WeakPasswordError
    | NetworkFailure
    | UnknownError(message: string)

  /** `mapAuthError(_:)` for a failure with code `code` and localized
      description `message`. */
  function MapAuthError(code: Option<AuthCode>, message: string): (e: AuthError)
    ensures e == InvalidCredentials <==> code == Some(WrongPassword) || code == Some(InvalidCredential)
    ensures e == UserNotFoundError <==> code == Some(UserNotFound)
    ensures e == EmailAlreadyInUseError <==> code == Some(EmailAlreadyInUse)
    ensures e == WeakPasswordError <==> code == Some(WeakPassword)
    ensures e == NetworkFailure <==> code == Some(NetworkError)
    ensures e.UnknownError? <==> code.None? || code.value.OtherCode?
    ensures e.UnknownError? ==> e.message == message
  {
    match code
    case None => UnknownError(message)
    case Some(c) =>
      match c
      case WrongPassword => InvalidCredentials
      case InvalidCredential => InvalidCredentials
      case UserNotFound => UserNotFoundError
      case EmailAlreadyInUse => EmailAlreadyInUseError
      case WeakPassword => WeakPasswordError
      case NetworkError => NetworkFailure
      case OtherCode(_) => UnknownError(message)
  }

  /** `errorDescription`. */
  function Describe(e: AuthError): (m: string)
    ensures e.UnknownError? ==> m == e.message
  {
    match e
    case InvalidCredentials => "Invalid email or password. Please try again."
    case UserNotFoundError => "No account found with this email."
    case EmailAlreadyInUseError => "This email is already registered."
    case WeakPasswordError => "Password must be at least 6 characters."
    case NetworkFailure => "Network error. Please check your connection."
    case UnknownError(message) => message
  }

  /** The five fixed messages tell their errors apart. */
  lemma FixedDescriptionsDistinct(a: AuthError, b: AuthError)
    requires !a.UnknownError? && !b.UnknownError?
    ensures Describe(a) == Describe(b) <==> a == b
  {
  }

  /** Every error except an unknown one arises from some code, and an
      unclassified failure keeps the platform's own message. */
  lemma ClassificationCoversErrors(e: AuthError, message: string)
    ensures !e.UnknownError? ==> exists c :: MapAuthError(Some(c), message) == e
    ensures Describe(MapAuthError(None, message)) == message
  {
    match e
    case InvalidCredentials => assert MapAuthError(Some(WrongPassword), message) == e;
    case UserNotFoundError => assert MapAuthError(Some(UserNotFound), message) == e;
    case EmailAlreadyInUseError => assert MapAuthError(Some(EmailAlreadyInUse), message) == e;
    case WeakPasswordError => assert MapAuthError(Some(WeakPassword), message) == e;
    case NetworkFailure => assert MapAuthError(Some(NetworkError), message) == e;
    case UnknownError(_) =>
  }
}
