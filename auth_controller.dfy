/**
 * The register and login handlers: one guard each, then the service result, with the
 * status and message of a thrown error defaulted when it has none.
 */
module AuthController {
  import opened Wrappers
  import opened Js
  import opened Http
  import opened AuthService

  const CredentialsRequired := "Email and password are required"

  /** `error.message || d`. */
  function MessageOr(message: string, d: string): (r: string)
    ensures message != "" ==> r == message
    ensures message == "" ==> r == d
  {
    if message != "" then message else d
  }

  /** The reply to a thrown error, with the handler's default status and message. */
  function ErrorReply(e: Error, defaultStatus: int, defaultMessage: string): (r: Response<Session>)
    ensures r.status == IntOr(e.status, defaultStatus)
    ensures r.body == Message(MessageOr(e.message, defaultMessage))
  {
    WithMessage(IntOr(e.status, defaultStatus), MessageOr(e.message, defaultMessage))
  }

  /** `register`: 400 without both fields; 201 with the session; a failure's status, else 400. */
  function RegisterReply(email: Value, password: Value, result: Result<Session, Error>): (r: Response<Session>)
    ensures !Truthy(email) || !Truthy(password) ==> r == WithMessage(400, CredentialsRequired)
    ensures Truthy(email) && Truthy(password) && result.Ok? ==> r == Response(201, Json(result.value))
    ensures Truthy(email) && Truthy(password) && result.Err? ==>
      r == ErrorReply(result.error, 400, "Error during registration")
  {
    if !Truthy(email) || !Truthy(password) then WithMessage(400, CredentialsRequired)
    else match result
      case Ok(s) => Response(201, Json(s))
      case Err(e) => ErrorReply(e, 400, "Error during registration")
  }

  /** `login`: 400 without both fields; 200 with the session; a failure's status, else 401. */
  function LoginReply(email: Value, password: Value, result: Result<Session, Error>): (r: Response<Session>)
    ensures !Truthy(email) || !Truthy(password) ==> r == WithMessage(400, CredentialsRequired)
    ensures Truthy(email) && Truthy(password) && result.Ok? ==> r == Response(200, Json(result.value))
    ensures Truthy(email) && Truthy(password) && result.Err? ==>
      r == ErrorReply(result.error, 401, "Invalid credentials")
  {
    if !Truthy(email) || !Truthy(password) then WithMessage(400, CredentialsRequired)
    else match result
      case Ok(s) => Response(200, Json(s))
      case Err(e) => ErrorReply(e, 401, "Invalid credentials")
  }

  /** The service's own errors keep their status: a taken email is a 400, bad credentials a 401. */
  lemma ServiceErrorsKeepStatus(email: Value, password: Value)
    requires Truthy(email) && Truthy(password)
    ensures RegisterReply(email, password, Err(EmailTaken)) == WithMessage(400, "Email already registered")
    ensures LoginReply(email, password, Err(InvalidCredentials))
         == WithMessage(401, "Invalid credentials, please check your email or password")
  {
  }

  /** An error without a status, such as a store failure, takes the handler's default. */
  lemma UnstatusedErrorDefaults(email: Value, password: Value, message: string)
    requires Truthy(email) && Truthy(password) && message != ""
    ensures RegisterReply(email, password, Err(Error("Error", None, message))) == WithMessage(400, message)
    ensures LoginReply(email, password, Err(Error("Error", None, message))) == WithMessage(401, message)
    ensures LoginReply(email, password, Err(Error("Error", None, ""))) == WithMessage(401, "Invalid credentials")
  {
  }
}
