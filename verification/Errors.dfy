// The workspace error taxonomy: every error carries a failure class, and the
// class alone decides whether connectivity must be severed.
module Errors {

  datatype Option<+T> = None | Some(value: T)

  datatype Result<+T> = Ok(value: T) | Err(error: Error)

  datatype FailureClass =
    | NetworkContainmentClass
    | IsolationClass
    | CryptographyClass
    | IntegrityClass
    | ConfigurationClass
    | PreconditionClass
    | SystemClass
    | InternalClass

  // The message texts carry no decision and are dropped.
  datatype Error =
    | NetworkContainment
    | Isolation
    | PreflightFailed
    | Crypto
    | Integrity
    | Config
    | Precondition
    | NotFound
    | Busy
    | Unsupported
    | System
    | Internal
  {
    function Class(): FailureClass {
      match this
      case NetworkContainment => NetworkContainmentClass
      case PreflightFailed => NetworkContainmentClass
      case Isolation => IsolationClass
      case Crypto => CryptographyClass
      case Integrity => IntegrityClass
      case Config => ConfigurationClass
      case Precondition => PreconditionClass
      case NotFound => PreconditionClass
      case Busy => PreconditionClass
      case Unsupported => SystemClass
      case System => SystemClass
      case Internal => InternalClass
    }

    predicate RequiresKillSwitch() {
      Class() == NetworkContainmentClass || Class() == IsolationClass
    }
  }
}
