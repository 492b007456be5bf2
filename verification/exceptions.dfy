/**
 The error taxonomy of sanic_security/exceptions.py. Every class there is a
 `SecurityError` carrying a message and an HTTP code; the subclasses fix the
 code, and some of them the message too. Raising one produces a JSON response
 holding the message, the class name as `error_type`, and the code.
 */
module Exceptions {
  import opened Results

  /** One constructor per class of the exceptions module. */
  datatype Kind =
    | Security
    | NotFound
    | Deleted
    | Account
    | Disabled
    | Unverified
    | Session
    | Invalid
    | Expired
    | InsufficientRoles
    | InsufficientPermissions

  /** An instance of one of the classes: its class, message and HTTP code. */
  datatype SecurityError = SecurityError(kind: Kind, message: string, code: int)

  /** The JSON body built for a raised error. */
  datatype ErrorResponse = ErrorResponse(message: string, errorType: string, code: int)

  const DisabledMessage := "This account has been disabled."
  const UnverifiedMessage := "Account requires verification."
  const InvalidMessage := "Session is invalid."
  const ExpiredMessage := "Session has expired"
  const InsufficientRolesMessage := "Insufficient roles required for this action."
  const InsufficientPermissionsMessage := "Insufficient permissions required for this action."

  /** The Python class name, which the response reports as `error_type`. */
  function ClassName(k: Kind): string
  {
    match k
    case Security => "SecurityError"
    case NotFound => "NotFoundError"
    case Deleted => "DeletedError"
    case Account => "AccountError"
    case Disabled => "DisabledError"
    case Unverified => "UnverifiedError"
    case Session => "SessionError"
    case Invalid => "InvalidError"
    case Expired => "ExpiredError"
    case InsufficientRoles => "InsufficientRolesError"
    case InsufficientPermissions => "InsufficientPermissionsError"
  }

  /** The direct superclass; `SecurityError` is the root of the hierarchy. */
  function Parent(k: Kind): Option<Kind>
  {
    match k
    case Security => None
    case Disabled | Unverified => Some(Account)
    case Invalid | Expired => Some(Session)
    case _ => Some(Security)
  }

  /** Distance from the root, the measure for walking up the hierarchy. */
  function Depth(k: Kind): nat
  {
    match k
    case Security => 0
    case Disabled | Unverified | Invalid | Expired => 2
    case _ => 1
  }

  /** Python's `issubclass(k, ancestor)`. */
  predicate IsA(k: Kind, ancestor: Kind)
    decreases Depth(k)
  {
    k == ancestor || (Parent(k).Some? && Depth(Parent(k).value) < Depth(k) && IsA(Parent(k).value, ancestor))
  }

  /**
   The message and code each class's constructor fixes; `SecurityError`,
   `AccountError` and `SessionError` take both from their caller.
   */
  predicate Valid(e: SecurityError)
  {
    match e.kind
    case Security | Account | Session => true
    case NotFound | Deleted => e.code == 404
    case Disabled => e.message == DisabledMessage && e.code == 401
    case Unverified => e.message == UnverifiedMessage && e.code == 401
    case Invalid => e.message == InvalidMessage && e.code == 401
    case Expired => e.message == ExpiredMessage && e.code == 401
    case InsufficientRoles => e.message == InsufficientRolesMessage && e.code == 403
    case InsufficientPermissions => e.message == InsufficientPermissionsMessage && e.code == 403
  }

  /** The response `SecurityError.__init__` attaches to every error. */
  function Response(e: SecurityError): (r: ErrorResponse)
    ensures r.errorType == ClassName(e.kind)
    ensures r.message == e.message && r.code == e.code
  {
    ErrorResponse(e.message, ClassName(e.kind), e.code)
  }

  // The constructors of the Python classes.

  function NotFoundError(message: string): (e: SecurityError)
    ensures Valid(e) && e.kind == NotFound && e.message == message
    ensures Response(e) == ErrorResponse(message, "NotFoundError", 404)
  {
    SecurityError(NotFound, message, 404)
  }

  function DeletedError(message: string): (e: SecurityError)
    ensures Valid(e) && e.kind == Deleted && e.message == message
    ensures Response(e) == ErrorResponse(message, "DeletedError", 404)
  {
    SecurityError(Deleted, message, 404)
  }

  function AccountError(message: string, code: int): (e: SecurityError)
    ensures Valid(e) && e.kind == Account
    ensures Response(e) == ErrorResponse(message, "AccountError", code)
  {
    SecurityError(Account, message, code)
  }

  function DisabledError(): (e: SecurityError)
    ensures Valid(e) && IsA(e.kind, Account) && e.kind != Account
    ensures Response(e) == ErrorResponse(DisabledMessage, "DisabledError", 401)
  {
    SecurityError(Disabled, DisabledMessage, 401)
  }

  function UnverifiedError(): (e: SecurityError)
    ensures Valid(e) && IsA(e.kind, Account) && e.kind != Account
    ensures Response(e) == ErrorResponse(UnverifiedMessage, "UnverifiedError", 401)
  {
    SecurityError(Unverified, UnverifiedMessage, 401)
  }

  function SessionError(message: string, code: int := 401): (e: SecurityError)
    ensures Valid(e) && e.kind == Session
    ensures Response(e) == ErrorResponse(message, "SessionError", code)
  {
    SecurityError(Session, message, code)
  }

  function InvalidError(): (e: SecurityError)
    ensures Valid(e) && IsA(e.kind, Session) && e.kind != Session
    ensures Response(e) == ErrorResponse(InvalidMessage, "InvalidError", 401)
  {
    SecurityError(Invalid, InvalidMessage, 401)
  }

  function ExpiredError(): (e: SecurityError)
    ensures Valid(e) && IsA(e.kind, Session) && e.kind != Session
    ensures Response(e) == ErrorResponse(ExpiredMessage, "ExpiredError", 401)
  {
    SecurityError(Expired, ExpiredMessage, 401)
  }

  function InsufficientRolesError(): (e: SecurityError)
    ensures Valid(e) && e.kind == InsufficientRoles
    ensures Response(e) == ErrorResponse(InsufficientRolesMessage, "InsufficientRolesError", 403)
  {
    SecurityError(InsufficientRoles, InsufficientRolesMessage, 403)
  }

  function InsufficientPermissionsError(): (e: SecurityError)
    ensures Valid(e) && e.kind == InsufficientPermissions
    ensures Response(e) == ErrorResponse(InsufficientPermissionsMessage, "InsufficientPermissionsError", 403)
  {
    SecurityError(InsufficientPermissions, InsufficientPermissionsMessage, 403)
  }

  /** `SessionError` without an explicit code answers with 401. */
  lemma SessionErrorDefaultsTo401(message: string)
    ensures SessionError(message).code == 401
    ensures Response(SessionError(message)) == ErrorResponse(message, "SessionError", 401)
  {
  }

  /** The code of a well-formed error is determined by its class, except for the three open classes. */
  lemma CodeByClass(e: SecurityError)
    requires Valid(e)
    ensures IsA(e.kind, NotFound) || IsA(e.kind, Deleted) ==> e.code == 404
    ensures e.kind != Account && IsA(e.kind, Account) ==> e.code == 401
    ensures e.kind != Session && IsA(e.kind, Session) ==> e.code == 401
    ensures e.kind in {InsufficientRoles, InsufficientPermissions} ==> e.code == 403
  {
  }

  /** The `error_type` of a response names exactly one class: no two classes share a name. */
  lemma ResponseIdentifiesClass(e1: SecurityError, e2: SecurityError)
    ensures Response(e1).errorType == Response(e2).errorType <==> e1.kind == e2.kind
  {
    if e1.kind != e2.kind {
      ClassNameInjective(e1.kind, e2.kind);
    }
  }

  lemma ClassNameInjective(k1: Kind, k2: Kind)
    requires k1 != k2
    ensures ClassName(k1) != ClassName(k2)
  {
    var n1, n2 := ClassName(k1), ClassName(k2);
    if |n1| == |n2| {
      // Names of equal length already differ in their first character.
      assert n1[0] != n2[0];
    }
  }

  /** Every class is a `SecurityError`. */
  lemma EveryKindIsSecurityError(k: Kind)
    ensures IsA(k, Security)
  {
  }

  /** Subclassing is a partial order: reflexive, transitive and antisymmetric. */
  lemma {:induction false} IsATransitive(a: Kind, b: Kind, c: Kind)
    requires IsA(a, b) && IsA(b, c)
    ensures IsA(a, c)
    decreases Depth(a)
  {
    if a != b {
      IsATransitive(Parent(a).value, b, c);
    }
  }

  lemma {:induction false} IsAAntisymmetric(a: Kind, b: Kind)
    requires IsA(a, b) && IsA(b, a)
    ensures a == b
  {
    if a != b {
      IsADepth(a, b);
      IsADepth(b, a);
    }
  }

  /** A proper superclass sits strictly closer to the root. */
  lemma {:induction false} IsADepth(a: Kind, b: Kind)
    requires IsA(a, b) && a != b
    ensures Depth(b) < Depth(a)
    decreases Depth(a)
  {
    var p := Parent(a).value;
    if p != b {
      IsADepth(p, b);
    }
  }

  /** An `except` clause listing `handlers` catches `e` exactly when e's class is a subclass of one of them. */
  predicate Catches(handlers: set<Kind>, e: SecurityError)
  {
    exists h :: h in handlers && IsA(e.kind, h)
  }

  /** Catching `AccountError` also catches `DisabledError` and `UnverifiedError`, and nothing about sessions. */
  lemma AccountHandlerScope(e: SecurityError)
    ensures Catches({Account}, e) <==> e.kind in {Account, Disabled, Unverified}
    ensures Catches({Session}, e) <==> e.kind in {Session, Invalid, Expired}
    ensures Catches({NotFound}, e) <==> e.kind == NotFound
  {
  }
}
