/**
 The two-step verification flow of sanic_security/verification.py: requesting
 a two-step session, checking a verification attempt, verifying an account
 with a code, and guarding a handler behind a successful attempt.

 The session and account methods it calls (token decoding, session and
 account validation, the code check, account lookup by email and the session
 factory) live in code this model does not include; they are parameters
 (`Collaborators`) that either fail with a `Fault` or succeed. Every
 operation returns a `Run`: the persisted flags afterwards, the outcome, and
 the stages it went through, in order.
 */
module Verification {
  import opened Results
  import Exceptions

  datatype Account = Account(id: nat, email: string, verified: bool, disabled: bool, deleted: bool)

  datatype TwoStepSession = TwoStepSession(id: nat, active: bool, bearer: Account)

  /** The persisted flags this flow writes: each session's `active` and each account's `verified`. */
  datatype Store = Store(sessionActive: map<nat, bool>, accountVerified: map<nat, bool>)

  /** The form fields and cookies of an incoming request. */
  datatype Request = Request(form: map<string, string>, cookies: map<string, string>)

  /**
   An exception raised along the flow: one of the security errors, the
   `JWTDecodeError` the flow catches, or another class raised by the
   collaborators, such as the challenge errors. verification.py imports
   `JWTDecodeError` from the exceptions module, which does not define it, so
   as the two files stand that import fails; the model takes the class to
   exist elsewhere, outside the `SecurityError` hierarchy and so not a
   `NotFoundError`.
   */
  datatype Fault =
    | SecurityFault(error: Exceptions.SecurityError)
    | JwtDecodeFault
    | ForeignFault(className: string)

  /** The stages an operation can go through; `CreateSession` records the store and account the factory received. */
  datatype Stage =
    | Decode
    | DeactivatePrior
    | LookupAccount
    | CreateSession(seen: Store, account: Account)
    | CheckAlreadyVerified
    | ValidateSession
    | ValidateBearer
    | CheckCode
    | SaveVerified
    | CallHandler

  datatype Run<+T> = Run(store: Store, result: Result<T, Fault>, stages: seq<Stage>)

  /**
   The collaborators: `TwoStepSession.decode`, `Session.validate`,
   `Account.validate`, `check_code` (which may update the store, e.g. its
   attempt counter and the session's `active`), `Account.get_via_email` and
   `SessionFactory.get("two-step", ...)`.
   */
  datatype Collaborators = Collaborators(
    decode: (Store, Request) -> Result<TwoStepSession, Fault>,
    validateSession: TwoStepSession -> Option<Fault>,
    validateAccount: Account -> Option<Fault>,
    checkCode: (Store, TwoStepSession, Option<string>) -> (Store, Option<Fault>),
    getViaEmail: (Store, Option<string>) -> Result<Account, Fault>,
    create: (Store, Request, Account) -> (Store, Result<TwoStepSession, Fault>))

  /** `request.form.get(key)`. */
  function FormGet(req: Request, key: string): Option<string>
  {
    if key in req.form then Some(req.form[key]) else None
  }

  /** `session.active = False; session.save(update_fields=["active"])`: only that session's flag changes. */
  function Deactivate(store: Store, id: nat): (s: Store)
    ensures id in s.sessionActive && !s.sessionActive[id]
    ensures s.sessionActive.Keys == store.sessionActive.Keys + {id}
    ensures forall j :: j in store.sessionActive && j != id ==> s.sessionActive[j] == store.sessionActive[j]
    ensures s.accountVerified == store.accountVerified
  {
    store.(sessionActive := store.sessionActive[id := false])
  }

  /** `bearer.verified = True; bearer.save(update_fields=["verified"])`: only that account's flag changes. */
  function MarkVerified(store: Store, id: nat): (s: Store)
    ensures id in s.accountVerified && s.accountVerified[id]
    ensures s.accountVerified.Keys == store.accountVerified.Keys + {id}
    ensures forall j :: j in store.accountVerified && j != id ==> s.accountVerified[j] == store.accountVerified[j]
    ensures s.sessionActive == store.sessionActive
  {
    store.(accountVerified := store.accountVerified[id := true])
  }

  /** Deactivating twice is deactivating once. */
  lemma DeactivateIdempotent(store: Store, id: nat)
    ensures Deactivate(Deactivate(store, id), id) == Deactivate(store, id)
  {
    assert Deactivate(Deactivate(store, id), id).sessionActive == Deactivate(store, id).sessionActive;
  }

  /**
   `r` went through a prefix of `order`, where `faults[i]` is what stage
   `order[i]` reports once the stages before it have passed: every stage but
   the last passed; `r` failed exactly when its last stage did, with that
   stage's fault; and it succeeded only after the whole of `order`.
   */
  predicate ShortCircuits<T>(r: Run<T>, order: seq<Stage>, faults: seq<Option<Fault>>)
  {
    && |faults| == |order|
    && 0 < |r.stages| <= |order|
    && r.stages == order[..|r.stages|]
    && (forall i :: 0 <= i < |r.stages| - 1 ==> faults[i].None?)
    && (r.result.Err? <==> faults[|r.stages| - 1].Some?)
    && (r.result.Err? ==> faults[|r.stages| - 1] == Some(r.result.error))
    && (r.result.Ok? ==> r.stages == order)
  }

  /** Running a stage that passes first keeps a run short-circuiting, over the longer order. */
  lemma ShortCircuitsAfterPassedStage<T>(r: Run<T>, order: seq<Stage>, faults: seq<Option<Fault>>, first: Stage)
    requires ShortCircuits(r, order, faults)
    ensures ShortCircuits(Run(r.store, r.result, [first] + r.stages), [first] + order, [None] + faults)
  {
    var stages := [first] + r.stages;
    assert forall i :: 1 <= i < |stages| ==> stages[i] == order[i - 1];
  }

  // ---------------------------------------------------------------------
  // request_two_step_verification

  /** The decode failures the request swallows: `NotFoundError` (and subclasses) and `JWTDecodeError`. */
  predicate Suppressed(f: Fault)
  {
    f.JwtDecodeFault? || (f.SecurityFault? && Exceptions.IsA(f.error.kind, Exceptions.NotFound))
  }

  /** Decoding the client's prior session succeeded or failed in a swallowed way, so the request goes on. */
  predicate ProceedsPastDecode(c: Collaborators, store: Store, req: Request)
  {
    c.decode(store, req).Ok? || Suppressed(c.decode(store, req).error)
  }

  /** The store once the client's prior two-step session, if one decoded, has been deactivated. */
  function ReissueStore(c: Collaborators, store: Store, req: Request): Store
  {
    if c.decode(store, req).Ok? then Deactivate(store, c.decode(store, req).value.id) else store
  }

  /** The account the session is for: the one passed in, else the one found by the form's `email`. */
  function ResolveAccount(c: Collaborators, store: Store, req: Request, account: Option<Account>): Result<Account, Fault>
  {
    if account.Some? then Ok(account.value) else c.getViaEmail(store, FormGet(req, "email"))
  }

  /**
   Where a stage of the re-issue flow falls in its order: decode, deactivate
   the prior session, look the account up, create the session; the stages of
   the other flows come after.
   */
  function ReissueRank(st: Stage): nat
  {
    match st
    case Decode => 0
    case DeactivatePrior => 1
    case LookupAccount => 2
    case CreateSession(_, _) => 3
    case _ => 4
  }

  /** Only the four re-issue stages occur, each at most once and in their order. */
  predicate ReissueTrace(stages: seq<Stage>)
  {
    && (forall i :: 0 <= i < |stages| ==> ReissueRank(stages[i]) < 4)
    && (forall i :: 0 < i < |stages| ==> ReissueRank(stages[i - 1]) < ReissueRank(stages[i]))
  }

  /** Decode, then optionally the deactivation, the lookup and the creation, make a re-issue trace. */
  lemma ReissueTraceOf(before: seq<Stage>, lookup: seq<Stage>, tail: seq<Stage>)
    requires before == [Decode] || before == [Decode, DeactivatePrior]
    requires lookup == [] || lookup == [LookupAccount]
    requires tail == [] || (|tail| == 1 && tail[0].CreateSession?)
    ensures ReissueTrace(before + lookup + tail)
  {
    var t := before + lookup + tail;
    forall i | 0 < i < |t|
      ensures ReissueRank(t[i - 1]) < ReissueRank(t[i])
    {
      if i < |before| {
      } else if i < |before| + |lookup| {
        assert t[i] == LookupAccount;
      } else {
        assert t[i] == tail[0];
      }
    }
  }

  /** `request_two_step_verification`. */
  function RequestTwoStepVerification(c: Collaborators, store: Store, req: Request, account: Option<Account>)
    : (r: Run<TwoStepSession>)
    ensures |r.stages| > 0 && r.stages[0] == Decode
    // A decode failure other than the swallowed ones propagates, and nothing else happens.
    ensures !ProceedsPastDecode(c, store, req) ==> r == Run(store, Err(c.decode(store, req).error), [Decode])
    // A decoded prior session is deactivated before anything else.
    ensures c.decode(store, req).Ok? ==> |r.stages| > 1 && r.stages[1] == DeactivatePrior
    ensures c.decode(store, req).Err? ==> DeactivatePrior !in r.stages
    // The account is looked up by email only when none was passed in; a failed lookup propagates.
    ensures account.Some? ==> LookupAccount !in r.stages
    ensures ProceedsPastDecode(c, store, req) && account.None? ==> LookupAccount in r.stages
    ensures ProceedsPastDecode(c, store, req) && ResolveAccount(c, ReissueStore(c, store, req), req, account).Err? ==>
      r.result == Err(ResolveAccount(c, ReissueStore(c, store, req), req, account).error)
      && r.store == ReissueStore(c, store, req)
    // The factory runs last, on the store in which the prior session is inactive, for the resolved account.
    ensures ProceedsPastDecode(c, store, req) && ResolveAccount(c, ReissueStore(c, store, req), req, account).Ok? ==>
      r.stages[|r.stages| - 1] == CreateSession(ReissueStore(c, store, req), ResolveAccount(c, ReissueStore(c, store, req), req, account).value)
    ensures forall i :: 0 <= i < |r.stages| && r.stages[i].CreateSession? ==>
      && i == |r.stages| - 1
      && (r.store, r.result) == c.create(r.stages[i].seen, req, r.stages[i].account)
      && (account.Some? ==> r.stages[i].account == account.value)
    // A session is created exactly when decoding and the account lookup both get through.
    ensures (exists i :: 0 <= i < |r.stages| && r.stages[i].CreateSession?) <==>
      ProceedsPastDecode(c, store, req) && ResolveAccount(c, ReissueStore(c, store, req), req, account).Ok?
  {
    var decoded := c.decode(store, req);
    if decoded.Err? && !Suppressed(decoded.error) then
      Run(store, Err(decoded.error), [Decode])
    else
      var seen := ReissueStore(c, store, req);
      var before := if decoded.Ok? then [Decode, DeactivatePrior] else [Decode];
      var lookup := if account.Some? then [] else [LookupAccount];
      match ResolveAccount(c, seen, req, account)
      case Err(f) => Run(seen, Err(f), before + lookup)
      case Ok(a) =>
        var (after, created) := c.create(seen, req, a);
        Run(after, created, before + lookup + [CreateSession(seen, a)])
  }

  /**
   Every request goes through the re-issue stages only, each at most once and
   in order; with the contract of `RequestTwoStepVerification`, which says when
   each occurs, this fixes its whole trace.
   */
  lemma RequestTwoStepTrace(c: Collaborators, store: Store, req: Request, account: Option<Account>)
    ensures ReissueTrace(RequestTwoStepVerification(c, store, req, account).stages)
  {
    var decoded := c.decode(store, req);
    if decoded.Ok? || Suppressed(decoded.error) {
      var seen := ReissueStore(c, store, req);
      var before := if decoded.Ok? then [Decode, DeactivatePrior] else [Decode];
      var lookup := if account.Some? then [] else [LookupAccount];
      match ResolveAccount(c, seen, req, account)
      case Err(f) =>
        ReissueTraceOf(before, lookup, []);
        assert before + lookup + [] == before + lookup;
      case Ok(a) =>
        ReissueTraceOf(before, lookup, [CreateSession(seen, a)]);
    }
  }

  /** A swallowed decode failure does not stop the request: with an explicit account a session is always created. */
  lemma StaleSessionDoesNotBlockReissue(c: Collaborators, store: Store, req: Request, a: Account)
    requires c.decode(store, req).Err? && Suppressed(c.decode(store, req).error)
    ensures RequestTwoStepVerification(c, store, req, Some(a)).stages == [Decode, CreateSession(store, a)]
    ensures RequestTwoStepVerification(c, store, req, Some(a)).result == c.create(store, req, a).1
  {
  }

  /** A failed email lookup still leaves the prior session deactivated, and creates nothing. */
  lemma FailedLookupKeepsPriorDeactivated(c: Collaborators, store: Store, req: Request)
    requires c.decode(store, req).Ok?
    requires c.getViaEmail(ReissueStore(c, store, req), FormGet(req, "email")).Err?
    ensures var r := RequestTwoStepVerification(c, store, req, None);
      && r.result.Err?
      && r.stages == [Decode, DeactivatePrior, LookupAccount]
      && !r.store.sessionActive[c.decode(store, req).value.id]
  {
  }

  // ---------------------------------------------------------------------
  // two_step_verification

  const TwoStepOrder: seq<Stage> := [Decode, ValidateSession, ValidateBearer, CheckCode]

  /** What each stage of `TwoStepOrder` reports, given that the stages before it passed. */
  function TwoStepFaults(c: Collaborators, store: Store, req: Request): seq<Option<Fault>>
  {
    match c.decode(store, req)
    case Err(f) => [Some(f), None, None, None]
    case Ok(sess) =>
      [None, c.validateSession(sess), c.validateAccount(sess.bearer), c.checkCode(store, sess, FormGet(req, "code")).1]
  }

  /** `two_step_verification`: decode, validate the session, validate its bearer, check the code. */
  function TwoStepVerification(c: Collaborators, store: Store, req: Request): (r: Run<TwoStepSession>)
    ensures ShortCircuits(r, TwoStepOrder, TwoStepFaults(c, store, req))
    ensures CheckCode !in r.stages ==> r.store == store
    ensures CheckCode in r.stages ==>
      c.decode(store, req).Ok? && r.store == c.checkCode(store, c.decode(store, req).value, FormGet(req, "code")).0
    ensures r.result.Ok? ==> r.result == c.decode(store, req)
  {
    match c.decode(store, req)
    case Err(f) => Run(store, Err(f), [Decode])
    case Ok(sess) =>
      if c.validateSession(sess).Some? then
        Run(store, Err(c.validateSession(sess).value), [Decode, ValidateSession])
      else if c.validateAccount(sess.bearer).Some? then
        Run(store, Err(c.validateAccount(sess.bearer).value), [Decode, ValidateSession, ValidateBearer])
      else
        var (after, fault) := c.checkCode(store, sess, FormGet(req, "code"));
        Run(after, if fault.Some? then Err(fault.value) else Ok(sess), TwoStepOrder)
  }

  // ---------------------------------------------------------------------
  // verify_account

  /** The refusal for an account that is verified already. */
  const AlreadyVerified: Fault := SecurityFault(Exceptions.AccountError("Account already verified.", 403))

  /** The session to verify with: the one passed in, else the one decoded from the request. */
  function SessionFor(c: Collaborators, store: Store, req: Request, given: Option<TwoStepSession>)
    : Result<TwoStepSession, Fault>
  {
    if given.Some? then Ok(given.value) else c.decode(store, req)
  }

  /** The stages `verify_account` goes through once it holds a session. */
  const VerifyStages: seq<Stage> := [CheckAlreadyVerified, ValidateSession, CheckCode, SaveVerified]

  function VerifyOrder(given: Option<TwoStepSession>): seq<Stage>
  {
    (if given.None? then [Decode] else []) + VerifyStages
  }

  /** What each stage of `VerifyStages` reports for session `sess`, given that the stages before it passed. */
  function SessionFaults(c: Collaborators, store: Store, code: Option<string>, sess: TwoStepSession)
    : seq<Option<Fault>>
  {
    [if sess.bearer.verified then Some(AlreadyVerified) else None, c.validateSession(sess), c.checkCode(store, sess, code).1, None]
  }

  /** What each stage of `VerifyOrder(given)` reports, given that the stages before it passed. */
  function VerifyFaults(c: Collaborators, store: Store, req: Request, given: Option<TwoStepSession>)
    : seq<Option<Fault>>
  {
    match SessionFor(c, store, req, given)
    case Err(f) => [Some(f), None, None, None, None]
    case Ok(sess) => (if given.None? then [None] else []) + SessionFaults(c, store, FormGet(req, "code"), sess)
  }

  /**
   The body of `verify_account` once the session is known: refuse an
   already-verified bearer, validate the session (but not its bearer), check
   the code, then mark the bearer verified.
   */
  function VerifySession(c: Collaborators, store: Store, code: Option<string>, sess: TwoStepSession)
    : (r: Run<TwoStepSession>)
    ensures ShortCircuits(r, VerifyStages, SessionFaults(c, store, code, sess))
    ensures CheckCode !in r.stages ==> r.store == store
    ensures CheckCode in r.stages && r.result.Err? ==> r.store == c.checkCode(store, sess, code).0
    ensures r.result.Ok? ==> r.store == MarkVerified(c.checkCode(store, sess, code).0, sess.bearer.id)
    ensures r.result.Ok? ==> r.result.value == sess.(bearer := sess.bearer.(verified := true))
  {
    if sess.bearer.verified then
      Run(store, Err(AlreadyVerified), [CheckAlreadyVerified])
    else if c.validateSession(sess).Some? then
      Run(store, Err(c.validateSession(sess).value), [CheckAlreadyVerified, ValidateSession])
    else
      var (after, fault) := c.checkCode(store, sess, code);
      if fault.Some? then
        Run(after, Err(fault.value), [CheckAlreadyVerified, ValidateSession, CheckCode])
      else
        Run(MarkVerified(after, sess.bearer.id), Ok(sess.(bearer := sess.bearer.(verified := true))), VerifyStages)
  }

  /** `verify_account`: the session passed in, else the decoded one, then `VerifySession`. */
  function VerifyAccount(c: Collaborators, store: Store, req: Request, given: Option<TwoStepSession>)
    : (r: Run<TwoStepSession>)
    ensures ShortCircuits(r, VerifyOrder(given), VerifyFaults(c, store, req, given))
    ensures ValidateBearer !in r.stages
    ensures CheckCode !in r.stages ==> r.store == store
    ensures CheckCode in r.stages ==> SessionFor(c, store, req, given).Ok?
    ensures CheckCode in r.stages && r.result.Err? ==>
      r.store == c.checkCode(store, SessionFor(c, store, req, given).value, FormGet(req, "code")).0
    ensures r.result.Ok? ==>
      && SessionFor(c, store, req, given).Ok?
      && var sess := SessionFor(c, store, req, given).value;
        && r.store == MarkVerified(c.checkCode(store, sess, FormGet(req, "code")).0, sess.bearer.id)
        && r.result.value == sess.(bearer := sess.bearer.(verified := true))
  {
    match SessionFor(c, store, req, given)
    case Err(f) => Run(store, Err(f), [Decode])
    case Ok(sess) =>
      var code := FormGet(req, "code");
      var v := VerifySession(c, store, code, sess);
      if given.Some? then
        assert VerifyOrder(given) == VerifyStages;
        v
      else
        ShortCircuitsAfterPassedStage(v, VerifyStages, SessionFaults(c, store, code, sess), Decode);
        Run(v.store, v.result, [Decode] + v.stages)
  }

  /** An already-verified bearer is refused with a 403 `AccountError` before the session or the code is looked at. */
  lemma AlreadyVerifiedRefusedFirst(c: Collaborators, store: Store, req: Request, given: Option<TwoStepSession>)
    requires SessionFor(c, store, req, given).Ok? && SessionFor(c, store, req, given).value.bearer.verified
    ensures var r := VerifyAccount(c, store, req, given);
      && r.result == Err(AlreadyVerified)
      && Exceptions.Response(r.result.error.error) == Exceptions.ErrorResponse("Account already verified.", "AccountError", 403)
      && ValidateSession !in r.stages && CheckCode !in r.stages
      && r.store == store
  {
  }

  /** `verify_account` never consults bearer validation: its outcome is the same whatever `Account.validate` does. */
  lemma VerifyAccountIgnoresBearerValidation(c: Collaborators, validate: Account -> Option<Fault>, store: Store,
                                             req: Request, given: Option<TwoStepSession>)
    ensures VerifyAccount(c.(validateAccount := validate), store, req, given) == VerifyAccount(c, store, req, given)
  {
    var other := c.(validateAccount := validate);
    assert SessionFor(other, store, req, given) == SessionFor(c, store, req, given);
    if SessionFor(c, store, req, given).Ok? {
      var sess := SessionFor(c, store, req, given).value;
      var code := FormGet(req, "code");
      assert VerifySession(other, store, code, sess) == VerifySession(c, store, code, sess);
    }
  }

  /**
   An unverified bearer, which `Account.validate` refuses with `UnverifiedError`,
   fails a plain verification attempt but is verified by `verify_account` when
   its session is valid and its code is right.
   */
  lemma UnverifiedBearerReachesCodeCheck(c: Collaborators, store: Store, req: Request, sess: TwoStepSession)
    requires c.decode(store, req) == Ok(sess)
    requires !sess.bearer.verified
    requires c.validateSession(sess).None?
    requires c.validateAccount(sess.bearer) == Some(SecurityFault(Exceptions.UnverifiedError()))
    requires c.checkCode(store, sess, FormGet(req, "code")).1.None?
    ensures TwoStepVerification(c, store, req).result == Err(SecurityFault(Exceptions.UnverifiedError()))
    ensures CheckCode !in TwoStepVerification(c, store, req).stages
    ensures VerifyAccount(c, store, req, None).result.Ok?
    ensures VerifyAccount(c, store, req, None).store.accountVerified[sess.bearer.id]
  {
  }

  /**
   When the code check leaves account flags alone, an
   account verification changes no `verified` flag unless it succeeds, and a
   success sets exactly the bearer's.
   */
  lemma VerifiedOnlyAfterCodeCheck(c: Collaborators, store: Store, req: Request, given: Option<TwoStepSession>)
    requires forall s, sess, code :: c.checkCode(s, sess, code).0.accountVerified == s.accountVerified
    ensures var r := VerifyAccount(c, store, req, given);
      && (r.result.Err? ==> r.store.accountVerified == store.accountVerified)
      && (r.result.Ok? ==> r.store.accountVerified == store.accountVerified[r.result.value.bearer.id := true])
  {
    var r := VerifyAccount(c, store, req, given);
    if CheckCode in r.stages {
      var sess := SessionFor(c, store, req, given).value;
      var after := c.checkCode(store, sess, FormGet(req, "code")).0;
      assert after.accountVerified == store.accountVerified;
    }
  }

  // ---------------------------------------------------------------------
  // requires_two_step_verification

  /** The decorated handler wrapped by `requires_two_step_verification`: runs only after a successful attempt. */
  function RequiresTwoStepVerification<R>(c: Collaborators, handler: (Store, Request, TwoStepSession) -> (Store, Result<R, Fault>),
                                          store: Store, req: Request): (r: Run<R>)
    ensures var v := TwoStepVerification(c, store, req);
      && (CallHandler in r.stages <==> v.result.Ok?)
      && (v.result.Err? ==> r == Run(v.store, Err(v.result.error), v.stages))
      && (v.result.Ok? ==> r.stages == v.stages + [CallHandler] && (r.store, r.result) == handler(v.store, req, v.result.value))
  {
    var v := TwoStepVerification(c, store, req);
    match v.result
    case Err(f) => Run(v.store, Err(f), v.stages)
    case Ok(sess) =>
      var (after, response) := handler(v.store, req, sess);
      Run(after, response, v.stages + [CallHandler])
  }
}
