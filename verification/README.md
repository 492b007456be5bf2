# sanic-security: two-step verification, error taxonomy and configuration, in Dafny

This project models three pieces of the sanic-security library and proves properties of them:

- **Two-step verification** (`sanic_security/verification.py`). It covers:
  - requesting a fresh two-step session, which first deactivates the client's prior one;
  - checking a verification attempt: decode, then session validation, then bearer validation, then the code check;
  - verifying an account with a code, which refuses an already-verified bearer first and sets `verified` only after the code check passes;
  - the `requires_two_step_verification` decorator, which runs the handler only after a successful attempt.
- **The error taxonomy** (`sanic_security/exceptions.py`). It covers every `SecurityError` class:
  - its fixed message and HTTP code;
  - the JSON response it carries (message, class name as `error_type`, code);
  - the subclass hierarchy that `except` clauses follow.
- **Configuration layering** (`sanic_security/configuration.py`). A `Config` starts from `DEFAULT_CONFIG`. The prefixed keys of the Sanic app's config overlay it, and then the prefixed environment variables do. Each non-empty value goes through the converter chain `int`, `float`, `str_to_bool`, `str`, and the first converter that does not raise `ValueError` wins. A falsy value is stored as given: an empty string from either source, and from the app config also `None`, `False`, `0` or an empty collection.

The Dafny files:

| file | module | contents |
|---|---|---|
| `results.dfy` | `Results` | `Option` and `Result` |
| `exceptions.dfy` | `Exceptions` | error classes, responses, hierarchy |
| `pyvalues.dfy` | `PyValues` | Python values and truthiness; `int()` on strings; the converters and the chain |
| `configuration.dfy` | `Configuration` | defaults; the reference meaning of an overlay; both loaders; `Config()` |
| `verification.dfy` | `Verification` | the four entry points of the verification module |

How the model represents the parts of the system that are not in these files:

- **Unseen methods.** The verification module calls methods whose code is in the models package, which is not part of this model: `TwoStepSession.decode`, `Session.validate`, `Account.validate`, `check_code`, `Account.get_via_email` and `SessionFactory.get`. They are fields of a `Collaborators` record. Each either fails with a `Fault` or succeeds.
  - `check_code` and the factory also return the store they leave behind.
  - The persisted state is a `Store` of two flags: each session's `active` and each account's `verified`.
- **Traces.** Each verification operation returns a `Run`: the store afterwards, the outcome, and the stages it went through.
- **Ordering.** `ShortCircuits` states the ordering property: the stages run are a prefix of a fixed order, and the first failing stage ends the run with its own error.
- **Builtins.** Float parsing, the rounding of a wide int to a float, `sanic.utils.str_to_bool` and `str` of a value other than a string, int or bool are parameters (`Builtins`).
- **Sources.** `os.environ` and the app's config are sequences of key/value items. `Sanic.get_app()` failing is an absent (`None`) app config.

Behaviour of the code that the model follows closely:

- **Suppressed decode errors.** While a session is re-issued, the decode failures that are swallowed are `NotFoundError` (with its subclasses) and `JWTDecodeError`.
- **`JWTDecodeError`.** `sanic_security/verification.py:6` imports it from the exceptions module, which does not define it, so as the two files stand that import fails. The model takes the class to exist elsewhere, outside the `SecurityError` hierarchy and so not a `NotFoundError`. It is the separate fault `JwtDecodeFault`.
- **No bearer validation in `verify_account`.** The code never calls bearer validation there. The model proves that its outcome does not depend on `Account.validate`.
- **Silent coercion.** Configuration values are coerced without complaint, not rejected.
- **`int`'s digit limit.** `int` refuses a decimal string of more than 4300 digits, the default of `sys.get_int_max_str_digits()`, and `str` refuses to render an int that wide. Such a numeral is therefore never stored as an integer.

## Model

| member | source | states |
|---|---|---|
| Exceptions.Response | sanic_security/exceptions.py:16-18 | the response of every error carries its message, its code and its class name as `error_type` |
| Exceptions.NotFoundError | sanic_security/exceptions.py:21-23 | a `NotFoundError` keeps the caller's message and answers 404 |
| Exceptions.DeletedError | sanic_security/exceptions.py:26-28 | a `DeletedError` keeps the caller's message and answers 404 |
| Exceptions.AccountError | sanic_security/exceptions.py:31-33 | an `AccountError` takes both message and code from its caller |
| Exceptions.DisabledError | sanic_security/exceptions.py:36-38 | a `DisabledError` is a proper `AccountError` subclass with its fixed message and 401 |
| Exceptions.UnverifiedError | sanic_security/exceptions.py:41-43 | an `UnverifiedError` is a proper `AccountError` subclass with its fixed message and 401 |
| Exceptions.SessionError | sanic_security/exceptions.py:46-48 | a `SessionError` keeps the caller's message and code |
| Exceptions.SessionErrorDefaultsTo401 | sanic_security/exceptions.py:46-48 | a `SessionError` built without a code answers 401 |
| Exceptions.InvalidError | sanic_security/exceptions.py:51-53 | an `InvalidError` is a proper `SessionError` subclass with its fixed message and 401 |
| Exceptions.ExpiredError | sanic_security/exceptions.py:56-58 | an `ExpiredError` is a proper `SessionError` subclass with its fixed message and 401 |
| Exceptions.InsufficientRolesError | sanic_security/exceptions.py:61-63 | an `InsufficientRolesError` has its fixed message and answers 403 |
| Exceptions.InsufficientPermissionsError | sanic_security/exceptions.py:66-68 | an `InsufficientPermissionsError` has its fixed message and answers 403 |
| Exceptions.CodeByClass | sanic_security/exceptions.py:21-68 | for any well-formed error: the not-found and deleted classes answer 404; the proper account and session subclasses answer 401; the role and permission classes answer 403 |
| Exceptions.ResponseIdentifiesClass | sanic_security/exceptions.py:16-17 | two errors' responses have the same `error_type` exactly when the errors are of the same class |
| Exceptions.ClassNameInjective | sanic_security/exceptions.py:4-66 | no two classes share a name |
| Exceptions.EveryKindIsSecurityError | sanic_security/exceptions.py:4-68 | every class is a subclass of `SecurityError` |
| Exceptions.IsATransitive | sanic_security/exceptions.py:4-68 | subclassing is transitive |
| Exceptions.IsAAntisymmetric | sanic_security/exceptions.py:4-68 | two classes that are subclasses of each other are the same class |
| Exceptions.IsADepth | sanic_security/exceptions.py:4-68 | a proper superclass lies strictly closer to `SecurityError` |
| Exceptions.AccountHandlerScope | sanic_security/exceptions.py:31-58 | `except AccountError` catches exactly `AccountError`, `DisabledError` and `UnverifiedError`; `except SessionError` catches exactly `SessionError`, `InvalidError` and `ExpiredError`; `except NotFoundError` catches only `NotFoundError` |
| PyValues.Trunc | sanic_security/configuration.py:137-140 | `int` of a finite float rounds toward zero: the result lies within one of the float, on the zero side |
| PyValues.AsInt | sanic_security/configuration.py:137-143 | `int` gives an int or fails; it raises `ValueError` exactly on a string it cannot parse and on NaN; it raises `OverflowError` on an infinity and `TypeError` on `None` and other objects; its string case is `ParseInt`, whose meaning `ParseRender` and `ParseIgnoresSurroundingSpace` state |
| PyValues.AsFloat | sanic_security/configuration.py:137-143 | `float` gives a float or fails; `ValueError` only on strings; it raises `TypeError` exactly on `None` and other objects, and `OverflowError` exactly on an int of magnitude at least 2^1024 - 2^970; every bool and float converts, and an int of magnitude at most 2^53 converts exactly |
| PyValues.AsBool | sanic_security/configuration.py:137-143 | `str_to_bool` gives a bool or fails; it raises `AttributeError` exactly on non-strings |
| PyValues.AsStr | sanic_security/configuration.py:137-143 | `str` gives a string back unchanged, an int within the 4300-digit limit as its decimal rendering and a bool as `True` or `False`; it raises `ValueError` exactly on an int wider than the limit, and nothing else |
| PyValues.StrIntRoundTrip | sanic_security/configuration.py:137-143 | `int(str(n)) == n` whenever `str` accepts `n`, and `str` accepts exactly the ints whose rendering `int` reads back |
| PyValues.ParseRender | sanic_security/configuration.py:162-165 | the `int` converter turns the decimal rendering of any integer within the 4300-digit limit back into that integer, and refuses a longer one |
| PyValues.ParseIgnoresSurroundingSpace | sanic_security/configuration.py:162-165 | whitespace around a string does not change what the `int` converter makes of it |
| PyValues.FirstAccepted | sanic_security/configuration.py:162-167 | the chain keeps the result of the first converter that does not raise `ValueError`; every earlier one raised it |
| PyValues.Coerce | sanic_security/configuration.py:162-167 | the converter chain never ends in a `ValueError` |
| PyValues.CoerceString | sanic_security/configuration.py:162-167 | on a string the chain gives: an int if `int` accepts it; else a float if `float` does; else a bool if `str_to_bool` does; else the string itself |
| PyValues.CoerceNumeral | sanic_security/configuration.py:162-167 | a numeral such as "1" or "5" within the digit limit becomes that integer, never a bool or a string; `int` refuses a longer one |
| PyValues.BoolConverterSeesOnlyStrings | sanic_security/configuration.py:137-143 | among the modelled value kinds, only a string gets past both `int` and `float` to `str_to_bool` |
| Configuration.DefaultSettings | sanic_security/configuration.py:37-42 | the defaults are: max challenge attempts 5, captcha expiration 60, two-step expiration 200, authentication expiration 2592000, refresh enabled |
| Configuration.EnvSetting | sanic_security/configuration.py:157-167 | an empty environment value is stored as the empty string; any other value is what the converter chain makes of it |
| Configuration.AppSetting | sanic_security/configuration.py:133-143 | corrected app loader: a non-string value is stored as given; a string is treated as the environment loader treats it |
| Configuration.AppAttemptAsWritten | sanic_security/configuration.py:133-143 | as written: a falsy app value is stored as given; any other value's outcome is the converter chain's: a value, or the exception it raises |
| Configuration.OverlaidKeys | sanic_security/configuration.py:153-155 | writing the items adds exactly their prefixed keys |
| Configuration.OverlaidValues | sanic_security/configuration.py:153-167 | with distinct keys, each prefixed key ends up holding its own item's value |
| Configuration.OverlaidKeeps | sanic_security/configuration.py:153-155 | a key that no prefixed item names keeps its earlier value |
| Configuration.Overlay | sanic_security/configuration.py:153-167 | the loop computes the items written one after another; so the config gains exactly the prefixed keys, each with its item's value, and every other key is unchanged |
| Configuration.LoadEnvironmentVariables | sanic_security/configuration.py:146-167 | every prefixed variable is stored, as its converted value (or as given when empty); unprefixed variables change nothing |
| Configuration.LoadAppVariables | sanic_security/configuration.py:114-143 | no obtainable app leaves the config unchanged; otherwise every prefixed key is stored, as its corrected value, and nothing else changes |
| Configuration.OverlayOrRaise | sanic_security/configuration.py:126-143 | the loop fails exactly when some prefixed item's conversion raises, with the first such item's exception, and the config then holds exactly what the items before it wrote; otherwise it stores every prefixed item's value and changes nothing else |
| Configuration.LoadAppVariablesAsWritten | sanic_security/configuration.py:114-143 | as written: no app leaves the config unchanged; the first prefixed value whose conversion raises something other than `ValueError` ends the load with that exception, and the config keeps the values written before it; otherwise every prefixed key holds the chain's value |
| Configuration.NewConfig | sanic_security/configuration.py:169-173 | the keys are the defaults plus both sources' prefixed keys; environment values win over app values, which win over defaults, key by key |
| Configuration.NonEmptyStringsAreStored | sanic_security/configuration.py:162-167 | every non-empty string settles on a value, the string itself when no other converter accepts it |
| Configuration.EnvIntegers | sanic_security/configuration.py:157-167 | an environment value is stored as an integer exactly when `int` accepts it, and then as the integer `int` makes of it |
| Configuration.NumeralsBecomeIntegers | sanic_security/configuration.py:162-167 | a numeral from either source is stored as that integer exactly when it is within the digit limit; a longer one is never stored as an integer |
| Configuration.PaddedNumeralsBecomeIntegers | sanic_security/configuration.py:162-167 | a numeral padded with whitespace is stored as that integer exactly when it is within the digit limit |
| Configuration.CorrectionAgreesOnStrings | sanic_security/configuration.py:133-143 | the corrected and as-written app loaders store the same value for every string |
| Configuration.AsWrittenOnNonStrings | sanic_security/configuration.py:133-143 | as written: a falsy value and an int are stored as given; `True` becomes 1; a non-zero finite float is truncated toward zero; NaN is kept; an infinity raises `OverflowError`; a truthy object raises `TypeError`; so the as-written and corrected loaders agree on a non-string exactly when it is falsy, an int or NaN |
| Configuration.AsWrittenTruncatesFloats | sanic_security/configuration.py:137-143 | as written, the app value 2.5 is stored as the integer 2; corrected, it stays 2.5 |
| Configuration.AsWrittenRaisesOnObjects | sanic_security/configuration.py:137-143 | as written, a truthy app value that `int` rejects with `TypeError` (a list, a dict, a plain object) raises it out of the load; corrected, it is stored as given |
| Verification.Deactivate | sanic_security/verification.py:35-38 | deactivating sets that session's `active` to false and changes no other flag |
| Verification.DeactivateIdempotent | sanic_security/verification.py:35-38 | deactivating twice is deactivating once |
| Verification.MarkVerified | sanic_security/verification.py:104-105 | marking verified sets that account's `verified` and changes no other flag |
| Verification.RequestTwoStepVerification | sanic_security/verification.py:16-42 | covers the re-issue flow: see the seven points after this table |
| Verification.RequestTwoStepTrace | sanic_security/verification.py:33-42 | a request goes only through decode, the deactivation of the prior session, the account lookup and session creation, each at most once and in that order |
| Verification.StaleSessionDoesNotBlockReissue | sanic_security/verification.py:33-41 | a swallowed decode failure still leads, with an explicit account, straight to session creation |
| Verification.FailedLookupKeepsPriorDeactivated | sanic_security/verification.py:33-41 | a failed email lookup propagates, creates nothing, and still leaves the prior session inactive |
| Verification.TwoStepVerification | sanic_security/verification.py:45-71 | decode, session validation, bearer validation and the code check run in that order; the first failure ends the attempt with its error; only the code check can change the store; success returns the decoded session |
| Verification.VerifySession | sanic_security/verification.py:100-106 | with a session in hand: already-verified check, session validation, code check, then the save, in that order, stopping at the first failure; on success the bearer is marked verified on the store `check_code` left |
| Verification.VerifyAccount | sanic_security/verification.py:74-106 | covers account verification: see the three points after this table |
| Verification.AlreadyVerifiedRefusedFirst | sanic_security/verification.py:100-101 | an already-verified bearer is refused with `AccountError("Account already verified.", 403)` before session validation or the code check, and nothing changes |
| Verification.VerifyAccountIgnoresBearerValidation | sanic_security/verification.py:98-103 | the outcome of `verify_account` does not depend on `Account.validate` |
| Verification.UnverifiedBearerReachesCodeCheck | sanic_security/verification.py:67-105 | an unverified bearer with a valid session and the right code fails a plain attempt with `UnverifiedError`, before any code check; `verify_account` succeeds for it and marks it verified |
| Verification.VerifiedOnlyAfterCodeCheck | sanic_security/verification.py:102-105 | when the code check leaves account flags alone, a failed verification changes no `verified` flag, and a successful one sets exactly the bearer's |
| Verification.RequiresTwoStepVerification | sanic_security/verification.py:133-139 | the handler runs exactly when the attempt succeeded, with the verified session and the store the attempt left; a failed attempt is returned unchanged |

`RequestTwoStepVerification` states:

1. A decode failure that is not swallowed propagates, and nothing else happens.
2. A decoded prior session is deactivated first.
3. The account is looked up by the form's `email` only when none was passed.
4. A failed lookup propagates.
5. The factory runs last, on the store in which the prior session is inactive, for the passed account when there is one.
6. Its outcome is the request's outcome.
7. A session is created exactly when decoding and the account lookup both get through.

`VerifyAccount` states:

1. It uses the given session, else the decoded one, and then short-circuits in the order of `VerifySession`.
2. It never validates the bearer.
3. Its store changes only through the code check and, on success, the bearer's `verified` flag.

## Left out

- The models package is not part of this model. Its collaborators are parameters:
  - JWT encoding and decoding, and `TwoStepSession.decode`;
  - `Session.validate` and `Account.validate`;
  - `check_code`, with attempt counting, code hashing and the ceiling on attempts;
  - `Account.get_via_email`;
  - `SessionFactory.get`.

  No expiry or attempt-limit behaviour is asserted of them.
- `async`/`await`, database persistence and concurrency are not modelled. A `save(update_fields=...)` is the flag update it performs. A save that fails is not modelled.
- Changes `check_code` makes to the in-memory session object are not modelled beyond the store it returns.
- Extra positional and keyword arguments passed through `requires_two_step_verification` to the handler are not modelled.
- JSON response construction (`sanic_security.utils.json`) is not part of this model. A response is the record of its message, `error_type` and code.
- `JWTDecodeError` and the challenge errors named in the docstrings are not defined in the exceptions module, so their classes are not part of this model. They are faults of their own (`JwtDecodeFault`, `ForeignFault`).
- `float()` on strings, `sanic.utils.str_to_bool` and `str` of a value other than a string, int or bool (its `__str__`) are abstract. Their code is not part of this model.
- PyValues.AsStr: an object's `__str__` may raise; that is not modelled, because the chain reaches `str` only with strings.
- PyValues.AsFloat: the double nearest an int wider than 2^53 and below the overflow bound is the parameter `roundInt`; its rounding half to even is not modelled. The loaders never reach it, because `int` accepts every int first.
- `int()` on strings is modelled for ASCII whitespace and ASCII digits only. Python also accepts other Unicode whitespace and decimal digits.
- `int()`'s digit limit is its default, 4300. A limit changed with `sys.set_int_max_str_digits` or `PYTHONINTMAXSTRDIGITS` is not modelled, nor are Python versions before 3.11, which have no limit.
- App values of other types that `int` or `float` accept are not modelled: bytes, and objects with `__int__`, `__index__` or `__float__` (such as `Decimal` or `Fraction`). `PyObject` stands only for objects both reject with `TypeError`.
- Logging is not modelled.
- `Sanic.get_app()` is modelled only as an app config that is present or absent. Any exception it raises is an absent app config, as the bare `except` makes it.
- The `if [key]:` test inside the app loader is always true, so it is not modelled.
- `sanic_security/__init__.py` and `sanic_security/core/initializer.py` are not modelled. They hold extension registration, ORM selection and startup scheduling.
- The module-level `config = Config()` is not modelled.
- The attribute view `self.__dict__ = self` is not modelled.
- Configuration.DefaultSettings: states only the five numeric and refresh defaults. The other 23 defaults are spelled out in `DefaultConfig`, but no lemma restates them.
- Configuration.NewConfig: uses the corrected app loader (see Findings). With the as-written loader, `Config()` can raise, as `LoadAppVariablesAsWritten` states; the partly loaded config it leaves is then never returned.

## Findings

| source | as written | input that shows it | evidently intended | confidence | as-written member | corrected member |
|---|---|---|---|---|---|---|
| sanic_security/configuration.py:137-143 | every truthy app value, string or not, goes through `int` first | the app config holds `SANIC_SECURITY_X = 2.5`; it is stored as `2` (and `True` as `1`) | `int`/`float`/`str_to_bool` are meant to parse strings, as in the environment loader; non-string app values should be stored as given | low, not executed | Configuration.AsWrittenTruncatesFloats | Configuration.LoadAppVariables |
| sanic_security/configuration.py:137-143 | only `ValueError` is caught around each converter | a truthy app value that `int` rejects with `TypeError` (a list, a dict, a plain object): the `TypeError` escapes `Config()` | a value no converter applies to should be stored as given, not abort configuration | low, not executed | Configuration.AsWrittenRaisesOnObjects | Configuration.LoadAppVariables |
