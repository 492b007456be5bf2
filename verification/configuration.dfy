/**
 Configuration layering of sanic_security/configuration.py. A fresh
 configuration starts from the defaults, is overlaid by the prefixed keys of
 the Sanic app's config, then by the prefixed environment variables. Each
 non-empty value goes through the converter chain; an empty (falsy) one is
 stored as given.
 */
module Configuration {
  import opened Results
  import opened PyValues

  type Config = map<string, Value>

  /** The prefix both loaders filter keys by. */
  const Prefix := "SANIC_SECURITY_"

  const MaxChallengeAttemptsKey := "SANIC_SECURITY_MAX_CHALLENGE_ATTEMPTS"
  const CaptchaExpirationKey := "SANIC_SECURITY_CAPTCHA_SESSION_EXPIRATION"
  const TwoStepExpirationKey := "SANIC_SECURITY_TWO_STEP_SESSION_EXPIRATION"
  const AuthenticationExpirationKey := "SANIC_SECURITY_AUTHENTICATION_SESSION_EXPIRATION"
  const AuthenticationRefreshKey := "SANIC_SECURITY_AUTHENTICATION_SESSION_REFRESH"

  /** `DEFAULT_CONFIG`. */
  const DefaultConfig: Config := map[
    "SANIC_SECURITY_SECRET" := PyStr("This is a big secret. Shhhhh"),
    "SANIC_SECURITY_PUBLIC_SECRET" := PyNone,
    "SANIC_SECURITY_SESSION_SAMESITE" := PyStr("strict"),
    "SANIC_SECURITY_SESSION_SECURE" := PyBool(true),
    "SANIC_SECURITY_SESSION_HTTPONLY" := PyBool(true),
    "SANIC_SECURITY_SESSION_DOMAIN" := PyNone,
    "SANIC_SECURITY_SESSION_EXPIRES_ON_CLIENT" := PyBool(false),
    "SANIC_SECURITY_SESSION_PREFIX" := PyStr("token"),
    "SANIC_SECURITY_SESSION_ENCODING_ALGORITHM" := PyStr("HS256"),
    MaxChallengeAttemptsKey := PyInt(5),
    CaptchaExpirationKey := PyInt(60),
    "SANIC_SECURITY_CAPTCHA_FONT" := PyStr("captcha.ttf"),
    TwoStepExpirationKey := PyInt(200),
    AuthenticationExpirationKey := PyInt(2592000),
    AuthenticationRefreshKey := PyBool(true),
    "SANIC_SECURITY_ALLOW_LOGIN_WITH_USERNAME" := PyBool(false),
    "SANIC_SECURITY_INITIAL_ADMIN_EMAIL" := PyStr("admin@example.com"),
    "SANIC_SECURITY_INITIAL_ADMIN_PASSWORD" := PyStr("admin123"),
    "SANIC_SECURITY_INITIAL_ADMIN_PHONE" := PyStr("1111111111"),
    "SANIC_SECURITY_TEST_DATABASE_URL" := PyStr("sqlite://:memory:"),
    "SANIC_SECURITY_ORM" := PyStr("tortoise"),
    "SANIC_SECURITY_ACCOUNT" := PyNone,
    "SANIC_SECURITY_SESSION" := PyNone,
    "SANIC_SECURITY_ROLE" := PyNone,
    "SANIC_SECURITY_VERIFICATION_MODEL" := PyNone,
    "SANIC_SECURITY_TWOSTEP_MODEL" := PyNone,
    "SANIC_SECURITY_CAPTCHA_MODEL" := PyNone,
    "SANIC_SECURITY_AUTHENTICATION_MODEL" := PyNone
  ]

  /** The session lifetimes and challenge ceiling the defaults fix. */
  lemma DefaultSettings()
    ensures DefaultConfig[MaxChallengeAttemptsKey] == PyInt(5)
    ensures DefaultConfig[CaptchaExpirationKey] == PyInt(60)
    ensures DefaultConfig[TwoStepExpirationKey] == PyInt(200)
    ensures DefaultConfig[AuthenticationExpirationKey] == PyInt(2592000)
    ensures DefaultConfig[AuthenticationRefreshKey] == PyBool(true)
  {
  }

  // ---------------------------------------------------------------------
  // Sources are sequences of (key, value) items in iteration order; both are
  // Python mappings, so their keys are distinct.

  predicate DistinctKeys<X>(items: seq<(string, X)>)
  {
    forall i, j :: 0 <= i < j < |items| ==> items[i].0 != items[j].0
  }

  /** The keys of `items` that carry the prefix. */
  function PrefixedKeys<X>(items: seq<(string, X)>, prefix: string): set<string>
  {
    set i | 0 <= i < |items| && prefix <= items[i].0 :: items[i].0
  }

  /** One more item adds its key to the prefixed keys exactly when it carries the prefix. */
  lemma PrefixedKeysSnoc<X>(items: seq<(string, X)>, prefix: string)
    requires items != []
    ensures var last := items[|items| - 1];
      PrefixedKeys(items, prefix) == PrefixedKeys(items[..|items| - 1], prefix) + (if prefix <= last.0 then {last.0} else {})
  {
    var init := items[..|items| - 1];
    assert forall i :: 0 <= i < |init| ==> init[i] == items[i];
  }

  /**
   What overlaying `items` onto `cfg` means: the prefixed items written one
   after another, each through `setting`, a later write replacing an earlier one.
   */
  function Overlaid<X>(cfg: Config, items: seq<(string, X)>, prefix: string, setting: X -> Value): Config
  {
    if items == [] then cfg
    else
      var last := items[|items| - 1];
      var before := Overlaid(cfg, items[..|items| - 1], prefix, setting);
      if prefix <= last.0 then before[last.0 := setting(last.1)] else before
  }

  /** An overlay adds exactly the prefixed keys. */
  lemma {:induction false} OverlaidKeys<X>(cfg: Config, items: seq<(string, X)>, prefix: string, setting: X -> Value)
    ensures Overlaid(cfg, items, prefix, setting).Keys == cfg.Keys + PrefixedKeys(items, prefix)
  {
    if items != [] {
      OverlaidKeys(cfg, items[..|items| - 1], prefix, setting);
      PrefixedKeysSnoc(items, prefix);
    }
  }

  /** With distinct keys, every prefixed key ends up holding its own item's setting. */
  lemma {:induction false} OverlaidValues<X>(cfg: Config, items: seq<(string, X)>, prefix: string, setting: X -> Value)
    requires DistinctKeys(items)
    ensures forall i :: 0 <= i < |items| && prefix <= items[i].0 ==>
      items[i].0 in Overlaid(cfg, items, prefix, setting) && Overlaid(cfg, items, prefix, setting)[items[i].0] == setting(items[i].1)
  {
    if items != [] {
      var init := items[..|items| - 1];
      assert forall i :: 0 <= i < |init| ==> init[i] == items[i];
      OverlaidValues(cfg, init, prefix, setting);
    }
  }

  /** Keys of `cfg` that no item overrides keep their value. */
  lemma {:induction false} OverlaidKeeps<X>(cfg: Config, items: seq<(string, X)>, prefix: string, setting: X -> Value)
    ensures forall k :: k in cfg && k !in PrefixedKeys(items, prefix) ==>
      k in Overlaid(cfg, items, prefix, setting) && Overlaid(cfg, items, prefix, setting)[k] == cfg[k]
  {
    if items != [] {
      OverlaidKeeps(cfg, items[..|items| - 1], prefix, setting);
      PrefixedKeysSnoc(items, prefix);
    }
  }

  /** The value `load_environment_variables` stores for a prefixed variable. */
  function EnvSetting(b: Builtins, s: string): (v: Value)
    ensures s == [] ==> v == PyStr(s)
    ensures s != [] ==> Coerce(b, PyStr(s)) == Converted(v)
  {
    if s == [] then PyStr(s)
    else
      CoerceString(b, s);
      Coerce(b, PyStr(s)).value
  }

  /**
   The value the app loader stores for a prefixed key, as corrected: a string
   is treated as the environment loader treats it, and any other value is
   stored as given.
   */
  function AppSetting(b: Builtins, v: Value): (r: Value)
    ensures !v.PyStr? ==> r == v
    ensures v.PyStr? ==> r == EnvSetting(b, v.s)
  {
    if v.PyStr? then EnvSetting(b, v.s) else v
  }

  /**
   What `load_app_variables` as written does with a prefixed value: a falsy one
   is stored as given, anything else, string or not, goes through the chain,
   which either settles on a value or raises.
   */
  function AppAttemptAsWritten(b: Builtins, v: Value): (r: Result<Value, Uncaught>)
    ensures !Truthy(v) ==> r == Ok(v)
    ensures Truthy(v) ==> (r.Ok? <==> Coerce(b, v).Converted?)
    ensures Truthy(v) && r.Ok? ==> Coerce(b, v) == Converted(r.value)
    ensures Truthy(v) && r.Err? ==> Coerce(b, v) == Raised(r.error)
  {
    if !Truthy(v) then Ok(v)
    else
      match Coerce(b, v)
      case Converted(x) => Ok(x)
      case Raised(e) => Err(e)
  }

  /** The as-written treatment of app values, as a converter of its own. */
  function AsWrittenChain(b: Builtins): Value -> Result<Value, Uncaught>
  {
    v => AppAttemptAsWritten(b, v)
  }

  /**
   Writes each prefixed item through `setting`, in order; other keys of `cfg`
   are left alone, and items without the prefix are skipped.
   */
  method Overlay<X>(cfg: Config, items: seq<(string, X)>, prefix: string, setting: X -> Value) returns (r: Config)
    requires DistinctKeys(items)
    ensures r == Overlaid(cfg, items, prefix, setting)
    ensures r.Keys == cfg.Keys + PrefixedKeys(items, prefix)
    ensures forall i :: 0 <= i < |items| && prefix <= items[i].0 ==> r[items[i].0] == setting(items[i].1)
    ensures forall k :: k in cfg && k !in PrefixedKeys(items, prefix) ==> r[k] == cfg[k]
  {
    r := cfg;
    var n := 0;
    while n < |items|
      invariant n <= |items|
      invariant r == Overlaid(cfg, items[..n], prefix, setting)
    {
      var (key, value) := items[n];
      assert items[..n + 1][..n] == items[..n];
      if prefix <= key {
        r := r[key := setting(value)];
      }
      n := n + 1;
    }
    assert items[..n] == items;
    OverlaidKeys(cfg, items, prefix, setting);
    OverlaidValues(cfg, items, prefix, setting);
    OverlaidKeeps(cfg, items, prefix, setting);
  }

  /** `load_environment_variables`. */
  method LoadEnvironmentVariables(cfg: Config, environ: seq<(string, string)>, b: Builtins, prefix: string)
    returns (r: Config)
    requires DistinctKeys(environ)
    ensures r.Keys == cfg.Keys + PrefixedKeys(environ, prefix)
    ensures forall i :: 0 <= i < |environ| && prefix <= environ[i].0 ==> r[environ[i].0] == EnvSetting(b, environ[i].1)
    ensures forall k :: k in cfg && k !in PrefixedKeys(environ, prefix) ==> r[k] == cfg[k]
  {
    r := Overlay(cfg, environ, prefix, s => EnvSetting(b, s));
  }

  /**
   `load_app_variables`, corrected so that non-string values are stored as
   given. `app` is the app's config items, `None` when no Sanic app can be
   obtained.
   */
  method LoadAppVariables(cfg: Config, app: Option<seq<(string, Value)>>, b: Builtins, prefix: string)
    returns (r: Config)
    requires app.Some? ==> DistinctKeys(app.value)
    ensures app.None? ==> r == cfg
    ensures app.Some? ==> r.Keys == cfg.Keys + PrefixedKeys(app.value, prefix)
    ensures app.Some? ==> forall i :: 0 <= i < |app.value| && prefix <= app.value[i].0 ==>
      r[app.value[i].0] == AppSetting(b, app.value[i].1)
    ensures app.Some? ==> forall k :: k in cfg && k !in PrefixedKeys(app.value, prefix) ==> r[k] == cfg[k]
  {
    if app.None? {
      return cfg;
    }
    r := Overlay(cfg, app.value, prefix, v => AppSetting(b, v));
  }

  /** Item `i` carries the prefix and `attempt` fails on its value. */
  predicate RaisesAt<X, E>(items: seq<(string, X)>, prefix: string, attempt: X -> Result<Value, E>, i: int)
  {
    0 <= i < |items| && prefix <= items[i].0 && attempt(items[i].1).Err?
  }

  /** Item `i` is the first one at which the load fails. */
  predicate FirstRaiseAt<X, E>(items: seq<(string, X)>, prefix: string, attempt: X -> Result<Value, E>, i: int)
  {
    RaisesAt(items, prefix, attempt, i) && forall j :: 0 <= j < i ==> !RaisesAt(items, prefix, attempt, j)
  }

  /**
   `load_app_variables` as written. The first prefixed item whose conversion
   raises something other than ValueError ends the load with that exception
   (`raised`); the items before it have already been written into the config
   (`r`), which is updated in place.
   */
  method LoadAppVariablesAsWritten(cfg: Config, app: Option<seq<(string, Value)>>, b: Builtins, prefix: string)
    returns (r: Config, raised: Option<Uncaught>)
    requires app.Some? ==> DistinctKeys(app.value)
    ensures app.None? ==> r == cfg && raised.None?
    ensures app.Some? ==> (raised.Some? <==> exists i :: RaisesAt(app.value, prefix, AsWrittenChain(b), i))
    ensures raised.Some? ==>
      && app.Some?
      && exists i ::
           && FirstRaiseAt(app.value, prefix, AsWrittenChain(b), i)
           && Err(raised.value) == AppAttemptAsWritten(b, app.value[i].1)
           && r == Overlaid(cfg, app.value[..i], prefix, Settled(AsWrittenChain(b)))
    ensures raised.None? && app.Some? ==> r.Keys == cfg.Keys + PrefixedKeys(app.value, prefix)
    ensures raised.None? && app.Some? ==> forall i :: 0 <= i < |app.value| && prefix <= app.value[i].0 ==>
      Ok(r[app.value[i].0]) == AppAttemptAsWritten(b, app.value[i].1)
    ensures raised.None? && app.Some? ==> forall k :: k in cfg && k !in PrefixedKeys(app.value, prefix) ==> r[k] == cfg[k]
  {
    if app.None? {
      return cfg, None;
    }
    r, raised := OverlayOrRaise(cfg, app.value, prefix, AsWrittenChain(b));
  }

  /**
   Like `Overlay`, but the value written is `attempt`'s, and the first prefixed
   item on which `attempt` fails ends the loop with that failure, leaving the
   config as the items before it made it.
   */
  method OverlayOrRaise<X, E>(cfg: Config, items: seq<(string, X)>, prefix: string, attempt: X -> Result<Value, E>)
    returns (r: Config, raised: Option<E>)
    requires DistinctKeys(items)
    ensures raised.Some? <==> exists i :: RaisesAt(items, prefix, attempt, i)
    ensures raised.Some? ==>
      exists i ::
        && FirstRaiseAt(items, prefix, attempt, i)
        && Err(raised.value) == attempt(items[i].1)
        && r == Overlaid(cfg, items[..i], prefix, Settled(attempt))
    ensures raised.None? ==> r.Keys == cfg.Keys + PrefixedKeys(items, prefix)
    ensures raised.None? ==> forall i :: 0 <= i < |items| && prefix <= items[i].0 ==> Ok(r[items[i].0]) == attempt(items[i].1)
    ensures raised.None? ==> forall k :: k in cfg && k !in PrefixedKeys(items, prefix) ==> r[k] == cfg[k]
  {
    r := cfg;
    var n := 0;
    while n < |items|
      invariant n <= |items|
      invariant forall j :: 0 <= j < n ==> !RaisesAt(items, prefix, attempt, j)
      invariant r == Overlaid(cfg, items[..n], prefix, Settled(attempt))
    {
      var (key, value) := items[n];
      assert items[..n + 1][..n] == items[..n];
      if prefix <= key {
        var outcome := attempt(value);
        if outcome.Err? {
          assert FirstRaiseAt(items, prefix, attempt, n);
          return r, Some(outcome.error);
        }
        r := r[key := outcome.value];
      }
      n := n + 1;
    }
    assert items[..n] == items;
    OverlaidKeys(cfg, items, prefix, Settled(attempt));
    OverlaidValues(cfg, items, prefix, Settled(attempt));
    OverlaidKeeps(cfg, items, prefix, Settled(attempt));
    forall i | 0 <= i < |items| && prefix <= items[i].0
      ensures Ok(r[items[i].0]) == attempt(items[i].1)
    {
      assert !RaisesAt(items, prefix, attempt, i);
    }
    raised := None;
  }

  /** The value an attempt settles on; where it fails nothing is written, so `None` there is never seen. */
  function Settled<X, E>(attempt: X -> Result<Value, E>): X -> Value
  {
    x => if attempt(x).Ok? then attempt(x).value else PyNone
  }

  /** The keys a source overrides: its prefixed keys, none when the source is absent. */
  function OverriddenBy(app: Option<seq<(string, Value)>>): set<string>
  {
    if app.None? then {} else PrefixedKeys(app.value, Prefix)
  }

  /**
   `Config()`: the defaults, overlaid by the app's prefixed keys, then by the
   prefixed environment variables; a later source wins key by key.
   */
  method NewConfig(app: Option<seq<(string, Value)>>, environ: seq<(string, string)>, b: Builtins)
    returns (cfg: Config)
    requires app.Some? ==> DistinctKeys(app.value)
    requires DistinctKeys(environ)
    ensures cfg.Keys == DefaultConfig.Keys + OverriddenBy(app) + PrefixedKeys(environ, Prefix)
    ensures forall i :: 0 <= i < |environ| && Prefix <= environ[i].0 ==>
      cfg[environ[i].0] == EnvSetting(b, environ[i].1)
    ensures app.Some? ==> forall i :: (0 <= i < |app.value| && Prefix <= app.value[i].0
      && app.value[i].0 !in PrefixedKeys(environ, Prefix)) ==> cfg[app.value[i].0] == AppSetting(b, app.value[i].1)
    ensures forall k :: k in DefaultConfig && k !in OverriddenBy(app) && k !in PrefixedKeys(environ, Prefix) ==>
      cfg[k] == DefaultConfig[k]
  {
    var withApp := LoadAppVariables(DefaultConfig, app, b, Prefix);
    cfg := LoadEnvironmentVariables(withApp, environ, b, Prefix);
  }

  // ---------------------------------------------------------------------
  // What individual values become.

  /** Every non-empty string ends up stored, because `str` gives back any string the other converters refuse. */
  lemma NonEmptyStringsAreStored(b: Builtins, s: string)
    requires s != []
    ensures Coerce(b, PyStr(s)).Converted?
    ensures b.parseFloat(s).None? && b.strToBool(s).None? && ParseInt(s).None? ==> EnvSetting(b, s) == PyStr(s)
  {
    CoerceString(b, s);
  }

  /** A prefixed environment value becomes an integer exactly when `int` accepts it, and then that integer. */
  lemma EnvIntegers(b: Builtins, s: string)
    ensures EnvSetting(b, s).PyInt? <==> ParseInt(s).Some?
    ensures ParseInt(s).Some? ==> EnvSetting(b, s) == PyInt(ParseInt(s).value)
  {
    if s != [] {
      CoerceString(b, s);
    }
  }

  /**
   A numeral such as "1" or "5" becomes an integer, never a bool or a string,
   exactly when it is within `int`'s digit limit; a longer one never becomes an
   integer at all.
   */
  lemma NumeralsBecomeIntegers(b: Builtins, n: int)
    ensures EnvSetting(b, Render(n)) == PyInt(n) <==> Digits(n) <= MaxStrDigits
    ensures AppSetting(b, PyStr(Render(n))) == PyInt(n) <==> Digits(n) <= MaxStrDigits
    ensures Digits(n) > MaxStrDigits ==> !EnvSetting(b, Render(n)).PyInt?
  {
    CoerceNumeral(b, n);
    ParseRender(n);
    EnvIntegers(b, Render(n));
  }

  /** A numeral padded with whitespace, as environment values often are, still becomes that integer. */
  lemma PaddedNumeralsBecomeIntegers(b: Builtins, pre: string, n: int, post: string)
    requires AllSpace(pre) && AllSpace(post)
    ensures EnvSetting(b, pre + Render(n) + post) == PyInt(n) <==> Digits(n) <= MaxStrDigits
  {
    ParseRender(n);
    ParseIgnoresSurroundingSpace(pre, Render(n), post);
    EnvIntegers(b, pre + Render(n) + post);
  }

  /** For string values the correction changes nothing: both loaders store the same value. */
  lemma CorrectionAgreesOnStrings(b: Builtins, s: string)
    ensures AppAttemptAsWritten(b, PyStr(s)) == Ok(AppSetting(b, PyStr(s)))
  {
    if s != [] {
      CoerceString(b, s);
    }
  }

  /**
   What the as-written loader makes of each kind of non-string app value, and
   that it agrees with the corrected one, which keeps them all, exactly on falsy
   values, integers and NaN.
   */
  lemma AsWrittenOnNonStrings(b: Builtins, v: Value)
    ensures !Truthy(v) ==> AppAttemptAsWritten(b, v) == Ok(v)
    ensures v == PyBool(true) ==> AppAttemptAsWritten(b, v) == Ok(PyInt(1))
    ensures v.PyInt? ==> AppAttemptAsWritten(b, v) == Ok(v)
    ensures v.PyFloat? && v.d.Finite? && v.d.x != 0.0 ==> AppAttemptAsWritten(b, v) == Ok(PyInt(Trunc(v.d.x)))
    ensures v.PyFloat? && v.d.Infinite? ==> AppAttemptAsWritten(b, v) == Err(OverflowError)
    ensures v == PyFloat(NaN) ==> AppAttemptAsWritten(b, v) == Ok(v)
    ensures v == PyObject(true) ==> AppAttemptAsWritten(b, v) == Err(TypeError)
    ensures !v.PyStr? ==> (AppAttemptAsWritten(b, v) == Ok(AppSetting(b, v)) <==> !Truthy(v) || v.PyInt? || v == PyFloat(NaN))
  {
    var cs := Converters(b);
    assert cs[0](v) == AsInt(v);
    assert cs[1](v) == AsFloat(b, v);
    if Truthy(v) && !v.PyStr? {
      if v == PyFloat(NaN) {
        assert FirstAccepted(cs, v) == 1;
      } else {
        assert FirstAccepted(cs, v) == 0;
      }
    }
  }

  /** As written, a float app value such as 2.5 is truncated to the integer 2; corrected, it is kept. */
  lemma AsWrittenTruncatesFloats(b: Builtins)
    ensures AppAttemptAsWritten(b, PyFloat(Finite(2.5))) == Ok(PyInt(2))
    ensures AppSetting(b, PyFloat(Finite(2.5))) == PyFloat(Finite(2.5))
  {
    var cs := Converters(b);
    assert cs[0](PyFloat(Finite(2.5))) == Converted(PyInt(2));
  }

  /** As written, a truthy value of no numeric or string type makes the load raise TypeError; corrected, it is kept. */
  lemma AsWrittenRaisesOnObjects(b: Builtins)
    ensures AppAttemptAsWritten(b, PyObject(true)) == Err(TypeError)
    ensures AppSetting(b, PyObject(true)) == PyObject(true)
  {
    var cs := Converters(b);
    assert cs[0](PyObject(true)) == Raised(TypeError);
  }
}
