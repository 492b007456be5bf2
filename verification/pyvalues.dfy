/**
 The Python values a configuration source can hold, their truthiness, and the
 four converters the configuration loaders try in turn: `int`, `float`,
 `str_to_bool` and `str`. `int` on strings is modelled here in full; float
 parsing, rounding a large int to a float, `str_to_bool` and `str` of a
 non-string are parameters (`Builtins`).
 */
module PyValues {
  import opened Results

  /** A Python float: finite, an infinity, or NaN. */
  datatype Double = Finite(x: real) | Infinite(negative: bool) | NaN

  /**
   A Python value of the kinds the loaders treat differently: None, bool, int,
   float, str, and `PyObject`, an object that `int` and `float` reject with
   TypeError and that has no `lower` method (a list, a dict, a class, a plain
   instance), of which only the truthiness matters here.
   */
  datatype Value =
    | PyNone
    | PyBool(b: bool)
    | PyInt(i: int)
    | PyFloat(d: Double)
    | PyStr(s: string)
    | PyObject(truthy: bool)

  /** Exceptions a converter can raise other than `ValueError`, which the loaders do not catch. */
  datatype Uncaught = TypeError | OverflowError | AttributeError

  /** Applying one converter: a value, a (caught) `ValueError`, or an uncaught exception. */
  datatype Attempt = Converted(value: Value) | ValueError | Raised(error: Uncaught)

  /**
   The library functions whose code is not part of this model: float parsing
   (`None` when `float(s)` raises ValueError), `sanic.utils.str_to_bool` (`None`
   when it raises ValueError), the double nearest an int too wide to be
   represented exactly (`roundInt`), and `str` of values other than strings, ints
   and bools, which calls their `__str__` (`toStr`).
   */
  datatype Builtins = Builtins(
    parseFloat: string -> Option<Double>,
    roundInt: int -> real,
    strToBool: string -> Option<bool>,
    toStr: Value -> string)

  /** Python's `bool(v)`. */
  predicate Truthy(v: Value)
  {
    match v
    case PyNone => false
    case PyBool(b) => b
    case PyInt(i) => i != 0
    case PyFloat(d) => !(d.Finite? && d.x == 0.0)
    case PyStr(s) => s != []
    case PyObject(t) => t
  }

  // ---------------------------------------------------------------------
  // int() on strings: optional surrounding whitespace, optional sign, then
  // decimal digits with single underscores allowed between digits.

  predicate IsSpace(c: char)
  {
    c == ' ' || c == '\t' || c == '\n' || c == '\r' || c == '\U{000B}' || c == '\U{000C}'
  }

  predicate AllSpace(s: string)
  {
    forall i :: 0 <= i < |s| ==> IsSpace(s[i])
  }

  predicate IsDigit(c: char)
  {
    '0' <= c <= '9'
  }

  function DigitValue(c: char): nat
    requires IsDigit(c)
  {
    (c as int) - ('0' as int)
  }

  function DigitChar(d: nat): (c: char)
    requires d < 10
    ensures IsDigit(c) && DigitValue(c) == d
  {
    "0123456789"[d]
  }

  /** `s` with leading whitespace removed: a suffix of `s` whose dropped part is all whitespace. */
  function StripStart(s: string): (r: string)
    ensures |r| <= |s| && r == s[|s| - |r|..]
    ensures AllSpace(s[..|s| - |r|])
    ensures r == [] || !IsSpace(r[0])
  {
    if |s| > 0 && IsSpace(s[0]) then
      var t := s[1..];
      var r := StripStart(t);
      assert s[..|s| - |r|] == [s[0]] + t[..|t| - |r|];
      assert r == s[|s| - |r|..];
      r
    else
      assert s[..0] == [];
      s
  }

  /** `s` with trailing whitespace removed: a prefix of `s` whose dropped part is all whitespace. */
  function StripEnd(s: string): (r: string)
    ensures |r| <= |s| && r == s[..|r|]
    ensures AllSpace(s[|r|..])
    ensures r == [] || !IsSpace(r[|r| - 1])
  {
    if |s| > 0 && IsSpace(s[|s| - 1]) then
      var t := s[..|s| - 1];
      var r := StripEnd(t);
      assert s[|r|..] == t[|r|..] + [s[|s| - 1]];
      assert r == s[..|r|];
      r
    else
      assert s[|s|..] == [];
      s
  }

  function Strip(s: string): string
  {
    StripEnd(StripStart(s))
  }

  /** Decimal digits, possibly grouped by single underscores, starting and ending with a digit. */
  predicate DigitGroups(s: string)
  {
    && |s| > 0
    && IsDigit(s[0])
    && IsDigit(s[|s| - 1])
    && (forall i :: 0 <= i < |s| ==> IsDigit(s[i]) || s[i] == '_')
    && (forall i :: 0 <= i < |s| - 1 && s[i] == '_' ==> IsDigit(s[i + 1]))
  }

  /** The number a run of digits and underscores denotes, underscores ignored. */
  function DigitsValue(s: string): nat
    requires forall i :: 0 <= i < |s| ==> IsDigit(s[i]) || s[i] == '_'
  {
    if s == [] then 0
    else if s[|s| - 1] == '_' then DigitsValue(s[..|s| - 1])
    else 10 * DigitsValue(s[..|s| - 1]) + DigitValue(s[|s| - 1])
  }

  /**
   The default of `sys.get_int_max_str_digits()`: `int` raises ValueError on a
   decimal string with more digits than this.
   */
  const MaxStrDigits := 4300

  /** The number of digits in `s`, underscores not counted, as `int` counts them against the limit. */
  function DigitCount(s: string): nat
  {
    if s == [] then 0 else DigitCount(s[..|s| - 1]) + (if IsDigit(s[|s| - 1]) then 1 else 0)
  }

  lemma {:induction false} AllDigitsCount(s: string)
    requires forall i :: 0 <= i < |s| ==> IsDigit(s[i])
    ensures DigitCount(s) == |s|
  {
    if s != [] {
      AllDigitsCount(s[..|s| - 1]);
    }
  }

  /** Python's `int(s)` for a string: `None` where it raises ValueError. */
  function ParseInt(s: string): Option<int>
  {
    ParseStripped(Strip(s))
  }

  /**
   `int` on a string already stripped of surrounding whitespace: an optional
   sign, then digit groups of at most `MaxStrDigits` digits in all.
   */
  function ParseStripped(t: string): Option<int>
  {
    var signed := |t| > 0 && (t[0] == '+' || t[0] == '-');
    var digits := if signed then t[1..] else t;
    if DigitGroups(digits) && DigitCount(digits) <= MaxStrDigits then
      var n: int := DigitsValue(digits);
      Some(if signed && t[0] == '-' then -n else n)
    else None
  }

  /** The decimal rendering of a non-negative integer. */
  function RenderNat(n: nat): (r: string)
    ensures |r| > 0 && IsDigit(r[0])
    ensures forall i :: 0 <= i < |r| ==> IsDigit(r[i])
  {
    if n < 10 then [DigitChar(n)] else RenderNat(n / 10) + [DigitChar(n % 10)]
  }

  function Abs(n: int): nat
  {
    if n < 0 then -n else n
  }

  /** How many decimal digits the rendering of `n` has, the sign not counted. */
  function Digits(n: int): nat
  {
    |RenderNat(Abs(n))|
  }

  /**
   The decimal rendering of an integer, which is what `str(n)` gives when it
   is within the digit limit; beyond it `str` raises ValueError.
   */
  function Render(n: int): string
  {
    if n < 0 then "-" + RenderNat(-n) else RenderNat(n)
  }

  lemma {:induction false} DigitsValueOfRender(n: nat)
    ensures DigitsValue(RenderNat(n)) == n
  {
    if n >= 10 {
      var r := RenderNat(n);
      assert r[..|r| - 1] == RenderNat(n / 10);
      DigitsValueOfRender(n / 10);
    }
  }

  /**
   `int` turns the decimal rendering of every integer within the digit limit
   back into that integer; beyond the limit it refuses the rendering.
   */
  lemma ParseRender(n: int)
    ensures ParseInt(Render(n)) == if Digits(n) <= MaxStrDigits then Some(n) else None
  {
    RenderUnpadded(n);
    var r := RenderNat(Abs(n));
    DigitsValueOfRender(Abs(n));
    if n < 0 {
      ParseNegatedRender(r);
      assert Render(n) == "-" + r;
    } else {
      ParseUnsignedRender(r);
      assert Render(n) == r;
    }
  }

  /** A run of digits parses to its value when it is within the limit. */
  lemma ParseUnsignedRender(r: string)
    requires |r| > 0 && forall i :: 0 <= i < |r| ==> IsDigit(r[i])
    ensures ParseStripped(r) == if |r| <= MaxStrDigits then Some(DigitsValue(r) as int) else None
  {
    assert DigitGroups(r);
    AllDigitsCount(r);
    ParseUnsigned(r);
  }

  /** So does the same run behind a minus sign, negated. */
  lemma ParseNegatedRender(r: string)
    requires |r| > 0 && forall i :: 0 <= i < |r| ==> IsDigit(r[i])
    ensures ParseStripped("-" + r) == if |r| <= MaxStrDigits then Some(-(DigitsValue(r) as int)) else None
  {
    assert DigitGroups(r);
    AllDigitsCount(r);
    ParseNegated(r);
  }

  /** A rendering has no surrounding whitespace, so `int` parses it as it stands. */
  lemma RenderUnpadded(n: int)
    ensures ParseInt(Render(n)) == ParseStripped(Render(n))
  {
    var r := RenderNat(Abs(n));
    var t := Render(n);
    assert t[|t| - 1] == r[|r| - 1];
    StripUnpadded(t);
  }

  /** Unsigned digit groups parse to their value exactly when their digits are within the limit. */
  lemma ParseUnsigned(r: string)
    requires DigitGroups(r)
    ensures ParseStripped(r) == if DigitCount(r) <= MaxStrDigits then Some(DigitsValue(r)) else None
  {
    assert IsDigit(r[0]);
  }

  /** The same behind a minus sign, negated. */
  lemma ParseNegated(r: string)
    requires DigitGroups(r)
    ensures ParseStripped("-" + r) == if DigitCount(r) <= MaxStrDigits then Some(-(DigitsValue(r) as int)) else None
  {
    var t := "-" + r;
    assert t[0] == '-' && t[1..] == r;
  }

  /** A string that neither starts nor ends with whitespace is its own strip. */
  lemma StripUnpadded(s: string)
    requires s != [] ==> !IsSpace(s[0]) && !IsSpace(s[|s| - 1])
    ensures Strip(s) == s
  {
    assert StripStart(s) == s;
  }

  /** Whitespace around a literal does not change what `int` makes of it. */
  lemma ParseIgnoresSurroundingSpace(pre: string, s: string, post: string)
    requires AllSpace(pre) && AllSpace(post)
    ensures ParseInt(pre + s + post) == ParseInt(s)
  {
    assert pre + s + post == pre + (s + post);
    StripStartSpaces(pre, s + post);
    StripAroundSpaces(s, post);
    assert Strip(pre + s + post) == Strip(s);
  }

  lemma {:induction false} StripStartSpaces(pre: string, s: string)
    requires AllSpace(pre)
    ensures StripStart(pre + s) == StripStart(s)
  {
    if pre == [] {
      assert pre + s == s;
    } else {
      assert (pre + s)[0] == pre[0];
      assert (pre + s)[1..] == pre[1..] + s;
      StripStartSpaces(pre[1..], s);
    }
  }

  lemma {:induction false} StripEndSpaces(s: string, post: string)
    requires AllSpace(post)
    ensures StripEnd(s + post) == StripEnd(s)
    decreases |post|
  {
    if post == [] {
      assert s + post == s;
    } else {
      var p := post[..|post| - 1];
      assert (s + post)[|s + post| - 1] == post[|post| - 1];
      assert (s + post)[..|s + post| - 1] == s + p;
      StripEndSpaces(s, p);
    }
  }

  /** Stripping `s + post` is stripping `s`, when `post` is whitespace. */
  lemma StripAroundSpaces(s: string, post: string)
    requires AllSpace(post)
    ensures Strip(s + post) == Strip(s)
  {
    var t := StripStart(s);
    if t == [] {
      assert AllSpace(s);
      assert AllSpace(s + post);
      StripStartSpaces(s + post, []);
      assert s + post + [] == s + post;
      StripStartSpaces(s, []);
      assert s + [] == s;
    } else {
      var k := |s| - |t|;
      assert s == s[..k] + t;
      assert s + post == s[..k] + (t + post);
      StripStartSpaces(s[..k], t + post);
      StripStartSpaces(s[..k], t);
      assert StripStart(t + post) == t + post;
      StripEndSpaces(t, post);
    }
  }

  // ---------------------------------------------------------------------
  // The converters and the chain that tries them in order.

  /** Truncation toward zero, as `int(x)` does for a finite float: the integer nearest zero within 1 of `x`. */
  function Trunc(x: real): (r: int)
    ensures 0.0 <= x ==> 0 <= r && r as real <= x < r as real + 1.0
    ensures x < 0.0 ==> r <= 0 && r as real - 1.0 < x <= r as real
  {
    if x >= 0.0 then x.Floor else -((-x).Floor)
  }

  /**
   `int(v)`: an int or nothing; ValueError exactly on a string `int` refuses
   and on NaN; OverflowError on an infinity; TypeError on None and objects.
   */
  function AsInt(v: Value): (r: Attempt)
    ensures r.Converted? ==> r.value.PyInt?
    ensures r.ValueError? <==> (v.PyStr? && ParseInt(v.s).None?) || v == PyFloat(NaN)
    ensures r.Raised? <==> v.PyNone? || v.PyObject? || (v.PyFloat? && v.d.Infinite?)
    ensures r.Raised? ==> r.error == (if v.PyFloat? then OverflowError else TypeError)
  {
    match v
    case PyStr(s) => if ParseInt(s).Some? then Converted(PyInt(ParseInt(s).value)) else ValueError
    case PyInt(i) => Converted(PyInt(i))
    case PyBool(b) => Converted(PyInt(if b then 1 else 0))
    case PyFloat(Finite(x)) => Converted(PyInt(Trunc(x)))
    case PyFloat(Infinite(_)) => Raised(OverflowError)
    case PyFloat(NaN) => ValueError
    case PyNone => Raised(TypeError)
    case PyObject(_) => Raised(TypeError)
  }

  const TwoTo64: int := 0x1_0000_0000_0000_0000
  const TwoTo1024: int := TwoTo64 * TwoTo64 * TwoTo64 * TwoTo64 * TwoTo64 * TwoTo64 * TwoTo64 * TwoTo64
    * TwoTo64 * TwoTo64 * TwoTo64 * TwoTo64 * TwoTo64 * TwoTo64 * TwoTo64 * TwoTo64

  /** Every int of at most 2^53 in magnitude is exactly a double. */
  const MaxExactInt: int := 0x20_0000_0000_0000

  /**
   2^1024 - 2^970, the least magnitude that rounds (half to even, to 53 bits)
   to 2^1024, past the largest double, so that `float` of an int this wide
   raises OverflowError.
   */
  const IntOverflowBound: int := TwoTo1024 - TwoTo1024 / 0x40_0000_0000_0000

  /**
   `float(v)`: a float or nothing; ValueError only on strings; TypeError
   exactly on None and objects; OverflowError exactly on an int too wide for a
   double. An int of at most 2^53 in magnitude converts exactly.
   */
  function AsFloat(b: Builtins, v: Value): (r: Attempt)
    ensures r.Converted? ==> r.value.PyFloat?
    ensures r.ValueError? ==> v.PyStr?
    ensures r.Raised? <==> v.PyNone? || v.PyObject? || (v.PyInt? && Abs(v.i) >= IntOverflowBound)
    ensures r.Raised? ==> r.error == (if v.PyInt? then OverflowError else TypeError)
    ensures v.PyBool? || v.PyFloat? ==> r.Converted?
    ensures v.PyInt? && Abs(v.i) <= MaxExactInt ==> r == Converted(PyFloat(Finite(v.i as real)))
  {
    match v
    case PyStr(s) => if b.parseFloat(s).Some? then Converted(PyFloat(b.parseFloat(s).value)) else ValueError
    case PyInt(i) =>
      if Abs(i) <= MaxExactInt then Converted(PyFloat(Finite(i as real)))
      else if Abs(i) < IntOverflowBound then Converted(PyFloat(Finite(b.roundInt(i))))
      else Raised(OverflowError)
    case PyBool(t) => Converted(PyFloat(Finite(if t then 1.0 else 0.0)))
    case PyFloat(d) => Converted(PyFloat(d))
    case PyNone => Raised(TypeError)
    case PyObject(_) => Raised(TypeError)
  }

  /**
   `str_to_bool(v)`; it lower-cases its argument first, which only strings
   support, so every other value raises AttributeError.
   */
  function AsBool(b: Builtins, v: Value): (r: Attempt)
    ensures r.Converted? ==> r.value.PyBool?
    ensures r.Raised? <==> !v.PyStr?
    ensures r.Raised? ==> r.error == AttributeError
  {
    match v
    case PyStr(s) => if b.strToBool(s).Some? then Converted(PyBool(b.strToBool(s).value)) else ValueError
    case _ => Raised(AttributeError)
  }

  /**
   `str(v)`: a string back unchanged, an int within the digit limit as its
   decimal rendering, a bool as its name; ValueError exactly on an int wider
   than the limit; it raises nothing else.
   */
  function AsStr(b: Builtins, v: Value): (r: Attempt)
    ensures r.Converted? ==> r.value.PyStr?
    ensures r.ValueError? <==> v.PyInt? && Digits(v.i) > MaxStrDigits
    ensures !r.Raised?
    ensures v.PyStr? ==> r == Converted(v)
    ensures v.PyInt? && Digits(v.i) <= MaxStrDigits ==> r == Converted(PyStr(Render(v.i)))
    ensures v.PyBool? ==> r == Converted(PyStr(if v.b then "True" else "False"))
  {
    match v
    case PyStr(s) => Converted(v)
    case PyInt(i) => if Digits(i) > MaxStrDigits then ValueError else Converted(PyStr(Render(i)))
    case PyBool(t) => Converted(PyStr(if t then "True" else "False"))
    case _ => Converted(PyStr(b.toStr(v)))
  }

  /** `int(str(n)) == n` whenever `str` accepts `n`, and `str` accepts exactly the ints `int` can read back. */
  lemma StrIntRoundTrip(b: Builtins, n: int)
    ensures AsStr(b, PyInt(n)).Converted? ==> AsInt(AsStr(b, PyInt(n)).value) == Converted(PyInt(n))
    ensures AsStr(b, PyInt(n)).Converted? <==> AsInt(PyStr(Render(n))).Converted?
  {
    ParseRender(n);
  }

  /** The converters in the order the loaders try them. */
  function Converters(b: Builtins): seq<Value -> Attempt>
  {
    [AsInt, v => AsFloat(b, v), v => AsBool(b, v), v => AsStr(b, v)]
  }

  /**
   The `for converter in ...: try ... break / except ValueError: pass` loop:
   the index of the converter whose result is kept, the first one that does
   not raise ValueError; `|converters|` when every one of them does.
   */
  function FirstAccepted(converters: seq<Value -> Attempt>, v: Value): (i: nat)
    ensures i <= |converters|
    ensures forall j :: 0 <= j < i ==> converters[j](v).ValueError?
    ensures i < |converters| ==> !converters[i](v).ValueError?
    decreases |converters|
  {
    if converters == [] then 0
    else if !converters[0](v).ValueError? then 0
    else 1 + FirstAccepted(converters[1..], v)
  }

  /**
   What the converter chain makes of a value. The chain always settles:
   `int` accepts every int, and `str` raises ValueError on nothing else.
   */
  function Coerce(b: Builtins, v: Value): (r: Attempt)
    ensures !r.ValueError?
  {
    var cs := Converters(b);
    assert !cs[0](v).ValueError? || !cs[3](v).ValueError?;
    cs[FirstAccepted(cs, v)](v)
  }

  /**
   On a string the chain yields an int when `int` accepts it, else a float when
   `float` does, else a bool when `str_to_bool` does, else the string itself;
   it never raises.
   */
  lemma CoerceString(b: Builtins, s: string)
    ensures ParseInt(s).Some? ==> Coerce(b, PyStr(s)) == Converted(PyInt(ParseInt(s).value))
    ensures ParseInt(s).None? && b.parseFloat(s).Some? ==>
      Coerce(b, PyStr(s)) == Converted(PyFloat(b.parseFloat(s).value))
    ensures ParseInt(s).None? && b.parseFloat(s).None? && b.strToBool(s).Some? ==>
      Coerce(b, PyStr(s)) == Converted(PyBool(b.strToBool(s).value))
    ensures ParseInt(s).None? && b.parseFloat(s).None? && b.strToBool(s).None? ==>
      Coerce(b, PyStr(s)) == Converted(PyStr(s))
  {
    var cs := Converters(b);
    var v := PyStr(s);
    assert cs[0](v) == AsInt(v);
    assert cs[1](v) == AsFloat(b, v);
    assert cs[2](v) == AsBool(b, v);
    assert cs[3](v) == AsStr(b, v);
    var i := FirstAccepted(cs, v);
    if ParseInt(s).Some? {
      assert i == 0;
    } else if b.parseFloat(s).Some? {
      assert i == 1;
    } else if b.strToBool(s).Some? {
      assert i == 2;
    } else {
      assert i == 3;
    }
  }

  /**
   The decimal rendering of an integer within the digit limit becomes that
   integer, never a bool or a string; a longer one is left to `float`.
   */
  lemma CoerceNumeral(b: Builtins, n: int)
    ensures Digits(n) <= MaxStrDigits ==> Coerce(b, PyStr(Render(n))) == Converted(PyInt(n))
    ensures Digits(n) > MaxStrDigits ==> AsInt(PyStr(Render(n))) == ValueError
  {
    ParseRender(n);
    CoerceString(b, Render(n));
  }

  /** Among the modelled values, only strings get past both `int` and `float` to `str_to_bool`. */
  lemma BoolConverterSeesOnlyStrings(b: Builtins, v: Value)
    requires AsInt(v).ValueError? && AsFloat(b, v).ValueError?
    ensures v.PyStr?
  {
  }
}
