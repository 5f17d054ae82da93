/** The JavaScript values that reach the controllers through a JSON request body,
    and the language's coercions the controllers apply to them: truthiness,
    `== null`, `Number(v)`, `new Date(v)`, `String(v)` and `String.prototype.trim`.
    Numbers are integers here; the conversions of strings to numbers and to dates
    belong to the JavaScript runtime and are parameters of the model. */
module JsValues {
  import opened Optional

  /** A JSON value as the body parser produces it (objects and arrays are not modelled). */
  datatype Json = Null | Bool(b: bool) | Num(n: int) | Str(s: string)

  /** A request body or query string: a field that is not a key is `undefined`. */
  type Body = map<string, Json>

  function Get(body: Body, key: string): (v: Option<Json>)
    ensures v.Some? <==> key in body
    ensures v.Some? ==> v.value == body[key]
  {
    if key in body then Some(body[key]) else None
  }

  /** The runtime's string conversions: `Number(s)` (None is NaN) and the time value
      of `new Date(s)` (None is an Invalid Date). */
  datatype Runtime = Runtime(parseNumber: string -> Option<int>, parseDate: string -> Option<int>)

  /** A value that `!v` maps to false; `undefined` is the absent field. */
  predicate Truthy(v: Option<Json>) {
    match v
    case None => false
    case Some(Null) => false
    case Some(Bool(b)) => b
    case Some(Num(n)) => n != 0
    case Some(Str(s)) => s != ""
  }

  /** `v == null` holds of `undefined` and `null` only. */
  predicate Nullish(v: Option<Json>) {
    v == None || v == Some(Null)
  }

  /** A zero amount is present although it is falsy. */
  lemma ZeroIsFalsyButPresent()
    ensures !Truthy(Some(Num(0))) && !Nullish(Some(Num(0)))
  {
  }

  /** `Number(v)`; None stands for NaN. */
  function ToNumber(v: Option<Json>, rt: Runtime): (r: Option<int>)
    ensures v == None ==> r == None
    ensures v.Some? && v.value.Num? ==> r == Some(v.value.n)
  {
    match v
    case None => None
    case Some(Null) => Some(0)
    case Some(Bool(b)) => Some(if b then 1 else 0)
    case Some(Num(n)) => Some(n)
    case Some(Str(s)) => rt.parseNumber(s)
  }

  /** The largest magnitude of a valid Date time value, in milliseconds (TimeClip). */
  const MaxTime := 8640000000000000

  predicate InTimeRange(t: int) {
    -MaxTime <= t <= MaxTime
  }

  /** TimeClip: a time value outside the Date range is an Invalid Date. */
  function TimeClip(t: Option<int>): (r: Option<int>)
    ensures r.Some? <==> t.Some? && InTimeRange(t.value)
    ensures r.Some? ==> r == t
  {
    if t.Some? && InTimeRange(t.value) then t else None
  }

  /** The time value of `new Date(v)`; None is an Invalid Date. */
  function ToDate(v: Json, rt: Runtime): (r: Option<int>)
    ensures r.Some? ==> InTimeRange(r.value)
    ensures v.Num? ==> (r.Some? <==> InTimeRange(v.n))
  {
    match v
    case Null => Some(0)
    case Bool(b) => Some(if b then 1 else 0)
    case Num(n) => TimeClip(Some(n))
    case Str(s) => TimeClip(rt.parseDate(s))
  }

  function DigitChar(d: nat): (c: char)
    requires d < 10
    ensures '0' <= c <= '9'
  {
    "0123456789"[d]
  }

  function DigitsOf(n: nat): (r: string)
    ensures |r| > 0
    ensures forall i :: 0 <= i < |r| ==> '0' <= r[i] <= '9'
  {
    if n < 10 then [DigitChar(n)] else DigitsOf(n / 10) + [DigitChar(n % 10)]
  }

  /** The decimal rendering `String(n)` of an integer. */
  function Decimal(n: int): (r: string)
    ensures |r| > 0
    ensures forall i :: 0 <= i < |r| ==> !IsWhitespace(r[i])
  {
    if n < 0 then "-" + DigitsOf(-n) else DigitsOf(n)
  }

  /** `String(v)`. */
  function ToJsString(v: Json): (r: string)
    ensures v.Str? ==> r == v.s
    ensures !v.Str? ==> r != "" && !IsWhitespace(r[0])
  {
    match v
    case Null => "null"
    case Bool(b) => if b then "true" else "false"
    case Num(n) => Decimal(n)
    case Str(s) => s
  }

  /** The characters `String.prototype.trim` removes: WhiteSpace and LineTerminator. */
  predicate IsWhitespace(c: char) {
    c == '\t' || c == '\n' || c == '\U{B}' || c == '\U{C}' || c == '\r' || c == ' '
    || c == '\U{A0}' || c == '\U{1680}' || ('\U{2000}' <= c <= '\U{200A}')
    || c == '\U{2028}' || c == '\U{2029}' || c == '\U{202F}' || c == '\U{205F}'
    || c == '\U{3000}' || c == '\U{FEFF}'
  }

  predicate AllWhitespace(s: string) {
    forall i :: 0 <= i < |s| ==> IsWhitespace(s[i])
  }

  /** `s` with its leading whitespace removed. */
  function TrimStart(s: string): string
    decreases |s|
  {
    if s != [] && IsWhitespace(s[0]) then TrimStart(s[1..]) else s
  }

  /** `s` with its trailing whitespace removed. */
  function TrimEnd(s: string): string
    decreases |s|
  {
    if s != [] && IsWhitespace(s[|s| - 1]) then TrimEnd(s[..|s| - 1]) else s
  }

  /** `String.prototype.trim`. */
  function Trim(s: string): string {
    TrimEnd(TrimStart(s))
  }

  /** TrimStart drops a run of whitespace and keeps the rest, which does not start
      with whitespace. */
  lemma {:induction false} TrimStartSpec(s: string)
    ensures |TrimStart(s)| <= |s|
    ensures TrimStart(s) == s[|s| - |TrimStart(s)|..]
    ensures AllWhitespace(s[..|s| - |TrimStart(s)|])
    ensures TrimStart(s) == [] || !IsWhitespace(TrimStart(s)[0])
    decreases |s|
  {
    if s != [] && IsWhitespace(s[0]) {
      TrimStartSpec(s[1..]);
      var k := |s| - |TrimStart(s)|;
      assert s[..k] == [s[0]] + s[1..][..k - 1];
    }
  }

  /** TrimEnd keeps a prefix and drops the run of whitespace after it; the prefix
      does not end with whitespace. */
  lemma {:induction false} TrimEndSpec(s: string)
    ensures |TrimEnd(s)| <= |s|
    ensures TrimEnd(s) == s[..|TrimEnd(s)|]
    ensures AllWhitespace(s[|TrimEnd(s)|..])
    ensures TrimEnd(s) == [] || !IsWhitespace(TrimEnd(s)[|TrimEnd(s)| - 1])
    decreases |s|
  {
    if s != [] && IsWhitespace(s[|s| - 1]) {
      var p := s[..|s| - 1];
      TrimEndSpec(p);
      var k := |TrimEnd(s)|;
      assert s[k..] == p[k..] + [s[|s| - 1]];
    }
  }

  /** How many leading whitespace characters `trim` drops. */
  function Lead(s: string): (k: nat)
    ensures k <= |s|
  {
    TrimStartSpec(s);
    |s| - |TrimStart(s)|
  }

  /** The trimmed string is the part of `s` between a leading and a trailing run of
      whitespace. */
  lemma TrimIsInfix(s: string)
    ensures Lead(s) + |Trim(s)| <= |s|
    ensures Trim(s) == s[Lead(s)..Lead(s) + |Trim(s)|]
    ensures AllWhitespace(s[..Lead(s)]) && AllWhitespace(s[Lead(s) + |Trim(s)|..])
  {
    var a := TrimStart(s);
    var r := TrimEnd(a);
    TrimStartSpec(s);
    TrimEndSpec(a);
    var i := Lead(s);
    var j := i + |r|;
    assert a == s[i..];
    assert r == s[i..j] by {
      assert r == a[..|r|];
    }
    assert s[j..] == a[|r|..];
  }

  /** The trimmed string neither starts nor ends with whitespace. */
  lemma TrimEndsClean(s: string)
    ensures Trim(s) == [] || (!IsWhitespace(Trim(s)[0]) && !IsWhitespace(Trim(s)[|Trim(s)| - 1]))
  {
    var a := TrimStart(s);
    var r := TrimEnd(a);
    TrimStartSpec(s);
    TrimEndSpec(a);
    if r != [] {
      assert r[0] == a[0];
    }
  }

  /** A string that neither starts nor ends with whitespace trims to itself. */
  lemma TrimKeepsClean(s: string)
    requires s != [] && !IsWhitespace(s[0]) && !IsWhitespace(s[|s| - 1])
    ensures Trim(s) == s
  {
    assert TrimStart(s) == s;
  }

  /** Trimming twice is trimming once (the schema's own trim changes nothing more). */
  lemma TrimIdempotent(s: string)
    ensures Trim(Trim(s)) == Trim(s)
  {
    var r := Trim(s);
    TrimEndsClean(s);
    if r != [] {
      assert TrimStart(r) == r;
      assert TrimEnd(r) == r;
    } else {
      assert TrimStart(r) == r;
    }
  }

  /** A string trims to the empty string exactly when it is all whitespace. */
  lemma TrimEmptyIffWhitespace(s: string)
    ensures Trim(s) == "" <==> AllWhitespace(s)
  {
    TrimIsInfix(s);
    var a := TrimStart(s);
    TrimStartSpec(s);
    TrimEndSpec(a);
    var k := Lead(s);
    assert a == s[k..];
    if Trim(s) == "" {
      assert s[k..] == a;
      assert AllWhitespace(a) by {
        assert a[|TrimEnd(a)|..] == a;
      }
      assert s == s[..k] + a;
    }
  }
}
