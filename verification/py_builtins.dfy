/** The pieces of Python's built-in behaviour that the INPI accessors rely on:
    a parsed JSON document as Python sees it, truthiness, `dict.get`, subscripts,
    `len`, `int()`, `str()` of scalars, `str.strip`, `str.join`, and the raised
    exceptions, which are values here (`Outcome`) rather than control flow. */
module PyBuiltins {

  datatype Option<+T> = None | Some(value: T) {
    function GetOr(default: T): T {
      if Some? then value else default
    }
  }

  /** The Python exceptions that the modelled code raises or catches. */
  datatype PyError =
    | KeyError
    | IndexError
    | TypeError
    | ValueError
    | AttributeError
    | StopIteration
    | RuntimeError

  /** The outcome of a Python call: it returns a value or raises. */
  datatype Outcome<+T> = Returned(value: T) | Raised(error: PyError) {
    predicate IsFailure() {
      Raised?
    }

    function PropagateFailure<U>(): Outcome<U>
      requires Raised?
    {
      Raised(error)
    }

    function Extract(): T
      requires Returned?
    {
      value
    }
  }

  /** A value produced by `json.loads`: None, bool, int, str, list or dict.
      JSON numbers with a fraction are not modelled. */
  datatype Json =
    | JNull
    | JBool(b: bool)
    | JInt(i: int)
    | JStr(s: string)
    | JArr(items: seq<Json>)
    | JObj(fields: map<string, Json>)

  /** `bool(v)`: None, False, 0, "", [] and {} are false, everything else true. */
  predicate Truthy(v: Json) {
    match v
    case JNull => false
    case JBool(b) => b
    case JInt(i) => i != 0
    case JStr(s) => s != ""
    case JArr(items) => |items| != 0
    case JObj(fields) => |fields| != 0
  }

  /** `d.get(k, default)` on a dict `d`. */
  function GetOr(fields: map<string, Json>, k: string, default: Json): (r: Json)
    ensures k !in fields ==> r == default
    ensures k in fields ==> r == fields[k]
  {
    if k in fields then fields[k] else default
  }

  /** `x.get(k, default)`: only a dict has a `get` method. */
  function PyGet(x: Json, k: string, default: Json): (r: Outcome<Json>)
    ensures r.Raised? <==> !x.JObj?
    ensures r.Raised? ==> r.error == AttributeError
    ensures x.JObj? ==> r == Returned(GetOr(x.fields, k, default))
  {
    if x.JObj? then Returned(GetOr(x.fields, k, default)) else Raised(AttributeError)
  }

  /** `x[k]` with a string key: a dict looks the key up; a list or a string
      refuses a string index; None, bool and int are not subscriptable. */
  function Subscript(x: Json, k: string): (r: Outcome<Json>)
    ensures r.Returned? <==> x.JObj? && k in x.fields
    ensures r.Returned? ==> r.value == x.fields[k]
    ensures r.Raised? ==> r.error == (if x.JObj? then KeyError else TypeError)
  {
    match x
    case JObj(fields) => if k in fields then Returned(fields[k]) else Raised(KeyError)
    case _ => Raised(TypeError)
  }

  /** `x[i]` with a non-negative int index. A JSON dict has only string keys,
      so an int key is always missing. */
  function Index(x: Json, i: nat): (r: Outcome<Json>)
    ensures x.JArr? ==> r == if i < |x.items| then Returned(x.items[i]) else Raised(IndexError)
    ensures x.JStr? ==> r == if i < |x.s| then Returned(JStr([x.s[i]])) else Raised(IndexError)
    ensures x.JObj? ==> r == Raised(KeyError)
    ensures !(x.JArr? || x.JStr? || x.JObj?) ==> r == Raised(TypeError)
  {
    match x
    case JArr(items) => if i < |items| then Returned(items[i]) else Raised(IndexError)
    case JStr(s) => if i < |s| then Returned(JStr([s[i]])) else Raised(IndexError)
    case JObj(_) => Raised(KeyError)
    case _ => Raised(TypeError)
  }

  /** `len(x)`: lists, strings and dicts have a length; other values raise. */
  function Len(x: Json): (r: Outcome<nat>)
    ensures r.Raised? <==> !(x.JArr? || x.JStr? || x.JObj?)
    ensures r.Raised? ==> r.error == TypeError
    ensures x.JArr? ==> r == Returned(|x.items|)
    ensures x.JStr? ==> r == Returned(|x.s|)
    ensures x.JObj? ==> r == Returned(|x.fields|)
  {
    match x
    case JArr(items) => Returned(|items|)
    case JStr(s) => Returned(|s|)
    case JObj(fields) => Returned(|fields|)
    case _ => Raised(TypeError)
  }

  /** Iterating over `x` with a body that calls `.get` on every element, as in
      `[... item.get(k) ... for item in x]`. Iterating a string yields strings and
      iterating a dict yields its (string) keys, neither of which has `get`;
      None, bool and int are not iterable. */
  function Dicts(x: Json): (r: Outcome<seq<map<string, Json>>>)
    ensures x.JArr? && (forall i :: 0 <= i < |x.items| ==> x.items[i].JObj?) ==>
              r.Returned? && |r.value| == |x.items| &&
              forall i :: 0 <= i < |x.items| ==> r.value[i] == x.items[i].fields
    ensures x.JArr? && (exists i :: 0 <= i < |x.items| && !x.items[i].JObj?) ==>
              r == Raised(AttributeError)
    ensures !(x.JArr? || x.JStr? || x.JObj?) ==> r == Raised(TypeError)
    ensures r.Returned? ==> |r.value| == 0 || x.JArr?
  {
    match x
    case JArr(items) =>
      if forall i :: 0 <= i < |items| ==> items[i].JObj? then
        Returned(seq(|items|, i requires 0 <= i < |items| => items[i].fields))
      else
        Raised(AttributeError)
    case JStr(s) => if s == "" then Returned([]) else Raised(AttributeError)
    case JObj(fields) => if |fields| == 0 then Returned([]) else Raised(AttributeError)
    case _ => Raised(TypeError)
  }

  // ---------------------------------------------------------------------------
  // Decimal integers: `int(s)` on a string, and `str(n)`.
  // ---------------------------------------------------------------------------

  predicate IsDigitChar(c: char) {
    '0' <= c <= '9'
  }

  /** `s.isdigit()` over ASCII digits: true for a non-empty string of digits. */
  predicate IsDigits(s: string) {
    |s| > 0 && forall i :: 0 <= i < |s| ==> IsDigitChar(s[i])
  }

  function DigitValue(c: char): nat
    requires IsDigitChar(c)
  {
    assert '0' as int <= c as int;
    c as int - '0' as int
  }

  function DigitChar(d: nat): (c: char)
    requires d < 10
    ensures IsDigitChar(c) && DigitValue(c) == d
  {
    ('0' as int + d) as char
  }

  /** The value of a string of decimal digits, most significant first. */
  function DigitsValue(s: string): nat
    requires forall i :: 0 <= i < |s| ==> IsDigitChar(s[i])
  {
    if |s| == 0 then 0 else DigitsValue(s[..|s| - 1]) * 10 + DigitValue(s[|s| - 1])
  }

  /** `int(s)` on a string: an optional sign followed by one or more ASCII digits. */
  function ParseInt(s: string): (r: Option<int>)
    ensures r.Some? <==> IsDigits(s) || (|s| > 1 && (s[0] == '-' || s[0] == '+') && IsDigits(s[1..]))
    ensures IsDigits(s) ==> r == Some(DigitsValue(s))
  {
    if |s| > 0 && (s[0] == '-' || s[0] == '+') then
      if IsDigits(s[1..]) then
        var magnitude: int := DigitsValue(s[1..]);
        Some(if s[0] == '-' then -magnitude else magnitude)
      else
        None
    else if IsDigits(s) then
      Some(DigitsValue(s))
    else
      None
  }

  /** `str(n)` for a natural number. */
  function FormatNat(n: nat): (s: string)
    ensures IsDigits(s)
  {
    if n < 10 then [DigitChar(n)] else FormatNat(n / 10) + [DigitChar(n % 10)]
  }

  /** `str(n)` for an int. */
  function FormatInt(n: int): string {
    if n < 0 then "-" + FormatNat(-n) else FormatNat(n)
  }

  lemma {:induction false} DigitsValueOfFormatNat(n: nat)
    ensures DigitsValue(FormatNat(n)) == n
  {
    if n >= 10 {
      var s := FormatNat(n);
      assert s[..|s| - 1] == FormatNat(n / 10);
      DigitsValueOfFormatNat(n / 10);
    }
  }

  /** `int(str(n)) == n`. */
  lemma ParseFormatRoundTrip(n: int)
    ensures ParseInt(FormatInt(n)) == Some(n)
  {
    if n < 0 {
      var s := FormatInt(n);
      assert s[1..] == FormatNat(-n);
      DigitsValueOfFormatNat(-n);
    } else {
      DigitsValueOfFormatNat(n);
    }
  }

  /** `int(v)` on a JSON value: strings are parsed, ints returned, bools are
      0 or 1, and None, lists and dicts are refused. */
  function IntOf(v: Json): (r: Outcome<int>)
    ensures r.Raised? ==> r.error == ValueError || r.error == TypeError
    ensures v.JInt? ==> r == Returned(v.i)
    ensures v.JStr? ==> (r.Returned? <==> ParseInt(v.s).Some?)
    ensures r.Returned? && v.JStr? ==> Some(r.value) == ParseInt(v.s)
  {
    match v
    case JStr(s) => (match ParseInt(s) case Some(n) => Returned(n) case None => Raised(ValueError))
    case JInt(i) => Returned(i)
    case JBool(b) => Returned(if b then 1 else 0)
    case _ => Raised(TypeError)
  }

  /** The values whose `str()` the model spells out: every scalar, and the
      empty list and dict. The `repr` of a non-empty container is not modelled. */
  predicate HasModelledStr(v: Json) {
    match v
    case JArr(items) => |items| == 0
    case JObj(fields) => |fields| == 0
    case _ => true
  }

  /** `str(v)`, as an f-string prints it. */
  function StrOf(v: Json): (r: string)
    requires HasModelledStr(v)
    ensures v.JStr? ==> r == v.s
    ensures v.JInt? ==> ParseInt(r) == Some(v.i)
  {
    match v
    case JNull => "None"
    case JBool(b) => if b then "True" else "False"
    case JInt(i) => ParseFormatRoundTrip(i); FormatInt(i)
    case JStr(s) => s
    case JArr(_) => "[]"
    case JObj(_) => "{}"
  }

  // ---------------------------------------------------------------------------
  // str.strip and str.join
  // ---------------------------------------------------------------------------

  /** The characters for which `c.isspace()` holds: the ASCII controls TAB to
      CR and FS to US, the space, NEL, NBSP, and the Unicode space and line
      separators. */
  const SPACES: set<char> := {
    '\t', '\n', '\U{B}', '\U{C}', '\r', '\U{1C}', '\U{1D}', '\U{1E}', '\U{1F}', ' ',
    '\U{85}', '\U{A0}', '\U{1680}',
    '\U{2000}', '\U{2001}', '\U{2002}', '\U{2003}', '\U{2004}', '\U{2005}', '\U{2006}',
    '\U{2007}', '\U{2008}', '\U{2009}', '\U{200A}',
    '\U{2028}', '\U{2029}', '\U{202F}', '\U{205F}', '\U{3000}'
  }

  /** `c.isspace()`: the characters Python's `str.strip()` removes. */
  predicate IsSpace(c: char) {
    c in SPACES
  }

  function StripLeft(s: string): (r: string)
    ensures |r| <= |s| && r == s[|s| - |r|..]
    ensures |r| > 0 ==> !IsSpace(r[0])
  {
    if |s| > 0 && IsSpace(s[0]) then StripLeft(s[1..]) else s
  }

  function StripRight(s: string): (r: string)
    ensures |r| <= |s| && r == s[..|r|]
    ensures |r| > 0 ==> !IsSpace(r[|r| - 1])
  {
    if |s| > 0 && IsSpace(s[|s| - 1]) then StripRight(s[..|s| - 1]) else s
  }

  /** `s.strip()`. */
  function Strip(s: string): (r: string)
    ensures |r| > 0 ==> !IsSpace(r[0]) && !IsSpace(r[|r| - 1])
  {
    StripRight(StripLeft(s))
  }

  /** What StripLeft removes is whitespace. */
  lemma {:induction false} StripLeftRemovesSpaces(s: string)
    ensures forall i :: 0 <= i < |s| - |StripLeft(s)| ==> IsSpace(s[i])
  {
    if |s| > 0 && IsSpace(s[0]) {
      StripLeftRemovesSpaces(s[1..]);
    }
  }

  /** What StripRight removes is whitespace. */
  lemma {:induction false} StripRightRemovesSpaces(s: string)
    ensures forall i :: |StripRight(s)| <= i < |s| ==> IsSpace(s[i])
  {
    if |s| > 0 && IsSpace(s[|s| - 1]) {
      StripRightRemovesSpaces(s[..|s| - 1]);
    }
  }

  /** A string strips to "" exactly when it is all whitespace. */
  lemma StripToEmpty(s: string)
    ensures (forall i :: 0 <= i < |s| ==> IsSpace(s[i])) <==> Strip(s) == ""
  {
    var l := StripLeft(s);
    StripLeftRemovesSpaces(s);
    StripRightRemovesSpaces(l);
  }

  /** Stripping twice is stripping once. */
  lemma StripIdempotent(s: string)
    ensures Strip(Strip(s)) == Strip(s)
  {
    StripUnchanged(Strip(s));
  }

  /** Stripping a string that has no outer whitespace leaves it unchanged. */
  lemma StripUnchanged(s: string)
    requires |s| > 0 ==> !IsSpace(s[0]) && !IsSpace(s[|s| - 1])
    ensures Strip(s) == s
  {
  }

  /** `sep.join(parts)`. */
  function Join(sep: string, parts: seq<string>): (r: string)
    ensures |parts| == 0 ==> r == ""
    ensures |parts| == 1 ==> r == parts[0]
  {
    if |parts| == 0 then ""
    else if |parts| == 1 then parts[0]
    else parts[0] + sep + Join(sep, parts[1..])
  }

  /** Splitting on a one-character separator, as `s.split(c)` does. */
  function Split(s: string, c: char): (r: seq<string>)
    ensures |r| > 0
  {
    if |s| == 0 then [""]
    else
      var rest := Split(s[1..], c);
      if s[0] == c then [""] + rest else [[s[0]] + rest[0]] + rest[1..]
  }

  lemma {:induction false} SplitNoSeparator(s: string, c: char)
    requires forall i :: 0 <= i < |s| ==> s[i] != c
    ensures Split(s, c) == [s]
  {
    if |s| > 0 {
      SplitNoSeparator(s[1..], c);
      assert [s[0]] + s[1..] == s;
    }
  }

  lemma {:induction false} SplitAppend(a: string, b: string, c: char)
    requires forall i :: 0 <= i < |a| ==> a[i] != c
    ensures Split(a + [c] + b, c) == [a] + Split(b, c)
  {
    if |a| == 0 {
      assert a + [c] + b == [c] + b;
      assert ([c] + b)[1..] == b;
    } else {
      assert (a + [c] + b)[1..] == a[1..] + [c] + b;
      SplitAppend(a[1..], b, c);
      assert [a[0]] + a[1..] == a;
    }
  }

  /** Joining words that do not contain the separator and splitting the
      result again gives the words back. */
  lemma {:induction false} SplitJoinRoundTrip(parts: seq<string>, c: char)
    requires |parts| > 0
    requires forall k, i :: 0 <= k < |parts| && 0 <= i < |parts[k]| ==> parts[k][i] != c
    ensures Split(Join([c], parts), c) == parts
  {
    if |parts| == 1 {
      SplitNoSeparator(parts[0], c);
    } else {
      SplitJoinRoundTrip(parts[1..], c);
      SplitAppend(parts[0], Join([c], parts[1..]), c);
      assert parts == [parts[0]] + parts[1..];
    }
  }
}
