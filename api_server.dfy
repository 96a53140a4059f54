/**
 * The request-parameter coercions, keyword de-duplication, `adb devices -l` output parsing,
 * log classification and status string of the websocket/HTTP front server.
 * Request parameters arrive as decoded JSON; `PyValue` stands for such a value.
 */
module ApiServer {
  import opened Wrappers
  import opened Text
  import opened Seqs

  /** A decoded JSON value as Python sees it (`None`, `bool`, `int`, `float`, `str`, `list`, `dict`). */
  datatype PyValue =
    | PyNone
    | PyBool(b: bool)
    | PyInt(i: int)
    | PyFloat(f: real)
    | PyStr(s: string)
    | PyList(items: seq<PyValue>)
    | PyDict(entries: map<string, PyValue>)

  /** `params.get(key)`: the value, or `None` when the key is missing. */
  function Get(params: map<string, PyValue>, key: string): PyValue
  {
    if key in params then params[key] else PyNone
  }

  // ---------------------------------------------------------------- _as_bool

  /** The words `_as_bool` reads as true. */
  predicate TrueWord(n: string)
  {
    n == "1" || n == "true" || n == "yes" || n == "y" || n == "on"
  }

  /** The words `_as_bool` reads as false. */
  predicate FalseWord(n: string)
  {
    n == "0" || n == "false" || n == "no" || n == "n" || n == "off"
  }

  /** How a string parameter is compared with the word sets: trimmed, then lower-cased. */
  function Normalized(s: string): string
  {
    Lower(Strip(s))
  }

  /** `_as_bool(value, default)` */
  function AsBool(v: PyValue, default: bool): bool
  {
    match v
    case PyBool(b) => b
    case PyInt(i) => i != 0
    case PyFloat(f) => f != 0.0
    case PyStr(s) =>
      var n := Normalized(s);
      if TrueWord(n) then true else if FalseWord(n) then false else default
    case _ => default
  }

  /**
   * The default decides only for a value that is not a boolean, a number or a recognised word;
   * a recognised word decides by the set it belongs to, and the two sets do not overlap.
   */
  lemma AsBoolDefault(v: PyValue, default: bool)
    ensures forall n :: !(TrueWord(n) && FalseWord(n))
    ensures AsBool(v, default) != AsBool(v, !default) <==>
      v.PyNone? || v.PyList? || v.PyDict? || (v.PyStr? && !TrueWord(Normalized(v.s)) && !FalseWord(Normalized(v.s)))
    ensures v.PyStr? && TrueWord(Normalized(v.s)) ==> AsBool(v, default)
    ensures v.PyStr? && FalseWord(Normalized(v.s)) ==> !AsBool(v, default)
  {
  }

  /** Lower-casing leaves white space where it is. */
  lemma LowerKeepsSpace(s: string)
    ensures forall i :: 0 <= i < |s| ==> (IsSpace(Lower(s)[i]) <==> IsSpace(s[i]))
  {
  }

  /** Normalising twice is normalising once, so the word sets are tested on a fixed point. */
  lemma NormalizedIdempotent(s: string)
    ensures Normalized(Normalized(s)) == Normalized(s)
  {
    var t := Strip(s);
    var n := Lower(t);
    LowerTrimmed(t);
    StripTrimmed(n);
    LowerIdempotent(t);
  }

  lemma LowerTrimmed(t: string)
    requires IsTrimmed(t)
    ensures IsTrimmed(Lower(t))
  {
    LowerKeepsSpace(t);
  }

  lemma LowerIdempotent(t: string)
    ensures Lower(Lower(t)) == Lower(t)
  {
    var n := Lower(t);
    assert forall i :: 0 <= i < |n| ==> Lower(n)[i] == n[i];
  }

  /** Padding and capitals never change the answer. */
  lemma AsBoolNormalizes(s: string, default: bool)
    ensures AsBool(PyStr(s), default) == AsBool(PyStr(Normalized(s)), default)
  {
    NormalizedIdempotent(s);
  }

  lemma LowerNoCapitals(w: string)
    requires forall i :: 0 <= i < |w| ==> !('A' <= w[i] <= 'Z')
    ensures Lower(w) == w
  {
  }

  /** Trimmed lower-case text is its own normal form. */
  lemma NormalizedPlain(w: string)
    requires IsTrimmed(w) && Lower(w) == w
    ensures Normalized(w) == w
  {
    StripTrimmed(w);
  }

  /** Each word of the two sets is its own normal form. */
  lemma WordsPlain(w: string)
    requires TrueWord(w) || FalseWord(w)
    ensures Normalized(w) == w
  {
    assert forall i :: 0 <= i < |w| ==> ('a' <= w[i] <= 'z' || w[i] == '0' || w[i] == '1');
    LowerNoCapitals(w);
    NormalizedPlain(w);
  }

  /** Each word of the two sets, sent as it is written, reads back as its own truth value. */
  lemma AsBoolWords(w: string, default: bool)
    ensures TrueWord(w) ==> AsBool(PyStr(w), default)
    ensures FalseWord(w) ==> !AsBool(PyStr(w), default)
  {
    if TrueWord(w) || FalseWord(w) {
      WordsPlain(w);
      AsBoolDefault(PyStr(w), default);
    }
  }

  // ---------------------------------------------------------------- _as_int

  /**
   * A decimal literal `int()` accepts after the sign: digits, with single underscores
   * allowed between two digits.
   */
  predicate IsNumeral(t: string)
  {
    |t| > 0 && IsDigit(t[0]) && IsDigit(t[|t| - 1])
    && (forall i :: 0 <= i < |t| ==> IsDigit(t[i]) || t[i] == '_')
    && (forall i :: 0 <= i < |t| - 1 ==> !(t[i] == '_' && t[i + 1] == '_'))
  }

  lemma RemoveUnderscoreDigits(t: string)
    requires forall i :: 0 <= i < |t| ==> IsDigit(t[i]) || t[i] == '_'
    ensures AllDigits(RemoveChar(t, '_'))
  {
    var r := RemoveChar(t, '_');
    forall i | 0 <= i < |r|
      ensures IsDigit(r[i])
    {
      assert r[i] in r;
      assert r[i] in t;
    }
  }

  function NumeralValue(t: string): nat
    requires IsNumeral(t)
  {
    RemoveUnderscoreDigits(t);
    DigitsValue(RemoveChar(t, '_'))
  }

  /** `int(s)` on a string: surrounding white space, an optional sign, then a numeral; `None` is the ValueError. */
  function ParseIntText(s: string): (r: Option<int>)
    ensures r.Some? ==> Strip(s) != ""
  {
    var t := Strip(s);
    if t == "" then None
    else if t[0] == '-' || t[0] == '+' then
      var d := t[1..];
      if IsNumeral(d) then
        var n: int := NumeralValue(d);
        Some(if t[0] == '-' then -n else n)
      else None
    else if IsNumeral(t) then Some(NumeralValue(t))
    else None
  }

  /** `int(f)`: truncation toward zero. */
  function Truncate(f: real): (r: int)
    ensures f >= 0.0 ==> r >= 0 && r as real <= f < r as real + 1.0
    ensures f < 0.0 ==> r <= 0 && r as real - 1.0 < f <= r as real
  {
    if f >= 0.0 then f.Floor else -((-f).Floor)
  }

  /** `int(value)`; `None` stands for the TypeError or ValueError it raises. */
  function IntOf(v: PyValue): Option<int>
  {
    match v
    case PyBool(b) => Some(if b then 1 else 0)
    case PyInt(i) => Some(i)
    case PyFloat(f) => Some(Truncate(f))
    case PyStr(s) => ParseIntText(s)
    case _ => None
  }

  /** `_as_int(value, default)` */
  function AsInt(v: PyValue, default: int): (r: int)
    ensures IntOf(v).None? ==> r == default
    ensures IntOf(v).Some? ==> r == IntOf(v).value
  {
    match IntOf(v)
    case None => default
    case Some(i) => i
  }

  lemma RemoveAbsentChar(s: string, c: char)
    requires c !in s
    ensures RemoveChar(s, c) == s
  {
  }

  /** `str(n)` of a natural number is a numeral whose value is `n`. */
  lemma NatNumeral(n: nat)
    ensures IsNumeral(NatToString(n)) && NumeralValue(NatToString(n)) == n
  {
    var s := NatToString(n);
    assert '_' !in s;
    RemoveAbsentChar(s, '_');
    DigitsOfNat(n);
  }

  /** `str(i)` is trimmed. */
  lemma IntTextTrimmed(i: int)
    ensures IsTrimmed(IntToString(i))
  {
    var s := NatToString(if i < 0 then -i else i);
    assert IsDigit(s[|s| - 1]) && IsDigit(s[0]);
    if i < 0 {
      assert IntToString(i) == "-" + s;
    }
  }

  /** A number sent as its decimal text reads back as that number, whatever the default. */
  lemma AsIntRoundTrip(i: int, default: int)
    ensures AsInt(PyStr(IntToString(i)), default) == i
  {
    IntTextTrimmed(i);
    StripTrimmed(IntToString(i));
    if i < 0 {
      NatNumeral(-i);
      assert ("-" + NatToString(-i))[1..] == NatToString(-i);
    } else {
      NatNumeral(i);
    }
  }

  // ---------------------------------------------------------------- _as_str

  /**
   * `_as_str(value, default)`. `render` is `str(value)` for a float, list or dict; `str` of a
   * boolean and of an integer are written out.
   */
  function AsStr(v: PyValue, default: string, render: PyValue -> string): (r: string)
    ensures v.PyNone? ==> r == default
    ensures v.PyStr? && Strip(v.s) != "" ==> r == Strip(v.s)
    ensures v.PyStr? && Strip(v.s) == "" ==> r == default
    ensures v.PyBool? ==> r == (if v.b then "True" else "False")
    ensures v.PyInt? ==> r == IntToString(v.i)
  {
    match v
    case PyNone => default
    case PyStr(s) => var c := Strip(s); if c != "" then c else default
    case PyBool(b) => if b then "True" else "False"
    case PyInt(i) => IntToString(i)
    case _ => render(v)
  }

  /** Every rendering that is trimmed and non-blank. */
  ghost predicate NeatRendering(render: PyValue -> string)
  {
    forall v :: IsTrimmed(render(v)) && render(v) != ""
  }

  /** With a trimmed, non-blank default, `_as_str` always gives a trimmed, non-blank string. */
  lemma AsStrNeat(v: PyValue, default: string, render: PyValue -> string)
    requires IsTrimmed(default) && default != ""
    requires NeatRendering(render)
    ensures IsTrimmed(AsStr(v, default, render)) && AsStr(v, default, render) != ""
  {
    if v.PyInt? {
      IntTextTrimmed(v.i);
    }
  }

  /** A string `_as_str` returned comes back unchanged when it is passed through `_as_str` again. */
  lemma AsStrIdempotent(v: PyValue, default: string, render: PyValue -> string)
    requires v.PyNone? || v.PyStr?
    requires IsTrimmed(default)
    ensures AsStr(PyStr(AsStr(v, default, render)), default, render) == AsStr(v, default, render)
  {
    var r := AsStr(v, default, render);
    StripTrimmed(r);
  }

  // ---------------------------------------------------------------- _parse_keywords

  /** What one item of a `keywords` list contributes: its trimmed text, if it is a non-blank string. */
  function Kept(v: PyValue): (r: seq<string>)
    ensures forall k :: 0 <= k < |r| ==> IsTrimmed(r[k]) && r[k] != ""
    ensures |r| <= 1
  {
    if v.PyStr? && Strip(v.s) != "" then [Strip(v.s)] else []
  }

  lemma TrimmedConcat(p: seq<string>, q: seq<string>)
    requires forall k :: 0 <= k < |p| ==> IsTrimmed(p[k]) && p[k] != ""
    requires forall k :: 0 <= k < |q| ==> IsTrimmed(q[k]) && q[k] != ""
    ensures forall k :: 0 <= k < |p + q| ==> IsTrimmed((p + q)[k]) && (p + q)[k] != ""
  {
  }

  /** The trimmed, non-blank string items of a `keywords` list, in order. */
  function Cleaned(items: seq<PyValue>): (r: seq<string>)
    ensures forall k :: 0 <= k < |r| ==> IsTrimmed(r[k]) && r[k] != ""
    ensures |r| <= |items|
  {
    if items == [] then []
    else
      var p := Cleaned(items[..|items| - 1]);
      var q := Kept(items[|items| - 1]);
      TrimmedConcat(p, q);
      p + q
  }

  /** The list `_parse_keywords` de-duplicates: the cleaned list, or the single `keyword` parameter. */
  function Candidates(params: map<string, PyValue>, fallback: string, render: PyValue -> string): (r: seq<string>)
    ensures r != []
  {
    var raw := Get(params, "keywords");
    var listed := if raw.PyList? then Cleaned(raw.items) else [];
    if listed != [] then listed else [AsStr(Get(params, "keyword"), fallback, render)]
  }

  /** The elements of `s` without repetitions, each kept where it first occurs. */
  function Unique<T(==)>(s: seq<T>): (r: seq<T>)
    ensures |r| <= |s|
  {
    if s == [] then []
    else
      var d := Unique(s[..|s| - 1]);
      if s[|s| - 1] in d then d else d + [s[|s| - 1]]
  }

  /** The position where `x` first occurs in `s`. */
  function FirstIndex<T(==)>(s: seq<T>, x: T): (k: nat)
    requires x in s
    ensures k < |s| && s[k] == x
    ensures forall j :: 0 <= j < k ==> s[j] != x
  {
    if s[0] == x then 0 else 1 + FirstIndex(s[1..], x)
  }

  /** Appending an element does not move the first occurrence of an element already present. */
  lemma FirstIndexSnoc<T>(s: seq<T>, x: T, y: T)
    requires y in s
    ensures FirstIndex(s + [x], y) == FirstIndex(s, y)
  {
    var a := FirstIndex(s, y);
    var b := FirstIndex(s + [x], y);
    assert (s + [x])[a] == y;
    assert b <= a;
    assert s[b] == (s + [x])[b];
  }

  /** The elements of `s` are its last element and those of the rest. */
  lemma SnocMembers<T>(s: seq<T>)
    requires s != []
    ensures forall y :: y in s <==> y in s[..|s| - 1] || y == s[|s| - 1]
  {
    forall y
      ensures y in s <==> y in s[..|s| - 1] || y == s[|s| - 1]
    {
      if y in s {
        var k :| 0 <= k < |s| && s[k] == y;
        if k < |s| - 1 {
          assert s[..|s| - 1][k] == y;
        }
      }
    }
  }

  /** `Unique(s)` has exactly the elements of `s`. */
  lemma {:induction false} UniqueMembers<T>(s: seq<T>)
    ensures forall x :: x in Unique(s) <==> x in s
    decreases |s|
  {
    if s != [] {
      UniqueMembers(s[..|s| - 1]);
      SnocMembers(s);
    }
  }

  /** `Unique(s)` has no repetition. */
  lemma {:induction false} UniqueDistinct<T>(s: seq<T>)
    ensures Distinct(Unique(s))
    decreases |s|
  {
    if s != [] {
      UniqueDistinct(s[..|s| - 1]);
    }
  }

  /** A new last element goes after everything `Unique` already lists. */
  lemma UniqueOrderStep<T>(p: seq<T>, x: T)
    requires forall y :: y in Unique(p) <==> y in p
    requires forall i, j :: 0 <= i < j < |Unique(p)| ==> FirstIndex(p, Unique(p)[i]) < FirstIndex(p, Unique(p)[j])
    requires x !in p
    ensures forall i, j :: 0 <= i < j < |Unique(p) + [x]| ==>
      FirstIndex(p + [x], (Unique(p) + [x])[i]) < FirstIndex(p + [x], (Unique(p) + [x])[j])
  {
    var d := Unique(p);
    var u := d + [x];
    var s := p + [x];
    assert s[|p|] == x;
    assert FirstIndex(s, x) == |p|;
    forall i, j | 0 <= i < j < |u|
      ensures FirstIndex(s, u[i]) < FirstIndex(s, u[j])
    {
      assert u[i] == d[i];
      FirstIndexSnoc(p, x, d[i]);
      if j < |d| {
        assert u[j] == d[j];
        FirstIndexSnoc(p, x, d[j]);
      }
    }
  }

  /** `Unique(s)` lists the elements in the order in which they first occur in `s`. */
  lemma {:induction false} UniqueOrder<T>(s: seq<T>)
    ensures forall x :: x in Unique(s) ==> x in s
    ensures forall i, j :: 0 <= i < j < |Unique(s)| ==> FirstIndex(s, Unique(s)[i]) < FirstIndex(s, Unique(s)[j])
    decreases |s|
  {
    UniqueMembers(s);
    if s != [] {
      var p := s[..|s| - 1];
      var x := s[|s| - 1];
      assert s == p + [x];
      UniqueOrder(p);
      UniqueMembers(p);
      if x in Unique(p) {
        forall i, j | 0 <= i < j < |Unique(p)|
          ensures FirstIndex(s, Unique(p)[i]) < FirstIndex(s, Unique(p)[j])
        {
          FirstIndexSnoc(p, x, Unique(p)[i]);
          FirstIndexSnoc(p, x, Unique(p)[j]);
        }
      } else {
        UniqueOrderStep(p, x);
      }
    }
  }

  /**
   * `Unique(s)` holds each element of `s` exactly once, and lists them in the order in
   * which they first occur in `s`.
   */
  lemma UniqueSpec<T>(s: seq<T>)
    ensures Distinct(Unique(s))
    ensures forall x :: x in Unique(s) <==> x in s
    ensures forall i, j :: 0 <= i < j < |Unique(s)| ==> FirstIndex(s, Unique(s)[i]) < FirstIndex(s, Unique(s)[j])
  {
    UniqueMembers(s);
    UniqueDistinct(s);
    UniqueOrder(s);
  }

  lemma CleanedSnoc(items: seq<PyValue>, i: nat)
    requires i < |items|
    ensures Cleaned(items[..i + 1]) == Cleaned(items[..i]) + Kept(items[i])
  {
    assert items[..i + 1][..i] == items[..i];
  }

  /** `[item.strip() for item in raw_keywords if isinstance(item, str) and item.strip()]`, as the loop builds it. */
  method CollectKeywords(items: seq<PyValue>) returns (keywords: seq<string>)
    ensures keywords == Cleaned(items)
  {
    keywords := [];
    var i := 0;
    while i < |items|
      invariant 0 <= i <= |items|
      invariant keywords == Cleaned(items[..i])
    {
      var item := items[i];
      CleanedSnoc(items, i);
      ghost var before := keywords;
      if item.PyStr? {
        var cleaned := Strip(item.s);
        if cleaned != "" {
          keywords := keywords + [cleaned];
        }
      }
      assert keywords == before + Kept(item);
      i := i + 1;
    }
    assert items[..i] == items;
  }

  /** The `seen`/`deduped` loop: keeps the first occurrence of every keyword. */
  method Dedup(keywords: seq<string>) returns (deduped: seq<string>)
    ensures deduped == Unique(keywords)
  {
    var seen: set<string> := {};
    deduped := [];
    var i := 0;
    while i < |keywords|
      invariant 0 <= i <= |keywords|
      invariant deduped == Unique(keywords[..i])
      invariant seen == set x | x in deduped
    {
      var kw := keywords[i];
      assert keywords[..i + 1][..i] == keywords[..i];
      if kw !in seen {
        seen := seen + {kw};
        deduped := deduped + [kw];
      }
      i := i + 1;
    }
    assert keywords[..i] == keywords;
  }

  /** `_parse_keywords(params, fallback_keyword)` */
  method ParseKeywords(params: map<string, PyValue>, fallback: string, render: PyValue -> string)
    returns (r: seq<string>)
    ensures r == Unique(Candidates(params, fallback, render))
    ensures r != [] && Distinct(r)
    ensures forall x :: x in r <==> x in Candidates(params, fallback, render)
    ensures forall i, j :: 0 <= i < j < |r| ==>
      FirstIndex(Candidates(params, fallback, render), r[i]) < FirstIndex(Candidates(params, fallback, render), r[j])
    ensures IsTrimmed(fallback) && fallback != "" && NeatRendering(render) ==>
      forall k :: 0 <= k < |r| ==> IsTrimmed(r[k]) && r[k] != ""
  {
    var keywords: seq<string> := [];
    var raw := Get(params, "keywords");
    if raw.PyList? {
      keywords := CollectKeywords(raw.items);
    }
    if keywords == [] {
      var keyword := AsStr(Get(params, "keyword"), fallback, render);
      keywords := [keyword];
    }
    ghost var c := Candidates(params, fallback, render);
    assert keywords == c;
    r := Dedup(keywords);
    UniqueSpec(c);
    assert c[0] in r;
    if IsTrimmed(fallback) && fallback != "" && NeatRendering(render) {
      AsStrNeat(Get(params, "keyword"), fallback, render);
      forall k | 0 <= k < |r|
        ensures IsTrimmed(r[k]) && r[k] != ""
      {
        assert r[k] in c;
      }
    }
  }

  // ---------------------------------------------------------------- _parse_device_id

  /** `_parse_device_id(params)` */
  function ParseDeviceId(params: map<string, PyValue>): (r: Option<string>)
    ensures r.Some? ==> IsTrimmed(r.value) && r.value != ""
    ensures Get(params, "device").PyStr? ==>
      r == (if Strip(Get(params, "device").s) != "" then Some(Strip(Get(params, "device").s)) else None)
    ensures !Get(params, "device").PyStr? && !Get(params, "device").PyList? ==> r.None?
  {
    var raw := Get(params, "device");
    match raw
    case PyStr(s) => var c := Strip(s); if c != "" then Some(c) else None
    case PyList(items) =>
      if items != [] && items[0].PyStr? && Strip(items[0].s) != "" then Some(Strip(items[0].s)) else None
    case _ => None
  }

  /** A device id sent alone or as the head of a list is read back unchanged; a list's other elements never count. */
  lemma DeviceIdRoundTrip(id: string, rest: seq<PyValue>, params: map<string, PyValue>)
    requires IsTrimmed(id) && id != ""
    ensures ParseDeviceId(params["device" := PyStr(id)]) == Some(id)
    ensures ParseDeviceId(params["device" := PyList([PyStr(id)] + rest)]) == Some(id)
    ensures ParseDeviceId(params["device" := PyList([PyNone] + rest)]) == None
  {
    StripTrimmed(id);
    assert Get(params["device" := PyStr(id)], "device") == PyStr(id);
    assert Get(params["device" := PyList([PyStr(id)] + rest)], "device") == PyList([PyStr(id)] + rest);
    assert Get(params["device" := PyList([PyNone] + rest)], "device") == PyList([PyNone] + rest);
  }

  // ---------------------------------------------------------------- list_adb_devices

  /** One entry of the device list the server reports. */
  datatype AdbDevice = AdbDevice(id: string, state: string, status: string, model: Option<string>)

  /** How the `adb devices -l` subprocess ended. */
  datatype AdbRun = Ran(stdout: string) | NotFound | TimedOut | Crashed(message: string)

  const ModelTag := "model:"
  const Online := "online"
  const Offline := "offline"
  const AdbMissing := "未找到 adb 命令，请先安装 Android Platform Tools 并加入 PATH"
  const AdbTimeout := "执行 adb devices 超时"
  const AdbFailedLead := "执行 adb devices 失败: "

  /** The text after `model:` in the first token that starts with it. */
  function ModelOf(parts: seq<string>): (r: Option<string>)
    ensures r.None? <==> forall k :: 0 <= k < |parts| ==> !StartsWith(parts[k], ModelTag)
  {
    if parts == [] then None
    else if StartsWith(parts[0], ModelTag) then Some(parts[0][|ModelTag|..])
    else
      var r := ModelOf(parts[1..]);
      assert forall k :: 1 <= k < |parts| ==> parts[k] == parts[1..][k - 1];
      r
  }

  /** The first `model:` token decides: nothing before it has the tag, and the model is its tail. */
  lemma {:induction false} ModelOfFirst(parts: seq<string>, k: nat)
    requires k < |parts| && StartsWith(parts[k], ModelTag)
    requires forall j :: 0 <= j < k ==> !StartsWith(parts[j], ModelTag)
    ensures ModelOf(parts) == Some(parts[k][|ModelTag|..])
    decreases k
  {
    if k > 0 {
      assert parts[1..][k - 1] == parts[k];
      ModelOfFirst(parts[1..], k - 1);
    }
  }

  /** The `for part in parts[2:]` search, which stops at the first `model:` token. */
  method FindModel(parts: seq<string>) returns (model: Option<string>)
    ensures model == ModelOf(parts)
  {
    model := None;
    var i := 0;
    while i < |parts|
      invariant 0 <= i <= |parts|
      invariant forall j :: 0 <= j < i ==> !StartsWith(parts[j], ModelTag)
    {
      if StartsWith(parts[i], ModelTag) {
        model := Some(parts[i][|ModelTag|..]);
        ModelOfFirst(parts, i);
        return;
      }
      i := i + 1;
    }
  }

  /** The device a line of the listing describes, if it has at least two tokens. */
  function DeviceOf(line: string): (r: Option<AdbDevice>)
    ensures |Words(line)| < 2 <==> r.None?
    ensures r.Some? ==> r.value.id == Words(line)[0] && r.value.state == Words(line)[1]
    ensures r.Some? ==> (r.value.status == Online <==> r.value.state == "device")
    ensures r.Some? ==> r.value.status in {Online, Offline}
    ensures r.Some? ==> r.value.model == ModelOf(Words(line)[2..])
  {
    var parts := Words(line);
    if |parts| < 2 then None
    else
      var state := parts[1];
      Some(AdbDevice(parts[0], state, if state == "device" then Online else Offline, ModelOf(parts[2..])))
  }

  /** The devices a run of listing lines describe, in order. */
  function Parsed(lines: seq<string>): (r: seq<AdbDevice>)
    ensures |r| <= |lines|
    ensures forall k :: 0 <= k < |r| ==> (r[k].status == Online <==> r[k].state == "device")
    ensures forall k :: 0 <= k < |r| ==> IsWord(r[k].id) && IsWord(r[k].state)
  {
    if lines == [] then []
    else
      var d := DeviceOf(lines[|lines| - 1]);
      Parsed(lines[..|lines| - 1]) + (if d.Some? then [d.value] else [])
  }

  /** The lines of the listing: `stdout.strip().split("\n")` (never empty). */
  function Lines(stdout: string): (r: seq<string>)
    ensures |r| >= 1
  {
    SplitOn(Strip(stdout), '\n')
  }

  /** A blank line has no token. */
  lemma BlankHasNoWords(line: string)
    requires Strip(line) == ""
    ensures Words(line) == []
  {
    var t := TrimLeft(line);
    assert t == [];
  }

  /** One turn of the loop over `lines[1:]`: a blank line or a line with fewer than two tokens is skipped. */
  method ParseLine(line: string) returns (d: Option<AdbDevice>)
    ensures d == DeviceOf(line)
  {
    if Strip(line) == "" {
      BlankHasNoWords(line);
      return None;
    }
    var parts := Words(line);
    if |parts| < 2 {
      return None;
    }
    var deviceId, state := parts[0], parts[1];
    var model := FindModel(parts[2..]);
    d := Some(AdbDevice(deviceId, state, if state == "device" then Online else Offline, model));
  }

  /** The loop over `lines[1:]`, collecting one device per line that describes one. */
  method ParseListing(stdout: string) returns (devices: seq<AdbDevice>)
    ensures devices == Parsed(Lines(stdout)[1..])
  {
    var lines := Lines(stdout);
    var body := lines[1..];
    devices := [];
    var i := 0;
    while i < |body|
      invariant 0 <= i <= |body|
      invariant devices == Parsed(body[..i])
    {
      assert body[..i + 1][..i] == body[..i];
      var d := ParseLine(body[i]);
      if d.Some? {
        devices := devices + [d.value];
      }
      i := i + 1;
    }
    assert body[..i] == body;
  }

  /** `list_adb_devices()`: the devices and `None`, or no devices and the error text. */
  method ListAdbDevices(run: AdbRun) returns (devices: seq<AdbDevice>, error: Option<string>)
    ensures run.Ran? ==> error.None? && devices == Parsed(Lines(run.stdout)[1..])
    ensures run.NotFound? ==> devices == [] && error == Some(AdbMissing)
    ensures run.TimedOut? ==> devices == [] && error == Some(AdbTimeout)
    ensures run.Crashed? ==> devices == [] && error == Some(AdbFailedLead + run.message)
  {
    match run
    case NotFound => return [], Some(AdbMissing);
    case TimedOut => return [], Some(AdbTimeout);
    case Crashed(m) => return [], Some(AdbFailedLead + m);
    case Ran(out) =>
      devices := ParseListing(out);
      error := None;
  }

  /** The header line never yields a device, and each later line yields exactly what `DeviceOf` reads from it. */
  lemma {:induction false} ParsedLines(prefix: seq<string>, line: string)
    ensures Parsed(prefix + [line]) == Parsed(prefix) + (if DeviceOf(line).Some? then [DeviceOf(line).value] else [])
    ensures Strip(line) == "" ==> Parsed(prefix + [line]) == Parsed(prefix)
  {
    assert (prefix + [line])[..|prefix|] == prefix;
    if Strip(line) == "" {
      BlankHasNoWords(line);
    }
  }

  /** Every device comes from a line after the header with at least two tokens. */
  lemma {:induction false} ParsedFromLines(lines: seq<string>, d: AdbDevice)
    requires d in Parsed(lines)
    ensures exists k :: 0 <= k < |lines| && DeviceOf(lines[k]) == Some(d)
    decreases |lines|
  {
    var p := lines[..|lines| - 1];
    var last := lines[|lines| - 1];
    if d in Parsed(p) {
      ParsedFromLines(p, d);
      var k :| 0 <= k < |p| && DeviceOf(p[k]) == Some(d);
      assert lines[k] == p[k];
    } else {
      assert DeviceOf(lines[|lines| - 1]) == Some(d);
    }
  }

  // ---------------------------------------------------------------- log_consumer and handle_status

  const ExeTag := "[EXE]"
  const StartWord := "启动"
  const ErrorWord := "ERROR"
  const SuccessWord := "成功"

  /** The action markers looked at first. */
  predicate ActionFirst(m: string)
  {
    Contains(m, ExeTag) || Contains(m, StartWord)
  }

  /** The problem markers looked at second. */
  predicate Problem(m: string)
  {
    Contains(m, Cross) || Contains(m, Warn) || Contains(m, ErrorWord)
  }

  /** The success markers looked at last. */
  predicate Success(m: string)
  {
    Contains(m, Tick) || Contains(m, SuccessWord)
  }

  /** The log type `log_consumer` gives a message before broadcasting it. */
  function LogType(m: string): (r: string)
    ensures r in {"action", "performance", "info"}
  {
    if ActionFirst(m) then "action"
    else if Problem(m) then "performance"
    else if Success(m) then "action"
    else "info"
  }

  /**
   * The order of the tests decides: an action marker beats a problem marker, which beats a
   * success marker, and a message with none of them is plain information.
   */
  lemma LogTypeOrder(m: string)
    ensures LogType(m) == "performance" <==> !ActionFirst(m) && Problem(m)
    ensures LogType(m) == "action" <==> ActionFirst(m) || (!Problem(m) && Success(m))
    ensures LogType(m) == "info" <==> !ActionFirst(m) && !Problem(m) && !Success(m)
  {
  }

  /** A message that is an action by its first markers stays one whatever is appended to it. */
  lemma LogTypeActionSticks(m: string, tail: string)
    requires ActionFirst(m)
    ensures LogType(m + tail) == "action"
  {
    if Contains(m, ExeTag) {
      ContainsLeft(m, tail, ExeTag);
    } else {
      ContainsLeft(m, tail, StartWord);
    }
  }

  /** An error line is a performance entry, unless it also carries an action marker. */
  lemma LogTypeError(m: string)
    requires !ActionFirst(ErrorWord + m)
    ensures LogType(ErrorWord + m) == "performance"
  {
    ContainsLeft(ErrorWord, m, ErrorWord);
    ContainsSelf(ErrorWord);
  }

  /** The `status` field of `handle_status`. */
  function StatusText(isRunning: bool, stopRequested: bool): (r: string)
    ensures r == "stopping" <==> isRunning && stopRequested
    ensures r == "running" <==> isRunning && !stopRequested
    ensures r == "idle" <==> !isRunning
  {
    if isRunning && stopRequested then "stopping" else if isRunning then "running" else "idle"
  }
}
