/**
 * The Python values the agent handles: what json.loads yields and what its
 * state dictionaries hold, with the pieces of Python's built-in behaviour the
 * pipeline relies on: dict lookup and item assignment, truthiness, int(),
 * comparing a value with an int, str() of an int and ", ".join.
 */
module PyValues {
  import opened Wrappers

  /** A decoded JSON value. Objects keep their entries in insertion order, as a Python dict does. */
  datatype Json =
    | JNull
    | JBool(b: bool)
    | JInt(n: int)
    | JStr(s: string)
    | JArray(items: seq<Json>)
    | JObject(members: seq<(string, Json)>)

  /**
   * A dict with string keys as an association list in insertion order.
   * The first entry of a key is the live one; the operations below never
   * create a second entry for a key.
   */
  type Dict = seq<(string, Json)>

  /** Position of the live entry of k. */
  function Find(d: Dict, k: string): (r: Option<nat>)
    ensures r.Some? ==> r.value < |d| && d[r.value].0 == k
    ensures r.Some? ==> forall j :: 0 <= j < r.value ==> d[j].0 != k
    ensures r.None? ==> forall j :: 0 <= j < |d| ==> d[j].0 != k
  {
    if d == [] then None
    else if d[0].0 == k then Some(0)
    else
      match Find(d[1..], k)
      case None =>
        assert forall j :: 1 <= j < |d| ==> d[j] == d[1..][j - 1];
        None
      case Some(i) =>
        assert forall j :: 1 <= j < |d| ==> d[j] == d[1..][j - 1];
        Some(i + 1)
  }

  /** `d.get(k)`: the value of k, or None when k is not a key. */
  function Lookup(d: Dict, k: string): Option<Json>
  {
    match Find(d, k)
    case Some(i) => Some(d[i].1)
    case None => None
  }

  /** `k in d` */
  predicate Has(d: Dict, k: string)
  {
    Find(d, k).Some?
  }

  /** `d[k]` where k is known to be a key. */
  function Get(d: Dict, k: string): Json
    requires Has(d, k)
  {
    d[Find(d, k).value].1
  }

  /** `d.get(k, default)` */
  function GetOr(d: Dict, k: string, default: Json): Json
  {
    match Lookup(d, k)
    case Some(v) => v
    case None => default
  }

  /** `list(d.keys())` */
  function Keys(d: Dict): seq<string>
  {
    seq(|d|, i requires 0 <= i < |d| => d[i].0)
  }

  /** No key has two entries, as in every dict Python builds. */
  predicate DistinctKeys(d: Dict)
  {
    forall i, j :: 0 <= i < j < |d| ==> d[i].0 != d[j].0
  }

  /** `d[k] = v`: an existing key keeps its position, a new one is appended. */
  function Put(d: Dict, k: string, v: Json): (r: Dict)
    ensures Lookup(r, k) == Some(v)
    ensures forall k' :: k' != k ==> Lookup(r, k') == Lookup(d, k')
    ensures Keys(r) == if Has(d, k) then Keys(d) else Keys(d) + [k]
    ensures DistinctKeys(d) ==> DistinctKeys(r)
  {
    match Find(d, k)
    case Some(i) =>
      var r := d[i := (k, v)];
      assert forall k' :: Find(r, k') == Find(d, k') by {
        forall k' ensures Find(r, k') == Find(d, k') {
          assert forall j :: 0 <= j < |d| ==> r[j].0 == d[j].0;
        }
      }
      assert Find(r, k) == Some(i);
      r
    case None =>
      var r := d + [(k, v)];
      assert forall k' :: k' != k ==> Find(r, k') == Find(d, k') by {
        forall k' | k' != k ensures Find(r, k') == Find(d, k') {
          assert forall j :: 0 <= j < |d| ==> r[j] == d[j];
        }
      }
      assert forall j :: 0 <= j < |d| ==> r[j] == d[j];
      assert r[|d|].0 == k;
      assert forall j :: 0 <= j < |d| ==> r[j].0 != k;
      assert Find(r, k) == Some(|d|);
      r
  }

  /** Two dicts that agree on the lookup of k agree on `k in d` and on `d[k]`. */
  lemma SameEntry(d1: Dict, d2: Dict, k: string)
    requires Lookup(d1, k) == Lookup(d2, k)
    ensures Has(d1, k) == Has(d2, k)
    ensures Has(d1, k) ==> Get(d1, k) == Get(d2, k)
  {
  }

  /** Python truthiness of a value. */
  predicate Truthy(v: Json)
  {
    match v
    case JNull => false
    case JBool(b) => b
    case JInt(n) => n != 0
    case JStr(s) => s != ""
    case JArray(items) => items != []
    case JObject(members) => members != []
  }

  /** `isinstance(v, int)`, which bool satisfies too. */
  predicate IsIntLike(v: Json)
  {
    v.JInt? || v.JBool?
  }

  /** The integer an int-like value stands for (True is 1, False is 0). */
  function IntValue(v: Json): int
    requires IsIntLike(v)
  {
    match v
    case JInt(n) => n
    case JBool(b) => if b then 1 else 0
  }

  /** `v == n` for a looked-up value v (None when the key is missing) and an int n. */
  predicate PyEqualsInt(v: Option<Json>, n: int)
  {
    v.Some? && IsIntLike(v.value) && IntValue(v.value) == n
  }

  /** The name Python's error messages give the type of v. */
  function TypeName(v: Json): string
  {
    match v
    case JNull => "NoneType"
    case JBool(_) => "bool"
    case JInt(_) => "int"
    case JStr(_) => "str"
    case JArray(_) => "list"
    case JObject(_) => "dict"
  }

  predicate IsDigit(c: char)
  {
    '0' <= c <= '9'
  }

  predicate AllDigits(s: string)
  {
    forall k :: 0 <= k < |s| ==> IsDigit(s[k])
  }

  function DigitValue(c: char): nat
    requires IsDigit(c)
  {
    c as int - '0' as int
  }

  function DigitChar(n: nat): (c: char)
    requires n < 10
    ensures IsDigit(c) && DigitValue(c) == n
  {
    ('0' as int + n) as char
  }

  /** The value of a decimal digit string, leading zeros allowed ("007" is 7). */
  function DecimalValue(s: string): nat
    requires AllDigits(s)
  {
    if s == [] then 0 else DecimalValue(s[..|s| - 1]) * 10 + DigitValue(s[|s| - 1])
  }

  /** The decimal digits of n, without leading zeros; reading them back gives n. */
  function NatToString(n: nat): (r: string)
    ensures |r| > 0 && AllDigits(r) && DecimalValue(r) == n
    ensures |r| > 1 ==> r[0] != '0'
  {
    if n < 10 then [DigitChar(n)]
    else
      var r := NatToString(n / 10) + [DigitChar(n % 10)];
      assert r[..|r| - 1] == NatToString(n / 10);
      r
  }

  /** `str(n)` */
  function IntToString(n: int): string
  {
    if n < 0 then "-" + NatToString(-n) else NatToString(n)
  }

  /** The characters `str.strip()` removes that this model recognises: ASCII whitespace. */
  predicate IsSpace(c: char)
  {
    c == ' ' || c == '\t' || c == '\n' || c == '\r' || c == '\U{0B}' || c == '\U{0C}'
  }

  function TrimStart(s: string): string
  {
    if s != [] && IsSpace(s[0]) then TrimStart(s[1..]) else s
  }

  function TrimEnd(s: string): string
  {
    if s != [] && IsSpace(s[|s| - 1]) then TrimEnd(s[..|s| - 1]) else s
  }

  /** `int(s)` for a string s: optional surrounding whitespace, an optional sign, then decimal digits. */
  function ParseIntLiteral(s: string): Option<int>
  {
    var t := TrimStart(TrimEnd(s));
    if t == [] then None
    else if t[0] == '-' || t[0] == '+' then
      if |t| > 1 && AllDigits(t[1..]) then
        var magnitude: int := DecimalValue(t[1..]);
        Some(if t[0] == '-' then -magnitude else magnitude)
      else None
    else if AllDigits(t) then Some(DecimalValue(t))
    else None
  }

  /** Reading back what str() printed gives the same integer. */
  lemma {:induction false} IntStringRoundTrip(n: int)
    ensures ParseIntLiteral(IntToString(n)) == Some(n)
  {
    var s := IntToString(n);
    var digits := NatToString(if n < 0 then -n else n);
    assert s[|s| - 1] == digits[|digits| - 1];
    assert TrimEnd(s) == s;
    if n < 0 {
      assert s[0] == '-';
      assert s[1..] == digits;
    } else {
      assert s == digits;
      assert IsDigit(s[0]);
    }
    assert TrimStart(s) == s;
  }

  /** `int(v)`: the integer v converts to, or the text of the exception Python raises. */
  function PyInt(v: Json): (r: Result<int, string>)
    ensures IsIntLike(v) ==> r == Success(IntValue(v))
    ensures v.JStr? ==> (r.Success? <==> ParseIntLiteral(v.s).Some?)
    ensures v.JStr? && ParseIntLiteral(v.s).Some? ==> r == Success(ParseIntLiteral(v.s).value)
    ensures (v.JNull? || v.JArray? || v.JObject?) ==> r.Failure?
  {
    match v
    case JInt(n) => Success(n)
    case JBool(b) => Success(if b then 1 else 0)
    case JStr(s) =>
      (match ParseIntLiteral(s)
       case Some(n) => Success(n)
       case None => Failure("invalid literal for int() with base 10: '" + s + "'"))
    case _ =>
      Failure("int() argument must be a string, a bytes-like object or a real number, not '"
              + TypeName(v) + "'")
  }

  /** How an f-string renders an int-like value: `str(5)` is "5", `str(True)` is "True". */
  function IntLikeText(v: Json): string
    requires IsIntLike(v)
  {
    match v
    case JInt(n) => IntToString(n)
    case JBool(b) => if b then "True" else "False"
  }

  /** `sep.join(parts)` */
  function Join(parts: seq<string>, sep: string): string
  {
    if parts == [] then ""
    else if |parts| == 1 then parts[0]
    else parts[0] + sep + Join(parts[1..], sep)
  }

  /** A JSON array of the given strings. */
  function StrArray(names: seq<string>): (v: Json)
    ensures v.JArray? && |v.items| == |names|
    ensures forall i :: 0 <= i < |names| ==> v.items[i] == JStr(names[i])
  {
    JArray(seq(|names|, i requires 0 <= i < |names| => JStr(names[i])))
  }

  /** True when v is a JSON array whose items are all strings. */
  predicate IsStrArray(v: Json)
  {
    v.JArray? && forall i :: 0 <= i < |v.items| ==> v.items[i].JStr?
  }

  /** The strings of a JSON array of strings; the inverse of StrArray. */
  function StrItems(v: Json): (names: seq<string>)
    requires IsStrArray(v)
    ensures |names| == |v.items|
    ensures forall i :: 0 <= i < |names| ==> v.items[i] == JStr(names[i])
  {
    seq(|v.items|, i requires 0 <= i < |v.items| => v.items[i].s)
  }

  lemma StrArrayRoundTrip(names: seq<string>)
    ensures IsStrArray(StrArray(names)) && StrItems(StrArray(names)) == names
  {
  }
}
