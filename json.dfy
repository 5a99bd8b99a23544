/**
 * Values produced by Python's `json.loads`, and the coercions the modelled code
 * applies to them: truthiness, `str()`, `int()`, `float()` and the idiom
 * `(data.get(key) or "").strip()`.
 */
module Json {
  import opened Wrappers
  import opened Text

  /** A JSON number: Python keeps integers and floats apart. */
  datatype Number = Int(i: int) | Float(r: real, text: string)

  /**
   * A decoded JSON value. Floats, lists and objects carry the text Python's
   * `str()` gives them, taken as given; lists and objects carry only their
   * length, which decides their truthiness.
   */
  datatype JVal =
    | JNull
    | JBool(b: bool)
    | JNum(n: Number)
    | JStr(s: string)
    | JList(len: nat, text: string)
    | JDict(len: nat, text: string)

  /** A decoded JSON object, as far as `dict.get` looks at it. */
  type Object = map<string, JVal>

  /** Python's `bool(v)`. */
  predicate Truthy(v: JVal)
    ensures v.JBool? || v.JNum? ==> (Truthy(v) <==> PyFloat(v).value != 0.0)
    ensures v.JStr? ==> (Truthy(v) <==> PyStr(v) != "")
  {
    match v
    case JNull => false
    case JBool(b) => b
    case JNum(Int(i)) => i != 0
    case JNum(Float(r, _)) => r != 0.0
    case JStr(s) => s != ""
    case JList(n, _) => n > 0
    case JDict(n, _) => n > 0
  }

  /** Python's `str(v)`. */
  function PyStr(v: JVal): (r: string)
    ensures v.JNull? ==> r == "None"
    ensures v.JStr? ==> r == v.s
    ensures v.JBool? ==> ParseInt(r).None?
    ensures v.JNum? && v.n.Int? ==> ParseInt(r) == Some(v.n.i)
  {
    match v
    case JNull => "None"
    case JBool(b) => WordsAreNotInts(); if b then "True" else "False"
    case JNum(Int(i)) => IntToStringRoundTrip(i); IntToString(i)
    case JNum(Float(_, t)) => t
    case JStr(s) => s
    case JList(_, t) => t
    case JDict(_, t) => t
  }

  /** Python's renderings of the booleans hold no digit, so `int()` refuses them. */
  lemma WordsAreNotInts()
    ensures ParseInt("True").None? && ParseInt("False").None?
  {
    assert forall k :: 0 <= k < |"True"| ==> !IsDigit("True"[k]);
    assert forall k :: 0 <= k < |"False"| ==> !IsDigit("False"[k]);
  }

  /** Python's `int(r)` for a float: truncation toward zero. */
  function TruncToZero(r: real): (i: int)
    ensures r >= 0.0 ==> i as real <= r < i as real + 1.0
    ensures r < 0.0 ==> i as real - 1.0 < r <= i as real
  {
    if r >= 0.0 then r.Floor else -((-r).Floor)
  }

  /** Python's `int(v)`; `None` where it raises `TypeError` or `ValueError`. */
  function PyInt(v: JVal): (r: Option<int>)
    ensures r.Some? <==> v.JBool? || v.JNum? || (v.JStr? && ParseInt(v.s).Some?)
    ensures v.JStr? ==> r == ParseInt(v.s)
    ensures v.JBool? || v.JNum? ==> -1.0 < PyFloat(v).value - r.value as real < 1.0
    ensures v.JBool? || (v.JNum? && v.n.Int?) ==> PyFloat(v) == Some(r.value as real)
  {
    match v
    case JNull => None
    case JBool(b) => Some(if b then 1 else 0)
    case JNum(Int(i)) => Some(i)
    case JNum(Float(r, _)) => Some(TruncToZero(r))
    case JStr(s) => ParseInt(s)
    case JList(_, _) => None
    case JDict(_, _) => None
  }

  /** Python's `float(v)`; `None` where it raises `TypeError` or `ValueError`. */
  function PyFloat(v: JVal): (r: Option<real>)
    ensures r.Some? <==> v.JBool? || v.JNum? || (v.JStr? && ParseFloat(v.s).Some?)
    ensures v.JBool? ==> r == Some(if v.b then 1.0 else 0.0)
    ensures v.JNum? && v.n.Int? ==> r == Some(v.n.i as real)
    ensures v.JStr? ==> r == ParseFloat(v.s)
  {
    match v
    case JNull => None
    case JBool(b) => Some(if b then 1.0 else 0.0)
    case JNum(Int(i)) => Some(i as real)
    case JNum(Float(r, _)) => Some(r)
    case JStr(s) => ParseFloat(s)
    case JList(_, _) => None
    case JDict(_, _) => None
  }

  /** Wherever `int(v)` succeeds on a string or a number, `float(v)` succeeds with the same value. */
  lemma PyFloatExtendsPyInt(v: JVal)
    requires PyInt(v).Some? && (v.JStr? || (v.JNum? && v.n.Int?) || v.JBool?)
    ensures PyFloat(v) == Some(PyInt(v).value as real)
  {
    if v.JStr? {
      ParseFloatExtendsParseInt(v.s);
    }
  }

  /**
   * `(data.get(key) or "").strip()`: an absent or falsy value gives "", a string
   * is stripped, and any other truthy value has no `strip` and raises
   * (`None` here).
   */
  function OrEmptyStripped(v: Option<JVal>): (r: Option<string>)
    ensures v.None? || !Truthy(v.value) ==> r == Some("")
    ensures v.Some? && v.value.JStr? ==> r == Some(Strip(v.value.s))
    ensures r.None? <==> v.Some? && Truthy(v.value) && !v.value.JStr?
  {
    match v
    case None => Some("")
    case Some(x) =>
      if !Truthy(x) then Some("")
      else if x.JStr? then Some(Strip(x.s))
      else None
  }

  /**
   * `data.get(key, "").strip()`: an absent key gives "", a string is stripped,
   * and every other value (`null` included) raises (`None` here).
   */
  function DefaultStripped(v: Option<JVal>): (r: Option<string>)
    ensures v.None? ==> r == Some("")
    ensures r.Some? && v.Some? ==> v.value.JStr? && r.value == Strip(v.value.s)
    ensures v.Some? && v.value.JStr? ==> r.Some?
  {
    match v
    case None => Some("")
    case Some(JStr(s)) => Some(Strip(s))
    case Some(_) => None
  }
}
