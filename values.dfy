/** JavaScript runtime values as the interceptors and the analytics code see
    them: responses, query rows and event properties are plain objects whose
    fields are kept in insertion order. Numbers are integers here; fractions
    are not part of this model. */
module Values {
  import opened Text

  datatype Value =
    | Undefined
    | Null
    | Bool(b: bool)
    | Num(n: int)
    | NaN
    | Str(s: string)
    | Arr(elems: seq<Value>)
    | Obj(fields: seq<(string, Value)>)

  /** JavaScript truthiness: `undefined`, `null`, `false`, `0`, `NaN` and
      `""` are falsy; every array and object is truthy. */
  predicate Truthy(v: Value): (b: bool)
    ensures !b <==> v in {Undefined, Null, Bool(false), Num(0), NaN, Str("")}
  {
    match v
    case Undefined => false
    case Null => false
    case Bool(b) => b
    case Num(n) => n != 0
    case NaN => false
    case Str(s) => s != ""
    case Arr(_) => true
    case Obj(_) => true
  }

  /** `a || b` */
  function Or(a: Value, b: Value): (r: Value)
    ensures Truthy(a) ==> r == a
    ensures !Truthy(a) ==> r == b
  {
    if Truthy(a) then a else b
  }

  /** `typeof v === 'object' && !Array.isArray(v)` for a non-null value. */
  predicate IsPlainObject(v: Value) {
    v.Obj?
  }

  /** `key in v` for an object. */
  predicate Has(v: Value, key: string) {
    v.Obj? && exists i :: 0 <= i < |v.fields| && v.fields[i].0 == key
  }

  /** The value of the first field named `key`, `undefined` when absent. */
  function GetField(fields: seq<(string, Value)>, key: string): Value {
    if fields == [] then Undefined
    else if fields[0].0 == key then fields[0].1
    else GetField(fields[1..], key)
  }

  /** `v[key]` for an object; `undefined` for anything else. */
  function Get(v: Value, key: string): Value {
    if v.Obj? then GetField(v.fields, key) else Undefined
  }

  /** A field that is not there reads as `undefined`. */
  lemma {:induction false} GetFieldMissing(fields: seq<(string, Value)>, key: string)
    requires forall i :: 0 <= i < |fields| ==> fields[i].0 != key
    ensures GetField(fields, key) == Undefined
    decreases |fields|
  {
    if fields != [] {
      GetFieldMissing(fields[1..], key);
    }
  }

  /** Reading a field a value does not have gives `undefined`. */
  lemma {:induction false} GetMissing(v: Value, key: string)
    requires !Has(v, key)
    ensures Get(v, key) == Undefined
  {
    if v.Obj? {
      GetFieldMissing(v.fields, key);
    }
  }

  /** A field that is listed first can be read back. */
  lemma {:induction false} GetFirst(k: string, x: Value, rest: seq<(string, Value)>)
    ensures Get(Obj([(k, x)] + rest), k) == x
  {
  }

  /** The `i`-th field can be read back when no earlier field has its name. */
  lemma {:induction false} GetAt(fields: seq<(string, Value)>, i: nat)
    requires i < |fields|
    requires forall j :: 0 <= j < i ==> fields[j].0 != fields[i].0
    ensures GetField(fields, fields[i].0) == fields[i].1
    decreases i
  {
    if i > 0 {
      GetAt(fields[1..], i - 1);
    }
  }

  /** The numeric value of an optional query string under `Number(x)`:
      absent is `NaN`, blank text is 0, otherwise an optionally signed
      decimal integer between blanks; `None` stands for `NaN`. */
  function NumberOf(s: Option<string>): (r: Option<int>)
    ensures s.None? ==> r.None?
    ensures s.Some? && AllSpace(s.value) ==> r == Some(0)
  {
    if s.None? then None
    else
      var t := Trim(s.value);
      assert AllSpace(s.value) ==> t == "" by {
        if AllSpace(s.value) { TrimAllSpace(s.value); }
      }
      if t == "" then Some(0)
      else if AllDigits(t) then Some(DigitsValue(t) as int)
      else if (t[0] == '-' || t[0] == '+') && |t| > 1 && AllDigits(t[1..]) then
        var v: int := DigitsValue(t[1..]);
        Some(if t[0] == '-' then -v else v)
      else None
  }

  /** `Number(v)` for a value; `None` stands for `NaN`. `null` and `false`
      are 0, `true` is 1, text is read as `Number` reads a query string. */
  function JsNumber(v: Value): (r: Option<int>)
    ensures v.Num? ==> r == Some(v.n)
    ensures v.Null? || v == Bool(false) || v == Str("") ==> r == Some(0)
    ensures v == Bool(true) ==> r == Some(1)
    ensures v.Undefined? || v.NaN? ==> r.None?
  {
    match v
    case Undefined => None
    case Null => Some(0)
    case Bool(b) => Some(if b then 1 else 0)
    case Num(n) => Some(n)
    case NaN => None
    case Str(s) => NumberOf(Some(s))
    case Arr(_) => None
    case Obj(_) => None
  }

  /** The `TypeError` of reading property `prop` of `null` or `undefined`. */
  function ReadOfNothing(v: Value, prop: string): (m: string)
    requires v.Null? || v.Undefined?
    ensures StartsWith(m, "Cannot read properties of ")
  {
    "Cannot read properties of " + (if v.Null? then "null" else "undefined") + " (reading '" + prop + "')"
  }

  /** `Number(x) || d` for an optional query string. */
  function NumberOr(s: Option<string>, d: int): (r: int)
    ensures r != 0 || d == 0
    ensures s.None? ==> r == d
    ensures NumberOf(s).Some? && NumberOf(s).value != 0 ==> r == NumberOf(s).value
    ensures NumberOf(s).None? || NumberOf(s).value == 0 ==> r == d
  {
    var n := NumberOf(s);
    if n.Some? && n.value != 0 then n.value else d
  }

  /** `parseInt(x) || d` for an optional query string. */
  function ParseIntOr(s: Option<string>, d: int): (r: int)
    ensures r != 0 || d == 0
    ensures s.None? ==> r == d
    ensures s.Some? && ParseInt(s.value).Some? && ParseInt(s.value).value != 0 ==> r == ParseInt(s.value).value
    ensures s.Some? && (ParseInt(s.value).None? || ParseInt(s.value).value == 0) ==> r == d
  {
    var n := if s.None? then None else ParseInt(s.value);
    if n.Some? && n.value != 0 then n.value else d
  }

  /** A page or limit written as an integer's decimal text is read back as
      that integer, unless it is 0, which falls back to the default. */
  lemma {:induction false} ParseIntOrReadsInteger(i: int, d: int)
    ensures ParseIntOr(Some(IntToString(i)), d) == if i == 0 then d else i
  {
    ParseIntOfIntToString(i);
  }

  /** `Number` reads the decimal text of a natural number back, so
      `Number(x) || d` gives the number unless it is 0. */
  lemma {:induction false} NumberOrReadsNatural(n: nat, d: int)
    ensures NumberOr(Some(NatToString(n)), d) == if n == 0 then d else n
  {
    NumberOfDigits(NatToString(n));
    DigitsValueOfNatToString(n);
  }

  /** A non-empty digit string is read by `Number` as its decimal value. */
  lemma {:induction false} NumberOfDigits(t: string)
    requires t != [] && AllDigits(t)
    ensures NumberOf(Some(t)) == Some(DigitsValue(t) as int)
  {
    assert IsDigit(t[0]) && IsDigit(t[|t| - 1]);
    assert !IsJsSpace(t[0]) && !IsJsSpace(t[|t| - 1]);
    TrimUnchanged(t);
  }
}
