/**
  JavaScript values as the client code sees them: the payloads of the Redux actions
  and the records held in the slices' state.  Objects are finite maps from property
  names to values; arrays are sequences.
*/
module Js {
  import Text

  datatype Val =
    | Undefined
    | Null
    | NaN
    | Bool(b: bool)
    | Num(n: real)
    | Str(s: string)
    | Arr(elems: seq<Val>)
    | Obj(fields: map<string, Val>)

  /** Property access `v.key`: a missing property (or any property of a primitive) reads as undefined. */
  function Get(v: Val, key: string): (r: Val)
    ensures v.Obj? && key in v.fields ==> r == v.fields[key]
    ensures !(v.Obj? && key in v.fields) ==> r == Undefined
  {
    if v.Obj? && key in v.fields then v.fields[key] else Undefined
  }

  /** JavaScript truthiness: undefined, null, NaN, false, 0 and "" are falsy; every object is truthy. */
  predicate Truthy(v: Val) {
    match v
    case Undefined => false
    case Null => false
    case NaN => false
    case Bool(b) => b
    case Num(n) => n != 0.0
    case Str(s) => s != ""
    case Arr(_) => true
    case Obj(_) => true
  }

  /** `a || b` */
  function Or(a: Val, b: Val): (r: Val)
    ensures Truthy(a) ==> r == a
    ensures !Truthy(a) ==> r == b
  {
    if Truthy(a) then a else b
  }

  /**
    Strict equality `a === b` on primitives.  Two object or array values are
    compared by identity in JavaScript; the model has no identities and treats
    them as different (ids compared by the reducers are always primitives).
  */
  predicate StrictEq(a: Val, b: Val) {
    match a
    case Undefined => b.Undefined?
    case Null => b.Null?
    case NaN => false
    case Bool(x) => b.Bool? && b.b == x
    case Num(x) => b.Num? && b.n == x
    case Str(x) => b.Str? && b.s == x
    case Arr(_) => false
    case Obj(_) => false
  }

  lemma StrictEqSymmetric(a: Val, b: Val)
    ensures StrictEq(a, b) <==> StrictEq(b, a)
  {
  }

  predicate IsArray(v: Val) {
    v.Arr?
  }

  /** The own enumerable properties that an object spread `{...v}` copies. */
  function SpreadFields(v: Val): map<string, Val> {
    if v.Obj? then v.fields else map[]
  }

  /** `{ ...a, ...b }`: the properties of `b` win over those of `a`. */
  function Merge(a: Val, b: Val): (r: Val)
    ensures r.Obj?
    ensures r.fields.Keys == SpreadFields(a).Keys + SpreadFields(b).Keys
    ensures forall k :: k in SpreadFields(b) ==> r.fields[k] == SpreadFields(b)[k]
    ensures forall k :: k in SpreadFields(a) && k !in SpreadFields(b) ==> r.fields[k] == SpreadFields(a)[k]
  {
    Obj(SpreadFields(a) + SpreadFields(b))
  }

  /** Assignment `v.key = x` on an object; other values are left as they are. */
  function SetField(v: Val, key: string, x: Val): (r: Val)
    ensures v.Obj? ==> r.Obj? && Get(r, key) == x && r.fields.Keys == v.fields.Keys + {key}
    ensures v.Obj? ==> forall k :: k in v.fields && k != key ==> r.fields[k] == v.fields[k]
    ensures !v.Obj? ==> r == v
  {
    if v.Obj? then Obj(v.fields[key := x]) else v
  }

  /**
    `x + 1`: numbers, null and booleans add numerically, a string operand is
    concatenated with "1"; undefined and NaN give NaN.  Arrays and objects,
    which JavaScript turns into strings first, are outside the model and
    give NaN here.
  */
  function PlusOne(x: Val): (r: Val)
    ensures x.Num? ==> r == Num(x.n + 1.0)
    ensures x.Str? ==> r == Str(x.s + "1")
    ensures x.Undefined? || x.NaN? ==> r == NaN
  {
    match x
    case Num(n) => Num(n + 1.0)
    case Null => Num(1.0)
    case Bool(b) => Num(if b then 2.0 else 1.0)
    case Str(s) => Str(s + "1")
    case _ => NaN
  }

  /**
    `Number(s)` for a string: white space around the numeral is ignored, a
    blank string is 0 and a plain run of decimal digits is its value.  The
    other numeric spellings (sign, fraction, exponent, hex, Infinity) are
    outside the model and give NaN here.
  */
  function StringToNumber(s: string): (r: Val)
    ensures r.Num? || r.NaN?
    ensures r.Num? <==> Text.AllDigits(Text.Trim(s))
    ensures (forall i :: 0 <= i < |s| ==> Text.IsJsSpace(s[i])) ==> r == Num(0.0)
    ensures s != [] && Text.AllDigits(s) ==> r == Num(Text.ParseDigits(s) as real)
  {
    Text.TrimEmptyIffAllSpace(s);
    Text.TrimDigits(s);
    var t := Text.Trim(s);
    if Text.AllDigits(t) then Num(Text.ParseDigits(t) as real) else NaN
  }

  /**
    `x - 1`: the operand is converted to a number first, a string by
    `StringToNumber`; arrays and objects are outside the model and give NaN.
  */
  function MinusOne(x: Val): (r: Val)
    ensures x.Num? ==> r == Num(x.n - 1.0)
    ensures x.Str? && Text.AllDigits(Text.Trim(x.s)) ==> r == Num(Text.ParseDigits(Text.Trim(x.s)) as real - 1.0)
    ensures x.Str? && !Text.AllDigits(Text.Trim(x.s)) ==> r == NaN
    ensures x.Undefined? || x.NaN? ==> r == NaN
  {
    match x
    case Num(n) => Num(n - 1.0)
    case Null => Num(-1.0)
    case Bool(b) => Num(if b then 0.0 else -1.0)
    case Str(s) =>
      var n := StringToNumber(s);
      if n.Num? then Num(n.n - 1.0) else NaN
    case _ => NaN
  }

  /** The text dayjs's `format` gives for an invalid date, whatever the pattern. */
  const InvalidDate: string := "Invalid Date"

  /** "Invalid Date" is twelve characters with neither ":" nor "-" among them. */
  lemma InvalidDateText()
    ensures |InvalidDate| == 12 && ':' !in InvalidDate && '-' !in InvalidDate
  {
    forall i | 0 <= i < |InvalidDate| ensures InvalidDate[i] != ':' && InvalidDate[i] != '-' {
      assert InvalidDate[i] in {'I', 'n', 'v', 'a', 'l', 'i', 'd', ' ', 'D', 't', 'e'};
    }
  }
}
