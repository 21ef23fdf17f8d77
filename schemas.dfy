/** The schemas and the value every schema's `parse` produces. Each schema
    variant is one of the library's classes (`PNumber`, `PString`,
    `PBoolean`, `PArray`, `PObject`, `PChoice`, `PCustom`); the library's
    constructor functions `number()`, `string()`, `boolean()`, `array(s)`,
    `object(fields)`, `choice(values, d)` and `custom(f)` are the datatype's
    constructors. */
module Schemas {
  import opened Values
  import opened Numerals

  datatype Schema =
    | Number
    | String
    | Boolean
    | Array(element: Schema)
    | Object(fields: seq<(string, Schema)>)
    | Choice(values: seq<Value>, defaultValue: Value)
    | Custom(parser: Value -> Value)

  function FieldNames<T>(fields: seq<(string, T)>): (names: seq<string>)
    ensures |names| == |fields|
    ensures forall i :: 0 <= i < |fields| ==> names[i] == fields[i].0
  {
    seq(|fields|, i requires 0 <= i < |fields| => fields[i].0)
  }

  // ---------------------------------------------------------------------
  // The primitive coercers

  /** `PNumber.parse`: a number is kept, a string gives the number it
      spells (0 where `Number(text)` is NaN), a boolean gives 1 or 0, and
      anything else gives 0. */
  function ParseNumber(input: Value): (r: int)
    ensures input.Num? ==> r == input.n
    ensures input.Bool? ==> r == if input.b then 1 else 0
    ensures !input.Num? && !input.Str? && !input.Bool? ==> r == 0
  {
    match input
    case Num(n) => n
    case Str(s) => (match StringToNumber(s) case Some(n) => n case None => 0)
    case Bool(b) => if b then 1 else 0
    case _ => 0
  }

  /** `PString.parse`: a string is kept, a boolean or a number becomes its
      text, and anything else gives "". */
  function ParseString(input: Value): (r: string)
    ensures input.Str? ==> r == input.s
    ensures input.Bool? ==> r == if input.b then "true" else "false"
    ensures input.Num? ==> r == NumberToString(input.n)
    ensures !input.Str? && !input.Bool? && !input.Num? ==> r == ""
  {
    match input
    case Str(s) => s
    case Bool(b) => if b then "true" else "false"
    case Num(n) => NumberToString(n)
    case _ => ""
  }

  predicate IsUpperAscii(c: char) {
    'A' <= c <= 'Z'
  }

  function LowerAsciiChar(c: char): (r: char)
    ensures !IsUpperAscii(r)
    ensures r == c || (IsUpperAscii(c) && r as int == c as int + 32)
  {
    if IsUpperAscii(c) then (c as int + 32) as char else c
  }

  /** `text.toLowerCase()` on the ASCII letters. Only the ASCII letters
      `A`, `E`, `F`, `L` and `S` lower-case to the letters of "false", so
      comparing the result with "false" is exact. */
  function LowerAscii(text: string): (r: string)
    ensures |r| == |text|
    ensures forall i :: 0 <= i < |r| ==> !IsUpperAscii(r[i])
    ensures forall i :: 0 <= i < |r| ==>
              r[i] == text[i] || (IsUpperAscii(text[i]) && r[i] as int == text[i] as int + 32)
  {
    seq(|text|, i requires 0 <= i < |text| => LowerAsciiChar(text[i]))
  }

  /** `!!input`: JavaScript truthiness. The falsy values are exactly
      undefined, null, false, 0 and the empty string; every array and
      object is truthy. */
  function Truthy(input: Value): (r: bool)
    ensures !r <==> input in [Undefined, Null, Bool(false), Num(0), Str("")]
  {
    match input
    case Undefined => false
    case Null => false
    case Bool(b) => b
    case Num(n) => n != 0
    case Str(s) => s != ""
    case Arr(_) => true
    case Obj(_) => true
  }

  /** `PBoolean.parse`: a boolean is kept; a string is false when it is
      empty or reads "false" in any case; an array is true when it is not
      empty; anything else has its truthiness. */
  function ParseBoolean(input: Value): (r: bool)
    ensures input.Bool? ==> r == input.b
    ensures input.Str? ==> (r <==> input.s != "" && LowerAscii(input.s) != "false")
    ensures input.Arr? ==> (r <==> |input.elems| > 0)
    ensures !input.Bool? && !input.Str? && !input.Arr? ==> r == Truthy(input)
  {
    match input
    case Bool(b) => b
    case Str(s) => if LowerAscii(s) == "false" then false else Truthy(input)
    case Arr(elems) => |elems| > 0
    case _ => Truthy(input)
  }

  /** `PChoice.parse` */
  function ParseChoice(values: seq<Value>, defaultValue: Value, input: Value): (r: Value)
    ensures r in values || r == defaultValue
  {
    if input in values then input else defaultValue
  }

  // ---------------------------------------------------------------------
  // parse, for every schema

  /** `s.parse(input)`. The array case is `PArray.parse`, the object case
      `PObject.parse`: every declared field, in declared order, coerced from
      the input's property of the same name. */
  function Parse(s: Schema, input: Value): Value
    decreases s
  {
    match s
    case Number => Num(ParseNumber(input))
    case String => Str(ParseString(input))
    case Boolean => Bool(ParseBoolean(input))
    case Array(element) =>
      if input.Arr? then
        Arr(seq(|input.elems|, i requires 0 <= i < |input.elems| => Parse(element, input.elems[i])))
      else Arr([])
    case Object(fields) =>
      if IsObjectLike(input) then
        Obj(seq(|fields|, i requires 0 <= i < |fields| =>
          (fields[i].0, Parse(fields[i].1, Property(input, fields[i].0)))))
      else Null
    case Choice(values, defaultValue) => ParseChoice(values, defaultValue, input)
    case Custom(parser) => parser(input)
  }

  // ---------------------------------------------------------------------
  // Target<T>: the type of what `parse` produces

  /** `v` is a value of `Target<s>`: a number, string or boolean for the
      primitive schemas, an array of element targets, a record with exactly
      the declared fields (in order) holding field targets or `null`, one of
      the candidates or the default, and for a custom schema a value its
      parser can return. */
  ghost function Conforms(v: Value, s: Schema): (r: bool)
    ensures r && (s.Number? || s.String? || s.Boolean? || s.Array?) ==> !v.Null? && !v.Undefined?
    ensures s.Object? && v.Null? ==> r
    decreases s
  {
    match s
    case Number => v.Num?
    case String => v.Str?
    case Boolean => v.Bool?
    case Array(element) =>
      v.Arr? && forall i :: 0 <= i < |v.elems| ==> Conforms(v.elems[i], element)
    case Object(fields) =>
      v.Null? ||
      (v.Obj? && FieldNames(v.props) == FieldNames(fields) &&
       forall i :: 0 <= i < |fields| ==> Conforms(v.props[i].1, fields[i].1))
    case Choice(values, defaultValue) => v in values || v == defaultValue
    case Custom(parser) => exists x :: parser(x) == v
  }

  // ---------------------------------------------------------------------
  // Well-formed schemas

  predicate DistinctNames(names: seq<string>) {
    forall i, j :: 0 <= i < j < |names| ==> names[i] != names[j]
  }

  /** Every object schema inside `s` declares each field once, as the
      properties of the record passed to `object(...)` are. */
  predicate KeysDistinct(s: Schema)
    decreases s
  {
    match s
    case Array(element) => KeysDistinct(element)
    case Object(fields) =>
      DistinctNames(FieldNames(fields)) &&
      forall i :: 0 <= i < |fields| ==> KeysDistinct(fields[i].1)
    case _ => true
  }

  /** `s` has no custom schema inside it. */
  predicate CustomFree(s: Schema)
    decreases s
  {
    match s
    case Array(element) => CustomFree(element)
    case Object(fields) => forall i :: 0 <= i < |fields| ==> CustomFree(fields[i].1)
    case Custom(_) => false
    case _ => true
  }

  ghost predicate Idempotent(f: Value -> Value) {
    forall x :: f(f(x)) == f(x)
  }

  /** Every custom parser inside `s` returns what it is given when it is
      given one of its own results. */
  ghost predicate CustomsIdempotent(s: Schema)
    decreases s
  {
    match s
    case Array(element) => CustomsIdempotent(element)
    case Object(fields) => forall i :: 0 <= i < |fields| ==> CustomsIdempotent(fields[i].1)
    case Custom(parser) => Idempotent(parser)
    case _ => true
  }
}
