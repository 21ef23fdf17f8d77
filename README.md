# pbfish lenient coercion, modelled in Dafny

pbfish turns any untyped JavaScript value into a value of a declared shape
and never fails. A schema is one of `number()`, `string()`, `boolean()`,
`array(s)`, `object({k: s, ...})`, `choice(values, d)` and `custom(f)`. Its
`parse(input)` returns a value of the schema's shape. A number schema
converts strings and booleans to numbers and a string schema converts
numbers and booleans to text; an input that cannot be converted becomes a
default (`0`, `""`, `[]`, `null`). A boolean schema applies JavaScript
truthiness, except that the text "false" in any case is false and an
array is true only when it is not empty. A choice
keeps one of its candidates and turns anything else into its default, and a
custom schema returns whatever its parser returns.

The model has six modules:

- `Values` (values.dfy): the input values (`Value`: undefined, null,
  booleans, integers, strings, arrays and objects as ordered property lists).
  It also models `input[key]` for plain objects and for arrays. Arrays matter
  here because `typeof [] === "object"`, so `PObject.parse` reads
  properties of arrays as well.
- `Numerals` (numerals.dfy): the two built-in conversions the primitive
  schemas call. `StringToNumber` stands for `Number(text)` followed by
  `isNaN`, with `None` meaning NaN. `NumberToString` stands for
  `toString()`.
- `Schemas` (schemas.dfy): the `Schema` datatype (one constructor per
  schema class; the library's constructor functions are these constructors),
  each class's `parse` as a function, the recursive `Parse`, and
  `Conforms`, the values `parse` can produce, which stand in for the
  compile-time projection `Target<T>` / `MapTarget<T>` (narrower than it
  for choice, custom and object schemas).
- `Parsers` (parsers.dfy): `parse` as the library runs it. `PArray.parse`
  and `PObject.parse` are loops that build a fresh array or record, and
  `ParseValue` dispatches on the schema class. Each method is proved to return
  exactly `Parse`.
- `Properties` (properties.dfy) and `UsageExamples` (examples_of_use.dfy):
  the promised behaviour of each schema over all inputs; the fact that
  `parse` always produces a value of the target type; idempotence; and the
  documented examples and test expectations as lemma instances.

Idempotence (`parse(s, parse(s, x)) == parse(s, x)`) is proved under two
conditions. Every object schema must declare each field name once, which
holds because fields come from the keys of a record literal. Every custom
parser inside the schema must itself be idempotent; a custom-free schema
always is. Without the second condition the property is false
(`custom(x => x + 1)`).

An enumeration schema appears in other versions of the library but not in
src/index.ts, so the model has none.

## Model

| member | source | states |
|---|---|---|
| `Values.Property` | src/index.ts:172 | `input[key]` for an object or array input: on an object, the property lookup of `PropertyOf`; on an array, an element, the length under `"length"`, or `undefined` |
| `Values.PropertyOf` | src/index.ts:172 | `input[key]` on an object is the value of the first property named `key`, or `undefined` when no property has that name |
| `Values.ArrayProperty` | src/index.ts:165-172 | on an array input, the key spelling index `i` reads element `i`, `"length"` reads the length, and any other key reads `undefined` |
| `Values.CanonicalIndexOfNatToString` | src/index.ts:172 | the decimal text of every natural number is read back as that array index |
| `Numerals.NumberToStringRoundTrip` | src/index.ts:76-90 | `Number(n.toString())` gives back `n` for every integer `n` |
| `Numerals.StringToNumber` | src/index.ts:76-77 | `Number(text)` with `isNaN` as `None`, on decimal integers only: blank text is 0, an optionally signed run of decimal digits inside JavaScript white space is its value, anything else is NaN; a text of digits alone reads as its digits' value, and only a text containing `-` reads as a negative number |
| `Numerals.NumberToString` | src/index.ts:90 | `n.toString()` for an integer: its decimal digits, led by `-` exactly when `n` is negative, never empty, with no redundant leading zero and no surrounding white space |
| `Schemas.ParseNumber` | src/index.ts:71-83 | `PNumber.parse`: a number is kept, `true`/`false` give 1/0, and anything that is not a number, string or boolean gives 0; the string branch (`StringToNumber`'s value, or 0 for NaN) is stated by `Properties.NumberOfText` |
| `Schemas.ParseString` | src/index.ts:85-94 | `PString.parse`: a string is kept, a boolean gives "true"/"false", a number gives `NumberToString`, anything else gives `""` |
| `Schemas.LowerAscii` | src/index.ts:101 | `toLowerCase()` on ASCII letters: same length, no upper-case ASCII letter left, every character unchanged or the lower-case form of an upper-case letter |
| `Schemas.Truthy` | src/index.ts:107 | `!!input`: false exactly for undefined, null, false, 0 and `""`; every array and object is true |
| `Schemas.ParseBoolean` | src/index.ts:96-109 | `PBoolean.parse`: a boolean is kept; a string is true unless empty or "false" in any case; an array is true when non-empty; anything else gives `Truthy` |
| `Schemas.Parse` | src/index.ts:67-205 | `schema.parse(input)` for every class: the three primitive coercers, `PArray` mapping the element schema over an array input (`[]` otherwise), `PObject` coercing `input[key]` for each declared field in order (`null` for a non-object), `PChoice` and `PCustom` |
| `Schemas.Conforms` | src/index.ts:135-155 | the values `parse` can produce, a narrowing of `Target<T>` / `MapTarget<T>` (see Left out): a number, string, boolean or array of element targets is never null or undefined, and `null` is a target of every object schema |
| `Properties.NumberCoercion` | src/index.ts:72-82 | number input unchanged, `true`→1, `false`→0, null, undefined, arrays and objects →0 |
| `Properties.NumberFromString` | src/index.ts:75-77 | a string gives the number it spells, and 0 when `Number(text)` is NaN |
| `Properties.NumberOfText` | src/index.ts:75-77 | the string branch of `PNumber.parse`: a string gives `StringToNumber`'s value, or 0 when it is NaN |
| `Properties.NumberTextReadsBack` | src/index.ts:75-77 | the number schema reads the decimal text of any integer back as that integer |
| `Properties.StringCoercion` | src/index.ts:86-93 | string input unchanged, booleans and numbers become their text, every other input becomes `""` |
| `Properties.StringThenBack` | src/index.ts:72-108 | the string schema loses nothing: the number and boolean schemas read its output back to the original number or boolean |
| `Properties.BooleanFromString` | src/index.ts:100-107 | a string coerces to false exactly when it is empty or equals "false" ignoring case |
| `Properties.BooleanCoercion` | src/index.ts:97-108 | booleans unchanged; an array is true iff non-empty; null, undefined and 0 false; other numbers and objects true |
| `Properties.BooleanFalseSpellings` | src/index.ts:101-102 | every upper/lower-case spelling of "false" coerces to false |
| `Properties.ArrayCoercion` | src/index.ts:118-127 | non-array gives `[]`; an array gives an array of the same length with element `i` equal to the element schema's parse of input element `i` |
| `Properties.ObjectCoercion` | src/index.ts:164-175 | non-object gives `null`; otherwise exactly the declared field names in declared order (extra input keys dropped), each the child's parse of `input[key]`, an absent key parsed as `undefined` |
| `Properties.MissingNestedObjectIsNull` | src/index.ts:165-172 | a nested object field missing from the input becomes `null`, not a record of defaults |
| `Properties.ChoiceCoercion` | src/index.ts:187-193 | a candidate is returned unchanged, anything else gives the default; the result is a candidate or the default; choosing again changes nothing |
| `Properties.CustomCoercion` | src/index.ts:203-205 | a custom schema returns its parser's result, which is of its target type |
| `Properties.ParseConforms` | src/index.ts:135-155 | for every schema and input, `parse` returns a value satisfying `Conforms`, and so a value of `Target<schema>` |
| `Properties.ParseFixesConforming` | src/index.ts:71-205 | a value satisfying `Conforms` comes back unchanged, given distinct field names and idempotent custom parsers |
| `Properties.ParseIdempotent` | src/index.ts:71-205 | parsing a parsed value again changes nothing (the parsed value satisfies `Conforms`), given distinct field names and idempotent custom parsers |
| `Properties.CustomFreeIdempotent` | src/index.ts:71-193 | for custom-free schemas with distinct field names, `parse` is idempotent |
| `Schemas.ParseChoice` | src/index.ts:187-193 | the result is always one of the candidates or the default |
| `Parsers.ParseValue` | src/index.ts:67-69 | `schema.parse(input)` returns exactly `Parse(schema, input)` for every schema class |
| `Parsers.ParseArray` | src/index.ts:118-127 | the push loop over the input array returns exactly `Parse(array(s), input)` |
| `Parsers.ParseObject` | src/index.ts:164-175 | the field-by-field loop returns exactly `Parse(object(fields), input)` |
| `UsageExamples.NumberExamples` | test/basic.test.ts:3-21 | numbers unchanged; null, undefined, false →0; true →1 |
| `UsageExamples.NegativeTextExample` | test/basic.test.ts:14 | `"-123"` → -123 |
| `UsageExamples.MalformedTextExample` | test/basic.test.ts:13 | `"123abc"` → 0 |
| `UsageExamples.StringExamples` | test/basic.test.ts:23-39 | strings unchanged; null, undefined →""; true →"true"; 123 →"123" |
| `UsageExamples.StringDocExample` | src/index.ts:10-14 | `string().parse(42)` is `"42"` |
| `UsageExamples.BooleanExamples` | test/basic.test.ts:41-60 | true/false unchanged; null, undefined, "" → false; 123 → true |
| `UsageExamples.BooleanTextExamples` | test/basic.test.ts:51-56 | "12jkj" → true; "false", "False", "FALSE" → false |
| `UsageExamples.ArrayExample` | src/index.ts:28-32 | `array(number()).parse([1, "2", 3])` is `[1, 2, 3]` |
| `UsageExamples.ArrayOfNumbersExample` | test/basic.test.ts:62-66 | an array of numbers comes back unchanged |
| `UsageExamples.NullArrayExamples` | test/type.test.ts:36-38 | arrays of strings, booleans and numbers all coerce `null` to `[]` |
| `UsageExamples.FaultyArrayExample` | test/basic.test.ts:68-70 | `["-1", undefined, 123]` → `[-1, 0, 123]` |
| `UsageExamples.NestedObjectExample` | test/basic.test.ts:73-95 | a wrongly typed field is coerced and an empty nested object gets its fields' defaults |
| `UsageExamples.MissingFieldsExample` | test/basic.test.ts:96-104 | missing scalar fields take defaults and a missing nested object becomes null |
| `UsageExamples.NullInputExample` | src/index.ts:164-166 | the object test's nested schema gives `null` for a `null` input |
| `UsageExamples.ObjectDocExample` | src/index.ts:37-42 | `{a: 1, b: 2}` → `{a: 1, b: "2"}`; `2` → `null` |
| `UsageExamples.ChoiceExamples` | src/index.ts:187-193 | `choice([1,2,3], 1)` maps `"2"` to the default 1 (no coercion before the membership test) and keeps 2 |

## Left out

- Floating point: numbers are integers. NaN, the infinities, -0, fractions and double-precision rounding are not modelled. A NaN number input, which the number schema returns unchanged and the boolean schema treats as false, has no counterpart.
- Numerals.StringToNumber: handles blank text (→ 0) and optionally signed decimal integers, with JavaScript white space trimmed. Other numerals that `Number(text)` accepts (fractions, exponents, `0x`/`0o`/`0b` prefixes, `Infinity`) give `None` here, so the number schema maps them to 0 where JavaScript would not.
- Numerals.NumberToString: the exponent form `toString()` uses from 1e21 upward is not modelled; every integer is written in full.
- Property lookup reads only the value's own properties. Prototype members such as `toString` or an array's `push` are functions in JavaScript. Functions, symbols and bigints are not input kinds of the model.
- `Object.entries` lists integer-like keys first in ascending order. The model keeps the declared order for every key.
- `includes` compares objects and arrays by reference and treats NaN as equal to NaN. The model's choice compares values structurally.
- An object schema that declares the same field name twice has no JavaScript counterpart, because the fields come from the keys of a record literal. For such a schema `Parse` keeps both entries where `result[key] = ...` would overwrite the first; the idempotence lemmas therefore require distinct names (`KeysDistinct`).
- Schemas.Conforms: narrower than the TypeScript type `Target<T>` in three places. For a choice it admits only the candidates and the default, where `Target` is the whole type `T`. For a custom schema it admits only the parser's results, where `Target` is the whole type `T`. For an object it admits exactly the declared keys in declared order, where a TypeScript value may carry extra keys. The fixpoint and idempotence lemmas are stated for `Conforms`; a value of `Target<T>` outside it, such as 5 for `choice([1, 2, 3], 1)` or `{a: 1, b: 2}` for `object({a: number()})`, does not come back unchanged.
- Custom parsers that throw, and cyclic inputs, lie outside the library's never-fails contract and are not modelled.
- `toLowerCase` is modelled on ASCII letters only. This is exact for the comparison with "false", because no other character lower-cases to one of its letters.
- The type-level test helpers (`Exact`, `exactType`) are compile-time only. `Conforms` stands for the type they check.
