/** `parse` as the library runs it: the array and object schemas build
    their result one element or field at a time, asking the child schema's
    `parse` for each. Every method returns exactly what `Schemas.Parse`
    specifies. */
module Parsers {
  import opened Values
  import opened Schemas

  /** `s.parse(input)`, dispatched on the schema's class. */
  method ParseValue(s: Schema, input: Value) returns (r: Value)
    ensures r == Parse(s, input)
    decreases s, 1
  {
    match s
    case Number => r := Num(ParseNumber(input));
    case String => r := Str(ParseString(input));
    case Boolean => r := Bool(ParseBoolean(input));
    case Array(_) => r := ParseArray(s, input);
    case Object(_) => r := ParseObject(s, input);
    case Choice(values, defaultValue) => r := ParseChoice(values, defaultValue, input);
    case Custom(parser) => r := parser(input);
  }

  /** `PArray.parse`: a fresh list, one coerced element pushed per input
      element. */
  method ParseArray(s: Schema, input: Value) returns (r: Value)
    requires s.Array?
    ensures r == Parse(s, input)
    decreases s, 0
  {
    if !input.Arr? {
      return Arr([]);
    }
    var value: seq<Value> := [];
    for i := 0 to |input.elems|
      invariant |value| == i
      invariant forall j :: 0 <= j < i ==> value[j] == Parse(s.element, input.elems[j])
    {
      var v := ParseValue(s.element, input.elems[i]);
      value := value + [v];
    }
    r := Arr(value);
  }

  /** `PObject.parse`: a fresh record, filled field by field in declared
      order, each assignment adding the field as a new property at the end.
      That matches `result[key] = ...` only when the declared names are
      distinct (`KeysDistinct`), as they are for every schema built from a
      record literal; a repeated name would add a second property here
      where JavaScript overwrites the first. */
  method ParseObject(s: Schema, input: Value) returns (r: Value)
    requires s.Object?
    ensures r == Parse(s, input)
    decreases s, 0
  {
    if !IsObjectLike(input) {
      return Null;
    }
    var result: seq<(string, Value)> := [];
    for i := 0 to |s.fields|
      invariant |result| == i
      invariant forall j :: 0 <= j < i ==>
        result[j] == (s.fields[j].0, Parse(s.fields[j].1, Property(input, s.fields[j].0)))
    {
      var (key, child) := s.fields[i];
      var v := ParseValue(child, Property(input, key));
      result := result + [(key, v)];
    }
    r := Obj(result);
  }
}
