/** What each schema's `parse` promises, stated over all inputs. */
module Properties {
  import opened Values
  import opened Numerals
  import opened Schemas

  // ---------------------------------------------------------------------
  // number()

  /** A number comes back unchanged, a boolean becomes 1 or 0, and every
      input that is neither a number, a string nor a boolean becomes 0. */
  lemma NumberCoercion(input: Value)
    ensures input.Num? ==> Parse(Number, input) == input
    ensures input.Bool? ==> Parse(Number, input) == Num(if input.b then 1 else 0)
    ensures !input.Num? && !input.Str? && !input.Bool? ==> Parse(Number, input) == Num(0)
  {
  }

  /** A string gives the number it spells, or 0 when it spells none. */
  lemma NumberFromString(text: string)
    ensures StringToNumber(text).Some? ==> Parse(Number, Str(text)) == Num(StringToNumber(text).value)
    ensures StringToNumber(text).None? ==> Parse(Number, Str(text)) == Num(0)
  {
    NumberOfText(text);
  }

  /** The string branch of `ParseNumber` on its own; proving it on
      `ParseNumber` keeps `Parse` and `ParseNumber` from being unfolded
      together. */
  lemma NumberOfText(text: string)
    ensures StringToNumber(text).Some? ==> ParseNumber(Str(text)) == StringToNumber(text).value
    ensures StringToNumber(text).None? ==> ParseNumber(Str(text)) == 0
  {
  }

  /** The text of any number reads back as that number. */
  lemma {:induction false} NumberTextReadsBack(n: int)
    ensures Parse(Number, Str(NumberToString(n))) == Num(n)
  {
    NumberToStringRoundTrip(n);
  }

  // ---------------------------------------------------------------------
  // string()

  /** A string comes back unchanged, a boolean or a number becomes its
      text, and every other input becomes "". */
  lemma StringCoercion(input: Value)
    ensures input.Str? ==> Parse(String, input) == input
    ensures input.Bool? ==> Parse(String, input) == Str(if input.b then "true" else "false")
    ensures input.Num? ==> Parse(String, input) == Str(NumberToString(input.n))
    ensures !input.Str? && !input.Bool? && !input.Num? ==> Parse(String, input) == Str("")
  {
  }

  /** The string schema loses nothing of a number or a boolean: the number
      and boolean schemas read its text back to the original. */
  lemma {:induction false} StringThenBack(input: Value)
    ensures input.Num? ==> Parse(Number, Parse(String, input)) == input
    ensures input.Bool? ==> Parse(Boolean, Parse(String, input)) == input
  {
    if input.Num? {
      NumberTextReadsBack(input.n);
    }
  }

  // ---------------------------------------------------------------------
  // boolean()

  /** A string is false exactly when it is empty or reads "false" in any
      mixture of upper and lower case. */
  lemma BooleanFromString(text: string)
    ensures Parse(Boolean, Str(text)) == Bool(false) <==>
            text == "" || LowerAscii(text) == "false"
  {
  }

  /** Booleans come back unchanged; an array is true exactly when it is not
      empty; null, undefined and 0 are false; other numbers and every
      object are true. */
  lemma BooleanCoercion(input: Value)
    ensures input.Bool? ==> Parse(Boolean, input) == input
    ensures input.Arr? ==> (Parse(Boolean, input) == Bool(true) <==> |input.elems| > 0)
    ensures input.Undefined? || input.Null? ==> Parse(Boolean, input) == Bool(false)
    ensures input.Num? ==> (Parse(Boolean, input) == Bool(true) <==> input.n != 0)
    ensures input.Obj? ==> Parse(Boolean, input) == Bool(true)
  {
  }

  /** The texts "false", "False" and "FALSE" all read as false. */
  lemma BooleanFalseSpellings(text: string)
    requires |text| == 5
    requires forall i :: 0 <= i < 5 ==> text[i] == "false"[i] || text[i] == "FALSE"[i]
    ensures Parse(Boolean, Str(text)) == Bool(false)
  {
    assert LowerAscii(text) == "false";
  }

  // ---------------------------------------------------------------------
  // array(s)

  /** A non-array gives the empty array; an array gives an array of the
      same length whose i-th element is the element schema's result for the
      input's i-th element. */
  lemma ArrayCoercion(element: Schema, input: Value)
    ensures !input.Arr? ==> Parse(Array(element), input) == Arr([])
    ensures input.Arr? ==>
      var out := Parse(Array(element), input);
      out.Arr? && |out.elems| == |input.elems| &&
      forall i :: 0 <= i < |input.elems| ==> out.elems[i] == Parse(element, input.elems[i])
  {
  }

  // ---------------------------------------------------------------------
  // object(fields)

  /** Null, undefined and every primitive give null. An object (or array)
      gives a record with exactly the declared field names in declared
      order, whatever other properties the input has; each field holds the
      field schema's result for the input's property of that name, and an
      absent property is coerced as undefined. */
  lemma ObjectCoercion(fields: seq<(string, Schema)>, input: Value)
    ensures !IsObjectLike(input) ==> Parse(Object(fields), input) == Null
    ensures IsObjectLike(input) ==>
      var out := Parse(Object(fields), input);
      out.Obj? && FieldNames(out.props) == FieldNames(fields) &&
      (forall i :: 0 <= i < |fields| ==>
         out.props[i].1 == Parse(fields[i].1, Property(input, fields[i].0))) &&
      (input.Obj? ==> forall i :: 0 <= i < |fields| && fields[i].0 !in FieldNames(input.props) ==>
         out.props[i].1 == Parse(fields[i].1, Undefined))
  {
    if input.Obj? {
      forall i | 0 <= i < |fields| && fields[i].0 !in FieldNames(input.props)
        ensures Parse(Object(fields), input).props[i].1 == Parse(fields[i].1, Undefined)
      {
        assert forall j :: 0 <= j < |input.props| ==> input.props[j].0 != fields[i].0 by {
          forall j | 0 <= j < |input.props| ensures input.props[j].0 != fields[i].0 {
            assert FieldNames(input.props)[j] == input.props[j].0;
          }
        }
      }
    }
  }

  /** Object coercion does not fill in a missing nested object with
      defaults: a nested object field the input lacks becomes null. */
  lemma MissingNestedObjectIsNull(fields: seq<(string, Schema)>, props: seq<(string, Value)>, i: nat)
    requires i < |fields| && fields[i].1.Object?
    requires fields[i].0 !in FieldNames(props)
    ensures Parse(Object(fields), Obj(props)).props[i] == (fields[i].0, Null)
  {
    ObjectCoercion(fields, Obj(props));
  }

  // ---------------------------------------------------------------------
  // choice(values, d) and custom(f)

  /** A candidate comes back unchanged and anything else gives the
      default, so the result is always a candidate or the default, and
      choosing again changes nothing. */
  lemma ChoiceCoercion(values: seq<Value>, defaultValue: Value, input: Value)
    ensures input in values ==> Parse(Choice(values, defaultValue), input) == input
    ensures input !in values ==> Parse(Choice(values, defaultValue), input) == defaultValue
    ensures Parse(Choice(values, defaultValue), input) in values + [defaultValue]
    ensures var once := Parse(Choice(values, defaultValue), input);
            Parse(Choice(values, defaultValue), once) == once
  {
  }

  /** A custom schema returns what its parser returns. */
  lemma CustomCoercion(parser: Value -> Value, input: Value)
    ensures Parse(Custom(parser), input) == parser(input)
    ensures Conforms(Parse(Custom(parser), input), Custom(parser))
  {
  }

  // ---------------------------------------------------------------------
  // Target<T> and idempotence

  /** Whatever the input, `parse` produces a value of the schema's target
      type. */
  lemma {:induction false} ParseConforms(s: Schema, input: Value)
    ensures Conforms(Parse(s, input), s)
    decreases s
  {
    match s
    case Array(element) =>
      if input.Arr? {
        forall i | 0 <= i < |input.elems| ensures Conforms(Parse(s, input).elems[i], element) {
          ParseConforms(element, input.elems[i]);
        }
      }
    case Object(fields) =>
      if IsObjectLike(input) {
        var out := Parse(s, input);
        assert FieldNames(out.props) == FieldNames(fields);
        forall i | 0 <= i < |fields| ensures Conforms(out.props[i].1, fields[i].1) {
          ParseConforms(fields[i].1, Property(input, fields[i].0));
        }
      }
    case Custom(parser) =>
      assert parser(input) == Parse(s, input);
    case _ =>
  }

  /** In a record whose names are distinct, the property named by the i-th
      name is the i-th value. */
  lemma {:induction false} PropertyOfDistinct(props: seq<(string, Value)>, i: nat)
    requires i < |props| && DistinctNames(FieldNames(props))
    ensures PropertyOf(props, props[i].0) == props[i].1
    decreases i
  {
    if i > 0 {
      var names := FieldNames(props);
      assert props[0].0 == names[0] != names[i] == props[i].0;
      var rest := props[1..];
      forall a, b | 0 <= a < b < |rest| ensures FieldNames(rest)[a] != FieldNames(rest)[b] {
        assert FieldNames(rest)[a] == names[a + 1] && FieldNames(rest)[b] == names[b + 1];
      }
      PropertyOfDistinct(rest, i - 1);
      assert rest[i - 1] == props[i];
    }
  }

  /** A value already of the schema's target type is returned unchanged,
      provided object schemas declare each name once and custom parsers
      are idempotent. */
  lemma {:induction false} ParseFixesConforming(s: Schema, v: Value)
    requires KeysDistinct(s) && CustomsIdempotent(s) && Conforms(v, s)
    ensures Parse(s, v) == v
    decreases s
  {
    match s
    case Array(element) =>
      forall i | 0 <= i < |v.elems| ensures Parse(s, v).elems[i] == v.elems[i] {
        ParseFixesConforming(element, v.elems[i]);
      }
    case Object(fields) =>
      if v.Obj? {
        var out := Parse(s, v);
        assert FieldNames(v.props) == FieldNames(fields);
        forall i | 0 <= i < |fields| ensures out.props[i] == v.props[i] {
          assert v.props[i].0 == FieldNames(v.props)[i] == fields[i].0;
          PropertyOfDistinct(v.props, i);
          ParseFixesConforming(fields[i].1, v.props[i].1);
        }
      }
    case Custom(parser) =>
      var x :| parser(x) == v;
      assert parser(parser(x)) == parser(x);
    case _ =>
  }

  /** Coercing a coerced value again changes nothing. */
  lemma {:induction false} ParseIdempotent(s: Schema, input: Value)
    requires KeysDistinct(s) && CustomsIdempotent(s)
    ensures Parse(s, Parse(s, input)) == Parse(s, input)
  {
    ParseConforms(s, input);
    ParseFixesConforming(s, Parse(s, input));
  }

  lemma {:induction false} CustomFreeHasIdempotentCustoms(s: Schema)
    requires CustomFree(s)
    ensures CustomsIdempotent(s)
    decreases s
  {
    match s
    case Array(element) => CustomFreeHasIdempotentCustoms(element);
    case Object(fields) =>
      forall i | 0 <= i < |fields| ensures CustomsIdempotent(fields[i].1) {
        CustomFreeHasIdempotentCustoms(fields[i].1);
      }
    case _ =>
  }

  /** For schemas without custom parts, `parse` is idempotent. */
  lemma {:induction false} CustomFreeIdempotent(s: Schema, input: Value)
    requires KeysDistinct(s) && CustomFree(s)
    ensures Parse(s, Parse(s, input)) == Parse(s, input)
  {
    CustomFreeHasIdempotentCustoms(s);
    ParseIdempotent(s, input);
  }
}
