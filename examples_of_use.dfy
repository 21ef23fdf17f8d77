/** The library's documented examples and the expected outputs of its test
    suite, as instances of the model. */
module UsageExamples {
  import opened Values
  import opened Numerals
  import opened Schemas
  import opened Properties

  /** The decimal texts of the numbers the examples use. */
  lemma NumeralTexts()
    ensures NumberToString(-123) == "-123" && NumberToString(-1) == "-1"
    ensures NumberToString(2) == "2" && NumberToString(234) == "234"
  {
    assert NatToString(123) == "123";
    assert NatToString(234) == "234";
  }

  lemma NumberExamples()
    ensures Parse(Number, Bool(false)) == Num(0)
    ensures forall n :: n in [-100, 0, 100, 10000000000000000] ==> Parse(Number, Num(n)) == Num(n)
    ensures Parse(Number, Null) == Num(0) && Parse(Number, Undefined) == Num(0)
    ensures Parse(Number, Bool(true)) == Num(1)
  {
  }

  lemma NegativeTextExample()
    ensures Parse(Number, Str("-123")) == Num(-123)
  {
    NumeralTexts();
    NumberTextReadsBack(-123);
  }

  lemma MalformedTextExample()
    ensures Parse(Number, Str("123abc")) == Num(0)
  {
    var text := "123abc";
    assert !IsJsWhitespace(text[0]) && !IsJsWhitespace(text[5]);
    assert TrimStart(text) == text;
    assert TrimEnd(text) == text;
    assert !AllDigits("123abc") by { assert !IsDigit("123abc"[3]); }
  }

  /** The documented example: 42 becomes "42". */
  lemma StringDocExample()
    ensures Parse(String, Num(42)) == Str("42")
  {
    StringCoercion(Num(42));
    assert NatToString(42) == "42";
  }

  lemma StringExamples()
    ensures Parse(String, Str("")) == Str("") && Parse(String, Str("absdc1234")) == Str("absdc1234")
    ensures Parse(String, Null) == Str("") && Parse(String, Undefined) == Str("")
    ensures Parse(String, Bool(true)) == Str("true")
    ensures Parse(String, Num(123)) == Str("123")
  {
    StringCoercion(Num(123));
    assert NatToString(123) == "123";
  }

  lemma BooleanExamples()
    ensures Parse(Boolean, Bool(true)) == Bool(true) && Parse(Boolean, Bool(false)) == Bool(false)
    ensures Parse(Boolean, Null) == Bool(false) && Parse(Boolean, Undefined) == Bool(false)
    ensures Parse(Boolean, Num(123)) == Bool(true)
    ensures Parse(Boolean, Str("")) == Bool(false)
  {
  }

  lemma BooleanTextExamples()
    ensures Parse(Boolean, Str("12jkj")) == Bool(true)
    ensures Parse(Boolean, Str("false")) == Bool(false)
    ensures Parse(Boolean, Str("False")) == Bool(false)
    ensures Parse(Boolean, Str("FALSE")) == Bool(false)
  {
    assert LowerAscii("12jkj") != "false" by { assert LowerAscii("12jkj")[0] == '1'; }
    BooleanFalseSpellings("false");
    BooleanFalseSpellings("False");
    BooleanFalseSpellings("FALSE");
  }

  lemma ThreeElements(element: Schema, a: Value, b: Value, c: Value)
    ensures Parse(Array(element), Arr([a, b, c])) == Arr([Parse(element, a), Parse(element, b), Parse(element, c)])
  {
    var input := [a, b, c];
    ArrayCoercion(element, Arr(input));
    var out := Parse(Array(element), Arr(input)).elems;
    assert out[0] == Parse(element, a) && out[1] == Parse(element, b) && out[2] == Parse(element, c);
    assert out == [Parse(element, a), Parse(element, b), Parse(element, c)];
  }

  lemma ArrayExample()
    ensures Parse(Array(Number), Arr([Num(1), Str("2"), Num(3)])) == Arr([Num(1), Num(2), Num(3)])
  {
    ThreeElements(Number, Num(1), Str("2"), Num(3));
    NumberFromString("2");
    assert DigitsValue("2") == 2;
  }

  lemma ArrayOfNumbersExample()
    ensures Parse(Array(Number), Arr([Num(-100), Num(0), Num(100), Num(10000000000000000)]))
         == Arr([Num(-100), Num(0), Num(100), Num(10000000000000000)])
  {
    var out := Parse(Array(Number), Arr([Num(-100), Num(0), Num(100), Num(10000000000000000)]));
    assert out.elems == [Num(-100), Num(0), Num(100), Num(10000000000000000)];
  }

  /** Arrays of every primitive coerce null to the empty array. */
  lemma NullArrayExamples()
    ensures Parse(Array(String), Null) == Arr([])
    ensures Parse(Array(Boolean), Null) == Arr([])
    ensures Parse(Array(Number), Null) == Arr([])
  {
  }

  lemma FaultyArrayExample()
    ensures Parse(Array(Number), Arr([Str("-1"), Undefined, Num(123)])) == Arr([Num(-1), Num(0), Num(123)])
  {
    ThreeElements(Number, Str("-1"), Undefined, Num(123));
    NumeralTexts();
    NumberTextReadsBack(-1);
  }

  lemma TwoFieldObject(k1: string, s1: Schema, k2: string, s2: Schema, input: Value)
    requires IsObjectLike(input)
    ensures Parse(Object([(k1, s1), (k2, s2)]), input)
         == Obj([(k1, Parse(s1, Property(input, k1))), (k2, Parse(s2, Property(input, k2)))])
  {
    var fields := [(k1, s1), (k2, s2)];
    ObjectCoercion(fields, input);
    var out := Parse(Object(fields), input);
    assert FieldNames(out.props) == [k1, k2];
    assert out.props == [(k1, Parse(s1, Property(input, k1))), (k2, Parse(s2, Property(input, k2)))];
  }

  lemma ThreeFieldObject(k1: string, s1: Schema, k2: string, s2: Schema, k3: string, s3: Schema, input: Value)
    requires IsObjectLike(input)
    ensures Parse(Object([(k1, s1), (k2, s2), (k3, s3)]), input)
         == Obj([(k1, Parse(s1, Property(input, k1))), (k2, Parse(s2, Property(input, k2))),
                 (k3, Parse(s3, Property(input, k3)))])
  {
    var fields := [(k1, s1), (k2, s2), (k3, s3)];
    ObjectCoercion(fields, input);
    var out := Parse(Object(fields), input);
    assert FieldNames(out.props) == [k1, k2, k3];
    assert out.props[0] == (k1, Parse(s1, Property(input, k1)));
    assert out.props[1] == (k2, Parse(s2, Property(input, k2)));
    assert out.props[2] == (k3, Parse(s3, Property(input, k3)));
    assert out.props == [(k1, Parse(s1, Property(input, k1))), (k2, Parse(s2, Property(input, k2))),
                         (k3, Parse(s3, Property(input, k3)))];
  }

  /** The nested object of the test suite: a field present with the wrong
      type is coerced, and a present nested object is coerced field by
      field, its missing fields taking their schemas' defaults. */
  lemma NestedObjectExample()
    ensures var inner := Object([("n2", Number), ("b2", Boolean)]);
            var outer := Object([("n", Number), ("s", String), ("o", inner)]);
            Parse(outer, Obj([("n", Num(23)), ("s", Num(234)), ("o", Obj([]))]))
              == Obj([("n", Num(23)), ("s", Str("234")), ("o", Obj([("n2", Num(0)), ("b2", Bool(false))]))])
  {
    var inner := Object([("n2", Number), ("b2", Boolean)]);
    var input := Obj([("n", Num(23)), ("s", Num(234)), ("o", Obj([]))]);
    ThreeFieldObject("n", Number, "s", String, "o", inner, input);
    assert Property(input, "n") == Num(23);
    assert Property(input, "s") == Num(234);
    assert Property(input, "o") == Obj([]);
    StringOf234();
    EmptyInnerObject();
  }

  lemma StringOf234()
    ensures Parse(String, Num(234)) == Str("234")
  {
    NumeralTexts();
  }

  lemma EmptyInnerObject()
    ensures Parse(Object([("n2", Number), ("b2", Boolean)]), Obj([])) == Obj([("n2", Num(0)), ("b2", Bool(false))])
  {
    TwoFieldObject("n2", Number, "b2", Boolean, Obj([]));
  }

  /** Missing fields take their schema's default, and a missing nested
      object becomes null. */
  lemma MissingFieldsExample()
    ensures var inner := Object([("n2", Number), ("b2", Boolean)]);
            var outer := Object([("n", Number), ("s", String), ("o", inner)]);
            Parse(outer, Obj([("n", Num(2))])) == Obj([("n", Num(2)), ("s", Str("")), ("o", Null)])
  {
    var inner := Object([("n2", Number), ("b2", Boolean)]);
    var input := Obj([("n", Num(2))]);
    ThreeFieldObject("n", Number, "s", String, "o", inner, input);
    assert Property(input, "n") == Num(2);
    assert Property(input, "s") == Undefined;
    assert Property(input, "o") == Undefined;
  }

  /** The nested schema of the object test gives null, not a record of
      defaults, when the input is null. */
  lemma NullInputExample()
    ensures var inner := Object([("n2", Number), ("b2", Boolean)]);
            Parse(Object([("n", Number), ("s", String), ("o", inner)]), Null) == Null
  {
  }

  lemma ObjectDocExample()
    ensures Parse(Object([("a", Number), ("b", String)]), Obj([("a", Num(1)), ("b", Num(2))]))
         == Obj([("a", Num(1)), ("b", Str("2"))])
    ensures Parse(Object([("a", Number), ("b", String)]), Num(2)) == Null
  {
    var input := Obj([("a", Num(1)), ("b", Num(2))]);
    TwoFieldObject("a", Number, "b", String, input);
    assert Property(input, "a") == Num(1);
    assert Property(input, "b") == Num(2);
  }

  lemma ChoiceExamples()
    ensures Parse(Choice([Num(1), Num(2), Num(3)], Num(1)), Str("2")) == Num(1)
    ensures Parse(Choice([Num(1), Num(2), Num(3)], Num(1)), Num(2)) == Num(2)
  {
  }
}
