/** The untyped inputs that a schema coerces, and the two ways the object
    schema reads a property of its input: `input[key]` on a plain object and
    on an array (an array passes the `typeof input === "object"` test too). */
module Values {

  datatype Option<T> = None | Some(value: T)

  /** A JavaScript value as the coercers see it. Numbers are integers
      (no NaN, no fractions); an object is its own properties in order. */
  datatype Value =
    | Undefined
    | Null
    | Bool(b: bool)
    | Num(n: int)
    | Str(s: string)
    | Arr(elems: seq<Value>)
    | Obj(props: seq<(string, Value)>)

  /** `typeof input === "object" && input !== null` */
  predicate IsObjectLike(v: Value) {
    v.Arr? || v.Obj?
  }

  // ---------------------------------------------------------------------
  // Decimal digits, shared by array indices and by the number coercions

  predicate IsDigit(c: char) {
    '0' <= c <= '9'
  }

  predicate AllDigits(s: string) {
    forall i :: 0 <= i < |s| ==> IsDigit(s[i])
  }

  function DigitChar(d: nat): (c: char)
    requires d < 10
    ensures IsDigit(c) && c as int - '0' as int == d
  {
    ('0' as int + d) as char
  }

  /** The value of a string of decimal digits, most significant first. */
  function DigitsValue(s: string): nat
    requires AllDigits(s)
  {
    if s == [] then 0
    else DigitsValue(s[..|s| - 1]) * 10 + (s[|s| - 1] as int - '0' as int)
  }

  /** The canonical decimal text of a natural number: no sign, no leading zero. */
  function NatToString(n: nat): (s: string)
    ensures |s| > 0 && AllDigits(s)
    ensures |s| > 1 ==> s[0] != '0'
    decreases n
  {
    if n < 10 then [DigitChar(n)] else NatToString(n / 10) + [DigitChar(n % 10)]
  }

  lemma {:induction false} NatToStringValue(n: nat)
    ensures DigitsValue(NatToString(n)) == n
    decreases n
  {
    var s := NatToString(n);
    if n >= 10 {
      NatToStringValue(n / 10);
      assert s[..|s| - 1] == NatToString(n / 10);
    }
  }

  /** Digit strings without a redundant leading zero denote distinct numbers:
      `NatToString` is the only such spelling of its value. */
  lemma {:induction false} CanonicalDigitsAreNatToString(s: string)
    requires |s| > 0 && AllDigits(s) && (|s| > 1 ==> s[0] != '0')
    ensures NatToString(DigitsValue(s)) == s
    decreases |s|
  {
    var init := s[..|s| - 1];
    var d := s[|s| - 1] as int - '0' as int;
    if |s| == 1 {
      assert DigitsValue(s) == DigitsValue(init) * 10 + d;
      assert DigitsValue(init) == 0;
      assert NatToString(d) == [DigitChar(d)];
    } else {
      assert init[0] == s[0];
      CanonicalDigitsAreNatToString(init);
      NonZeroLeadHasValue(init);
      var n := DigitsValue(s);
      assert n == DigitsValue(init) * 10 + d;
      assert n / 10 == DigitsValue(init) && n % 10 == d;
      assert NatToString(n) == NatToString(n / 10) + [DigitChar(n % 10)];
    }
  }

  lemma {:induction false} NonZeroLeadHasValue(s: string)
    requires |s| > 0 && AllDigits(s) && s[0] != '0'
    ensures DigitsValue(s) > 0
    decreases |s|
  {
    if |s| > 1 {
      NonZeroLeadHasValue(s[..|s| - 1]);
    }
  }

  // ---------------------------------------------------------------------
  // Property lookup

  /** The array index a property key denotes, if it is the canonical
      decimal spelling of a natural number. */
  function CanonicalIndex(key: string): (r: Option<nat>)
    ensures r.Some? ==> NatToString(r.value) == key
  {
    if |key| > 0 && AllDigits(key) && (|key| > 1 ==> key[0] != '0') then
      CanonicalDigitsAreNatToString(key);
      Some(DigitsValue(key))
    else None
  }

  lemma {:induction false} CanonicalIndexOfNatToString(n: nat)
    ensures CanonicalIndex(NatToString(n)) == Some(n)
  {
    NatToStringValue(n);
  }

  /** `obj[key]` for a plain object: the value of the first property with
      that key, or `undefined` when it has none. */
  function PropertyOf(props: seq<(string, Value)>, key: string): (r: Value)
    ensures (exists i :: 0 <= i < |props| && props[i] == (key, r) &&
               forall j :: 0 <= j < i ==> props[j].0 != key)
            || (r == Undefined && forall i :: 0 <= i < |props| ==> props[i].0 != key)
  {
    if props == [] then Undefined
    else if props[0].0 == key then props[0].1
    else
      var r := PropertyOf(props[1..], key);
      assert forall i :: 0 < i < |props| ==> props[i] == props[1..][i - 1];
      r
  }

  /** `input[key]` as the object schema evaluates it: an array answers its
      elements under their indices and its `length`. */
  function Property(input: Value, key: string): (r: Value)
    requires IsObjectLike(input)
    ensures input.Obj? ==> r == PropertyOf(input.props, key)
    ensures input.Arr? ==> r in input.elems || r == Undefined || (key == "length" && r == Num(|input.elems|))
  {
    match input
    case Obj(props) => PropertyOf(props, key)
    case Arr(elems) =>
      if key == "length" then Num(|elems|)
      else match CanonicalIndex(key)
        case Some(i) => if i < |elems| then elems[i] else Undefined
        case None => Undefined
  }

  /** On an array, the key spelling index `i` reads element `i`, `"length"`
      reads the length, and every other key reads `undefined`. */
  lemma ArrayProperty(elems: seq<Value>, key: string)
    ensures key == "length" ==> Property(Arr(elems), key) == Num(|elems|)
    ensures forall i :: 0 <= i < |elems| && key == NatToString(i) ==>
              Property(Arr(elems), key) == elems[i]
    ensures key != "length" && (forall i :: 0 <= i < |elems| ==> key != NatToString(i)) ==>
              Property(Arr(elems), key) == Undefined
  {
    forall i | 0 <= i < |elems| && key == NatToString(i)
      ensures Property(Arr(elems), key) == elems[i]
    {
      CanonicalIndexOfNatToString(i);
    }
  }
}
