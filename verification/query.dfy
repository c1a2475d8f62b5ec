/** The attribute query-truthiness predicate: `record.name?` turns whatever
    value the attribute holds into true or false. */
module Query {
  import opened Wrappers

  /** The attribute values the predicate distinguishes. `Dec` stands for the
      non-integer Numeric classes (Float, BigDecimal, Rational); `Other` is any
      other object, described by the two capabilities the predicate probes:
      whether it answers `zero?` (and what), and what `blank?` says of it. */
  datatype Value =
    | Bool(b: bool)
    | Nil
    | Int(i: int)
    | Dec(x: real)
    | Str(s: string)
    | Other(hasZeroTest: bool, isZero: bool, isBlank: bool)

  /** A declared attribute type; only its presence matters here. */
  datatype AttrType = AttrType(name: string)

  /** What the predicate consults outside this file: the members of
      `ActiveModel::Type::Boolean::FALSE_VALUES` that are strings, and
      `String#blank?`. */
  datatype Lexicon = Lexicon(falseValues: set<string>, blank: string -> bool)

  predicate IsDigit(c: char) {
    '0' <= c <= '9'
  }

  /** The string does not match `/[^0-9]/`: every character is an ASCII
      digit. The empty string qualifies. */
  predicate AllDigits(s: string) {
    forall i :: 0 <= i < |s| ==> IsDigit(s[i])
  }

  /** `String#to_i` on a string of ASCII digits: its decimal value. */
  function DigitsValue(s: string): nat
    requires AllDigits(s)
  {
    if |s| == 0 then 0
    else DigitsValue(s[..|s| - 1]) * 10 + (s[|s| - 1] - '0') as int
  }

  /** `Numeric#to_i`: truncation toward zero. */
  function TruncateToInt(x: real): (n: int)
    ensures -1.0 < x - n as real < 1.0
    ensures x >= 0.0 ==> 0.0 <= n as real <= x
    ensures x < 0.0 ==> x <= n as real <= 0.0
  {
    if x >= 0.0 then x.Floor else -((-x).Floor)
  }

  /** Inputs on which the predicate is defined: without a declared type the
      source calls `match?` on every non-Numeric value, which only strings
      (among the modelled values) answer. */
  predicate InDomain(value: Value, declared: Option<AttrType>) {
    declared.None? ==> !value.Other?
  }

  /** `query_cast_attribute`. The source tests `true`, then `false`/`nil`,
      then the declared type, then the value's kind; the match below takes the
      same cases grouped by the value's kind. */
  function QueryCast(value: Value, declared: Option<AttrType>, lex: Lexicon): (r: bool)
    requires InDomain(value, declared)
    // `true` and `false`/`nil` decide the answer whatever the declared type
    ensures value.Bool? ==> r == value.b
    ensures value.Nil? ==> !r
    // untyped numbers: non-zero after truncation to an integer
    ensures declared.None? && value.Int? ==> (r <==> value.i != 0)
    ensures declared.None? && value.Dec? ==> (r <==> (value.x <= -1.0 || value.x >= 1.0))
    // untyped digit strings (the empty string included): some digit is not '0'
    ensures declared.None? && value.Str? && AllDigits(value.s) ==>
              (r <==> exists i :: 0 <= i < |value.s| && value.s[i] != '0')
    // untyped other strings: a false lexeme is false, anything else is "present"
    ensures declared.None? && value.Str? && !AllDigits(value.s) ==>
              (r <==> value.s !in lex.falseValues && !lex.blank(value.s))
    // typed values that answer `zero?`: non-zero
    ensures declared.Some? && value.Int? ==> (r <==> value.i != 0)
    ensures declared.Some? && value.Dec? ==> (r <==> value.x != 0.0)
    ensures declared.Some? && value.Other? && value.hasZeroTest ==> r == !value.isZero
    // typed values without `zero?`: "present"
    ensures declared.Some? && value.Str? ==> r == !lex.blank(value.s)
    ensures declared.Some? && value.Other? && !value.hasZeroTest ==> r == !value.isBlank
  {
    match value
    case Bool(b) => b
    case Nil => false
    // the untyped branch tests `to_i.zero?`, the typed one `zero?`
    case Int(i) => i != 0
    case Dec(x) => if declared.None? then TruncateToInt(x) != 0 else x != 0.0
    case Str(s) =>
      if declared.Some? then !lex.blank(s)
      else if AllDigits(s) then
        DigitsValueZeroIff(s);
        DigitsValue(s) != 0
      else if s in lex.falseValues then false
      else !lex.blank(s)
    // only reachable with a declared type (see InDomain)
    case Other(hasZeroTest, isZero, isBlank) => if hasZeroTest then !isZero else !isBlank
  }

  /** A string of digits is worth zero exactly when every digit is '0'. */
  lemma {:induction false} DigitsValueZeroIff(s: string)
    requires AllDigits(s)
    ensures DigitsValue(s) == 0 <==> forall i :: 0 <= i < |s| ==> s[i] == '0'
  {
    if |s| > 0 {
      var init := s[..|s| - 1];
      assert AllDigits(init);
      DigitsValueZeroIff(init);
      assert forall i :: 0 <= i < |init| ==> init[i] == s[i];
    }
  }

  /** An ActiveRecord record as the two query methods see it: the value the
      public reader returns for each attribute it defines, the raw stored
      values, and the declared types. */
  datatype Record = Record(
    readers: map<string, Value>,
    attributes: map<string, Value>,
    types: map<string, AttrType>)

  /** The one exception the query methods raise. It is kept apart from the
      adapter's exceptions because the two modules share no code. */
  datatype QueryError = NoMethodError(name: string)

  /** `type_for_attribute(name) { false }`: the declared type, if any. */
  function TypeFor(rec: Record, name: string): (t: Option<AttrType>)
    ensures t.Some? <==> name in rec.types
    ensures t.Some? ==> t.value == rec.types[name]
  {
    if name in rec.types then Some(rec.types[name]) else None
  }

  /** `_read_attribute(name)`: the stored value, nil for an unknown name. */
  function ReadAttribute(rec: Record, name: string): (v: Value)
    ensures name !in rec.attributes ==> v == Nil
    ensures name in rec.attributes ==> v == rec.attributes[name]
  {
    if name in rec.attributes then rec.attributes[name] else Nil
  }

  /** `query_attribute(name)`: casts what the public reader returns;
      `public_send` raises NoMethodError when there is no reader. */
  function QueryAttribute(rec: Record, name: string, lex: Lexicon): (r: Result<bool, QueryError>)
    requires name in rec.readers ==> InDomain(rec.readers[name], TypeFor(rec, name))
    ensures name !in rec.readers <==> r == Failure(NoMethodError(name))
    ensures name in rec.readers ==> r == Success(QueryCast(rec.readers[name], TypeFor(rec, name), lex))
  {
    if name in rec.readers then Success(QueryCast(rec.readers[name], TypeFor(rec, name), lex))
    else Failure(NoMethodError(name))
  }

  /** `_query_attribute(name)`: casts the raw stored value; never raises. */
  function RawQueryAttribute(rec: Record, name: string, lex: Lexicon): (r: bool)
    requires InDomain(ReadAttribute(rec, name), TypeFor(rec, name))
    ensures name !in rec.attributes ==> !r
    ensures r == QueryCast(ReadAttribute(rec, name), TypeFor(rec, name), lex)
  {
    QueryCast(ReadAttribute(rec, name), TypeFor(rec, name), lex)
  }

  /** When a record's public reader returns the stored value, the two
      query methods agree. */
  lemma QueryMethodsAgree(rec: Record, name: string, lex: Lexicon)
    requires name in rec.readers && name in rec.attributes
    requires rec.readers[name] == rec.attributes[name]
    requires InDomain(rec.attributes[name], TypeFor(rec, name))
    ensures QueryAttribute(rec, name, lex) == Success(RawQueryAttribute(rec, name, lex))
  {
  }

  /** The rule the module documentation states for attributes of a declared
      type: a boolean is itself, a number is true iff non-zero, anything else
      is true iff present (not nil, not blank); a value that answers `zero?`
      counts as a number. */
  function DocumentedRule(value: Value, lex: Lexicon): bool {
    match value
    case Bool(b) => b
    case Nil => false
    case Int(i) => i != 0
    case Dec(x) => x != 0.0
    case Str(s) => !lex.blank(s)
    case Other(hasZeroTest, isZero, isBlank) => if hasZeroTest then !isZero else !isBlank
  }

  /** With a declared type, the predicate is exactly the documented rule. */
  lemma TypedFollowsDocumentedRule(value: Value, t: AttrType, lex: Lexicon)
    ensures QueryCast(value, Some(t), lex) == DocumentedRule(value, lex)
  {
  }

  /** Without a declared type it departs from the documented rule only on
      fractions and on strings: digit strings read as numbers and false
      lexemes read as false. */
  lemma UntypedDepartsOnlyOnFractionsAndStrings(value: Value, lex: Lexicon)
    requires InDomain(value, None)
    requires QueryCast(value, None, lex) != DocumentedRule(value, lex)
    ensures value.Dec? || value.Str?
    ensures value.Dec? ==> -1.0 < value.x < 1.0 && value.x != 0.0
    ensures value.Str? ==> AllDigits(value.s) || value.s in lex.falseValues
  {
  }

  /** For integers the declared type makes no difference: both branches test
      for zero. */
  lemma IntegersIgnoreDeclaredType(i: int, t: AttrType, lex: Lexicon)
    ensures QueryCast(Int(i), None, lex) == QueryCast(Int(i), Some(t), lex)
  {
  }

  /** For fractions the declared type does matter: untyped 0.5 truncates to 0
      and reads as false, while a typed 0.5 is non-zero and reads as true. */
  lemma FractionsDependOnDeclaredType(t: AttrType, lex: Lexicon)
    ensures !QueryCast(Dec(0.5), None, lex)
    ensures QueryCast(Dec(0.5), Some(t), lex)
  {
  }

  /** The documented examples, for a `blank?` that holds of " " but not of
      "Orange": 0 and "0" and "" read as false, 1 and "1" as true, " " as
      false and "Orange" as true, both for a typed column (the documented
      `product.name`) and for an untyped attribute. */
  lemma DocumentedExamples(lex: Lexicon, t: AttrType)
    requires lex.blank(" ") && !lex.blank("Orange")
    requires "Orange" !in lex.falseValues
    ensures !QueryCast(Int(0), Some(t), lex) && QueryCast(Int(1), Some(t), lex)
    ensures !QueryCast(Str("0"), None, lex) && QueryCast(Str("1"), None, lex)
    ensures !QueryCast(Str(""), None, lex)
    ensures !QueryCast(Str(" "), None, lex) && QueryCast(Str("Orange"), None, lex)
    ensures !QueryCast(Str(" "), Some(t), lex) && QueryCast(Str("Orange"), Some(t), lex)
    ensures !QueryCast(Nil, None, lex) && !QueryCast(Nil, Some(t), lex)
  {
    assert !AllDigits(" ") by { assert !IsDigit(" "[0]); }
    assert !AllDigits("Orange") by { assert !IsDigit("Orange"[0]); }
    assert "1"[0] != '0';
  }
}
