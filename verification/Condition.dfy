/** The condition language of sequence flows (engine-core/src/condition.rs). */
module Condition {
  import opened Values
  import opened Text

  datatype Ordering = Less | Equal | Greater

  /** The comparison operators, in the order in which the evaluator searches for them. */
  datatype Operator = Eq | Ne | Ge | Le | Gt | Lt {
    function Symbol(): string {
      match this
      case Eq => "=="
      case Ne => "!="
      case Ge => ">="
      case Le => "<="
      case Gt => ">"
      case Lt => "<"
    }
  }

  const OPERATORS: seq<Operator> := [Eq, Ne, Ge, Le, Gt, Lt]

  const I64_MIN: int := -0x8000_0000_0000_0000
  const I64_MAX: int := 0x7fff_ffff_ffff_ffff

  /** 2^-52, the distance below which two numbers count as equal. */
  const EPSILON: real := 1.0 / 4503599627370496.0

  function Abs(x: real): real {
    if x < 0.0 then -x else x
  }

  /** Rust's `str::parse::<i64>`: an optional sign, digits, and the 64-bit range. */
  function ParseI64(s: string): Option<int> {
    var signed := s != [] && (s[0] == '-' || s[0] == '+');
    var digits := if signed then s[1..] else s;
    if digits == [] || !AllDigits(digits) then None
    else
      var n: int := if signed && s[0] == '-' then -(DigitsValue(digits) as int) else DigitsValue(digits);
      if I64_MIN <= n <= I64_MAX then Some(n) else None
  }

  function Pow10(e: nat): real {
    if e == 0 then 1.0 else 10.0 * Pow10(e - 1)
  }

  lemma {:induction e} Pow10Positive(e: nat)
    ensures Pow10(e) > 0.0
  {}

  /** `x` times ten to the power `e`. */
  function Scaled(x: real, e: int): real {
    if e >= 0 then x * Pow10(e) else x / (Pow10Positive(-e); Pow10(-e))
  }

  /** The integer after an `e` in a floating-point literal. */
  function ParseExponent(s: string): Option<int> {
    var signed := s != [] && (s[0] == '-' || s[0] == '+');
    var digits := if signed then s[1..] else s;
    if digits == [] || !AllDigits(digits) then None
    else
      var n: int := if signed && s[0] == '-' then -(DigitsValue(digits) as int) else DigitsValue(digits);
      Some(n)
  }

  function FindExponent(s: string): nat
    ensures FindExponent(s) <= |s|
  {
    if s == [] || s[0] == 'e' || s[0] == 'E' then 0 else 1 + FindExponent(s[1..])
  }

  /** Rust's `str::parse::<f64>` for finite literals. The words for infinity and NaN, which no JSON
      number can hold, give `None` because the caller treats them like text. */
  function ParseF64(s: string): Option<real> {
    var signed := s != [] && (s[0] == '-' || s[0] == '+');
    var body := if signed then s[1..] else s;
    var e := FindExponent(body);
    var mantissa := body[..e];
    var dot := match FindFrom(mantissa, ".", 0) case Some(i) => i case None => |mantissa|;
    var whole := mantissa[..dot];
    var fraction := if dot < |mantissa| then mantissa[dot + 1..] else [];
    var exponent := if e < |body| then ParseExponent(body[e + 1..]) else Some(0);
    if |whole| + |fraction| == 0 || !AllDigits(whole) || !AllDigits(fraction) || exponent.None? then None
    else
      var digits := DigitsValue(whole) as real + Scaled(DigitsValue(fraction) as real, -|fraction|);
      var magnitude := Scaled(digits, exponent.value);
      Some(if signed && s[0] == '-' then -magnitude else magnitude)
  }

  /** Parses the text right of an operator into a JSON value. */
  function ParseRhs(s: string): Value {
    if s != [] && (s[0] == s[|s| - 1] == '"' || s[0] == s[|s| - 1] == '\'') then
      Str(if |s| >= 2 then s[1..|s| - 1] else [])
    else if s == "true" then Bool(true)
    else if s == "false" then Bool(false)
    else if s == "null" then Null
    else match ParseI64(s)
      case Some(n) => Num(Int(n))
      case None =>
        match ParseF64(s)
        case Some(r) => Num(Float(r))
        case None => Str(s)
  }

  predicate ValuesEq(a: Value, b: Value) {
    if a.Num? && b.Num? then Abs(a.num.AsReal() - b.num.AsReal()) < EPSILON else a == b
  }

  function ValuesCmp(a: Value, b: Value): Option<Ordering> {
    if a.Num? && b.Num? then
      var x, y := a.num.AsReal(), b.num.AsReal();
      Some(if x < y then Less else if x > y then Greater else Equal)
    else None
  }

  /** The comparison an operator stands for, once both sides are values. */
  predicate Holds(op: Operator, lhs: Value, rhs: Value) {
    match op
    case Eq => ValuesEq(lhs, rhs)
    case Ne => !ValuesEq(lhs, rhs)
    case Gt => ValuesCmp(lhs, rhs) == Some(Greater)
    case Lt => ValuesCmp(lhs, rhs) == Some(Less)
    case Ge => var o := ValuesCmp(lhs, rhs); o.Some? && o.value != Less
    case Le => var o := ValuesCmp(lhs, rhs); o.Some? && o.value != Greater
  }

  predicate Truthy(v: Value) {
    match v
    case Bool(b) => b
    case Num(n) => n.AsReal() != 0.0
    case Str(s) => s != ""
    case Null => false
    case Arr(_) => true
    case Obj(_) => true
  }

  /** Tries the operators from `OPERATORS[k]` on; the first one that occurs in `expr` decides. */
  predicate EvaluateFrom(expr: string, variables: Variables, k: nat)
    requires k <= |OPERATORS|
    decreases |OPERATORS| - k
  {
    if k == |OPERATORS| then expr in variables && Truthy(variables[expr])
    else
      var op := OPERATORS[k];
      match FindFrom(expr, op.Symbol(), 0)
      case None => EvaluateFrom(expr, variables, k + 1)
      case Some(i) =>
        var name := Trim(expr[..i]);
        name in variables && Holds(op, variables[name], ParseRhs(Trim(expr[i + |op.Symbol()|..])))
  }

  predicate EvaluateCondition(text: string, variables: Variables) {
    var expr := Trim(text);
    expr != [] && EvaluateFrom(expr, variables, 0)
  }

  // ---- Printing, and what evaluation makes of what is printed ----

  datatype Literal = NullLit | BoolLit(b: bool) | TextLit(s: string) | IntLit(i: int)

  /** The integers a double holds exactly. */
  const EXACT_INT: int := 9007199254740992

  /** A double holds the number as it is; comparisons of other integers are rounded first. */
  predicate IsExact(n: Number) {
    n.Int? ==> -EXACT_INT <= n.i <= EXACT_INT
  }

  predicate Printable(lit: Literal) {
    lit.IntLit? ==> IsExact(Int(lit.i))
  }

  function Print(lit: Literal): string {
    match lit
    case NullLit => "null"
    case BoolLit(b) => if b then "true" else "false"
    case TextLit(s) => "\"" + s + "\""
    case IntLit(i) => if i < 0 then "-" + PrintNat(-i) else PrintNat(i)
  }

  function Meaning(lit: Literal): Value {
    match lit
    case NullLit => Null
    case BoolLit(b) => Bool(b)
    case TextLit(s) => Str(s)
    case IntLit(i) => Num(Int(i))
  }

  /** Parsing the right-hand side undoes printing. */
  lemma ParseRhsUndoesPrint(lit: Literal)
    requires Printable(lit)
    ensures ParseRhs(Print(lit)) == Meaning(lit)
  {
    match lit
    case TextLit(s) => assert Print(lit)[1..|Print(lit)| - 1] == s;
    case IntLit(i) =>
      var digits := PrintNat(if i < 0 then -i else i);
      PrintNatValue(if i < 0 then -i else i);
      if i < 0 {
        assert Print(lit)[1..] == digits;
      } else {
        assert IsDigit(digits[0]);
      }
      assert IsDigit(digits[|digits| - 1]);
      assert ParseI64(Print(lit)) == Some(i);
    case _ =>
  }

  ghost predicate OperatorFree(s: string) {
    forall op: Operator, i: int :: !OccursAt(s, i, op.Symbol())
  }

  function Comparison(name: string, op: Operator, rhs: string): string {
    name + " " + op.Symbol() + " " + rhs
  }

  /** A spaceless pattern of one or two characters that stands in neither `left` nor `right` can occur
      in `left + " " + mid + " " + right` only inside `mid`. */
  lemma OccursInMiddle(left: string, mid: string, right: string, pattern: string, i: int)
    requires 1 <= |pattern| <= 2 && ' ' !in pattern
    requires forall j: int :: !OccursAt(left, j, pattern) && !OccursAt(right, j, pattern)
    requires OccursAt(left + " " + mid + " " + right, i, pattern)
    ensures |left| + 1 <= i && i + |pattern| <= |left| + 1 + |mid|
    ensures OccursAt(mid, i - |left| - 1, pattern)
  {
    var e := left + " " + mid + " " + right;
    var last := i + |pattern| - 1;
    assert e[i] == pattern[0] && e[last] == pattern[|pattern| - 1];
    assert e[|left|] == ' ' && e[|left| + 1 + |mid|] == ' ';
    if last < |left| {
      assert OccursAt(left, i, pattern);
    } else if |left| + 1 + |mid| < i {
      assert OccursAt(right, i - (|left| + |mid| + 2), pattern);
    }
  }

  lemma MiddleOccurs(left: string, mid: string, right: string)
    ensures OccursAt(left + " " + mid + " " + right, |left| + 1, mid)
  {}

  /** In a printed comparison of operator-free parts an operator occurs only in the operator's own place. */
  lemma OnlyOccurrence(name: string, op: Operator, rhs: string, other: Operator, i: int)
    requires OperatorFree(name) && OperatorFree(rhs)
    requires OccursAt(Comparison(name, op, rhs), i, other.Symbol())
    ensures |name| + 1 <= i && i + |other.Symbol()| <= |name| + 1 + |op.Symbol()|
    ensures OccursAt(op.Symbol(), i - |name| - 1, other.Symbol())
  {
    OccursInMiddle(name, op.Symbol(), rhs, other.Symbol(), i);
  }

  /** Inside an operator's own text, no operator searched for earlier occurs. */
  lemma NoEarlierOperatorInside(op: Operator, other: Operator, j: int)
    requires OccursAt(op.Symbol(), j, other.Symbol())
    ensures Rank(op) <= Rank(other)
    ensures other == op ==> j == 0
  {
    assert op.Symbol()[j] == other.Symbol()[0];
  }

  function Rank(op: Operator): (k: nat)
    ensures k < |OPERATORS| && OPERATORS[k] == op
  {
    match op case Eq => 0 case Ne => 1 case Ge => 2 case Le => 3 case Gt => 4 case Lt => 5
  }

  /** A search for `other` in a printed comparison finds nothing when `other` is searched for before
      `op`, and finds the operator's own place when it is `op`. */
  lemma SearchInComparison(name: string, op: Operator, rhs: string, other: Operator)
    requires OperatorFree(name) && OperatorFree(rhs)
    requires Rank(other) <= Rank(op)
    ensures FindFrom(Comparison(name, op, rhs), other.Symbol(), 0)
         == if other == op then Some(|name| + 1) else None
  {
    MiddleOccurs(name, op.Symbol(), rhs);
    var found := FindFrom(Comparison(name, op, rhs), other.Symbol(), 0);
    if found.Some? {
      OnlyOccurrence(name, op, rhs, other, found.value);
      NoEarlierOperatorInside(op, other, found.value - |name| - 1);
    }
  }

  lemma {:induction false} OperatorFound(name: string, op: Operator, rhs: string, variables: Variables, k: nat)
    requires OperatorFree(name) && OperatorFree(rhs)
    requires k <= Rank(op)
    ensures EvaluateFrom(Comparison(name, op, rhs), variables, k)
         == EvaluateFrom(Comparison(name, op, rhs), variables, Rank(op))
    decreases Rank(op) - k
  {
    if k < Rank(op) {
      SearchInComparison(name, op, rhs, OPERATORS[k]);
      OperatorFound(name, op, rhs, variables, k + 1);
    }
  }

  /** What a printed comparison evaluates to: the direct comparison of the named variable with the
      literal, and false when the variable is missing. */
  lemma ConditionsMeanWhatTheyPrint(name: string, op: Operator, lit: Literal, variables: Variables)
    requires name != "" && Tight(name) && OperatorFree(name)
    requires Printable(lit) && OperatorFree(Print(lit))
    ensures EvaluateCondition(Comparison(name, op, Print(lit)), variables)
        <==> name in variables && Holds(op, variables[name], Meaning(lit))
  {
    TightLiteral(lit);
    ParseRhsUndoesPrint(lit);
    ComparisonEvaluates(name, op, Print(lit), variables);
  }

  /** Once the operator is found, the two sides decide. */
  lemma EvaluatesAtOperator(name: string, op: Operator, rhs: string, variables: Variables)
    requires name != "" && Tight(name) && OperatorFree(name)
    requires rhs != "" && Tight(rhs) && OperatorFree(rhs)
    ensures EvaluateFrom(Comparison(name, op, rhs), variables, Rank(op))
        <==> name in variables && Holds(op, variables[name], ParseRhs(rhs))
  {
    hide Tight, OperatorFree, Holds, ParseRhs, Trim, Comparison, FindFrom;
    SearchInComparison(name, op, rhs, op);
    SidesOfComparison(name, op, rhs);
  }

  lemma ComparisonEvaluates(name: string, op: Operator, rhs: string, variables: Variables)
    requires name != "" && Tight(name) && OperatorFree(name)
    requires rhs != "" && Tight(rhs) && OperatorFree(rhs)
    ensures EvaluateCondition(Comparison(name, op, rhs), variables)
        <==> name in variables && Holds(op, variables[name], ParseRhs(rhs))
  {
    hide Tight, OperatorFree, Holds, ParseRhs, EvaluateFrom, Trim, Comparison;
    ComparisonIsTight(name, op, rhs);
    TrimTight(Comparison(name, op, rhs));
    OperatorFound(name, op, rhs, variables, 0);
    EvaluatesAtOperator(name, op, rhs, variables);
  }

  lemma ComparisonIsTight(name: string, op: Operator, rhs: string)
    requires name != "" && Tight(name) && rhs != "" && Tight(rhs)
    ensures Tight(Comparison(name, op, rhs)) && Comparison(name, op, rhs) != ""
  {
    var e := Comparison(name, op, rhs);
    assert e[0] == name[0] && e[|e| - 1] == rhs[|rhs| - 1];
  }

  lemma SidesOfComparison(name: string, op: Operator, rhs: string)
    requires name != "" && Tight(name) && rhs != "" && Tight(rhs)
    ensures var e, i := Comparison(name, op, rhs), |name| + 1;
      Trim(e[..i]) == name && Trim(e[i + |op.Symbol()|..]) == rhs
  {
    var e, i := Comparison(name, op, rhs), |name| + 1;
    assert e[..i] == [] + name + " ";
    TrimPadded([], name, " ");
    assert e[i + |op.Symbol()|..] == " " + rhs + [];
    TrimPadded(" ", rhs, []);
  }

  lemma TightLiteral(lit: Literal)
    requires Printable(lit)
    ensures Print(lit) != "" && Tight(Print(lit))
  {
    if lit.IntLit? {
      var digits := PrintNat(if lit.i < 0 then -lit.i else lit.i);
      assert IsDigit(digits[0]) && IsDigit(digits[|digits| - 1]);
    }
  }

  /** On integers the comparisons are the integer comparisons. */
  lemma IntegerComparisons(a: int, b: int)
    requires IsExact(Int(a)) && IsExact(Int(b))
    ensures var x, y := Num(Int(a)), Num(Int(b));
      && (Holds(Eq, x, y) <==> a == b) && (Holds(Ne, x, y) <==> a != b)
      && (Holds(Lt, x, y) <==> a < b) && (Holds(Le, x, y) <==> a <= b)
      && (Holds(Gt, x, y) <==> a > b) && (Holds(Ge, x, y) <==> a >= b)
  {
    if a != b {
      assert Abs(a as real - b as real) >= 1.0;
    }
  }

  /** `<` and `>=` against a number are complementary exactly on numbers; on anything else neither holds. */
  lemma LessAndGreaterEqualComplementary(v: Value, bound: Number)
    ensures v.Num? ==> (Holds(Lt, v, Num(bound)) <==> !Holds(Ge, v, Num(bound)))
    ensures !v.Num? ==> !Holds(Lt, v, Num(bound)) && !Holds(Ge, v, Num(bound))
  {}

  /** A condition that is the bare name of a variable holds when the variable is true, a number other than
      zero, a text that is not empty, or a list or an object; a variable that is missing or null fails it. */
  lemma BareNameIsTruthy(name: string, variables: Variables)
    requires name != [] && Tight(name) && OperatorFree(name)
    ensures EvaluateCondition(name, variables) <==>
      && name in variables && variables[name] != Null && variables[name] != Bool(false) && variables[name] != Str("")
      && (variables[name].Num? ==> variables[name].num.AsReal() != 0.0)
  {
    TrimTight(name);
    NoOperatorDecides(name, variables, 0);
  }

  lemma {:induction false} NoOperatorDecides(expr: string, variables: Variables, k: nat)
    requires OperatorFree(expr) && k <= |OPERATORS|
    ensures EvaluateFrom(expr, variables, k) <==> expr in variables && Truthy(variables[expr])
    decreases |OPERATORS| - k
  {
    if k < |OPERATORS| {
      assert FindFrom(expr, OPERATORS[k].Symbol(), 0).None?;
      NoOperatorDecides(expr, variables, k + 1);
    }
  }

  /** What the six comparisons mean: numbers compare as numbers, equal when they differ by less than the
      machine epsilon; everything else is equal exactly to itself, and neither less nor greater. */
  lemma ComparisonsMean(a: Value, b: Value)
    ensures a.Num? && b.Num? ==>
      var x, y := a.num.AsReal(), b.num.AsReal();
      && (Holds(Eq, a, b) <==> -1.0 < (x - y) * 4503599627370496.0 < 1.0)
      && (Holds(Lt, a, b) <==> x < y) && (Holds(Gt, a, b) <==> x > y)
      && (Holds(Le, a, b) <==> x <= y) && (Holds(Ge, a, b) <==> x >= y)
    ensures !(a.Num? && b.Num?) ==>
      && (Holds(Eq, a, b) <==> a == b)
      && !Holds(Lt, a, b) && !Holds(Gt, a, b) && !Holds(Le, a, b) && !Holds(Ge, a, b)
    ensures Holds(Ne, a, b) <==> !Holds(Eq, a, b)
  {}

  /** A condition of white space alone holds for nobody. */
  lemma BlankFails(text: string, variables: Variables)
    requires forall c <- text :: IsSpace(c)
    ensures !EvaluateCondition(text, variables)
  {
    BlankTrims(text);
  }

  lemma {:induction false} BlankTrims(text: string)
    requires forall c <- text :: IsSpace(c)
    ensures TrimStart(text) == [] == Trim(text)
  {
    if text != [] {
      assert text[0] in text && forall c <- text[1..] :: c in text;
      BlankTrims(text[1..]);
    }
  }

  /** Digits, with or without a sign, stand for an integer of 64 bits; beyond that range they stand for a
      floating-point number. */
  lemma IntegersParse(digits: string)
    requires digits != [] && AllDigits(digits)
    ensures var n := DigitsValue(digits);
      && ParseRhs(digits) == Num(if n <= 9_223_372_036_854_775_807 then Int(n) else Float(n as real))
      && ParseRhs("+" + digits) == ParseRhs(digits)
      && ParseRhs("-" + digits) == Num(if n <= 9_223_372_036_854_775_808 then Int(-(n as int)) else Float(-(n as real)))
  {
    hide ParseRhs, DigitsValue, ParseI64;
    IntegerText(digits, digits);
    IntegerText("+" + digits, digits);
    IntegerText("-" + digits, digits);
    assert IsDigit(digits[0]);
  }

  lemma IntegerText(text: string, digits: string)
    requires digits != [] && AllDigits(digits)
    requires text == digits || text == "+" + digits || text == "-" + digits
    ensures var n := if text[0] == '-' then -(DigitsValue(digits) as int) else DigitsValue(digits);
      ParseRhs(text) == Num(if -9_223_372_036_854_775_808 <= n <= 9_223_372_036_854_775_807 then Int(n)
        else Float(n as real))
  {
    assert IsDigit(digits[|digits| - 1]) && text[|text| - 1] == digits[|digits| - 1];
    SignedInteger(text, digits);
    WholeNumber(text, digits);
    hide ParseF64, ParseI64, DigitsValue, ParseRhs;
    NotQuoted(text);
  }

  lemma SignedInteger(text: string, digits: string)
    requires digits != [] && AllDigits(digits)
    requires text == digits || text == "+" + digits || text == "-" + digits
    ensures var n := if text[0] == '-' then -(DigitsValue(digits) as int) else DigitsValue(digits);
      ParseI64(text) == if -9_223_372_036_854_775_808 <= n <= 9_223_372_036_854_775_807 then Some(n) else None
  {
    assert IsDigit(digits[0]);
    assert (if text[0] == '-' || text[0] == '+' then text[1..] else text) == digits;
    hide DigitsValue;
  }

  lemma WholeNumber(text: string, digits: string)
    requires digits != [] && AllDigits(digits)
    requires text == digits || text == "+" + digits || text == "-" + digits
    ensures ParseF64(text) == Some(if text[0] == '-' then -(DigitsValue(digits) as real)
      else DigitsValue(digits) as real)
  {
    var signed := text[0] == '-' || text[0] == '+';
    assert IsDigit(digits[0]);
    assert (if signed then text[1..] else text) == digits;
    NoExponent(digits);
    assert digits[..|digits|] == digits;
    forall i | 0 <= i < |digits| ensures !OccursAt(digits, i, ".") {
      assert IsDigit(digits[i + 0]) && "."[0] == '.';
    }
    assert FindFrom(digits, ".", 0).None?;
    hide FindExponent, FindFrom, DigitsValue;
    ScaledByOne(DigitsValue(digits) as real + Scaled(0.0, 0));
    ScaledByOne(0.0);
  }

  /** A text in single or double quotes stands for itself. */
  lemma QuotesStandForText(s: string)
    ensures ParseRhs("'" + s + "'") == Str(s) == ParseRhs("\"" + s + "\"")
    ensures ParseRhs("'") == Str("") == ParseRhs("\"")
  {
    assert ("'" + s + "'")[1..|s| + 1] == s && ("\"" + s + "\"")[1..|s| + 1] == s;
  }

  lemma DigitAppended(s: string, c: char)
    requires AllDigits(s) && IsDigit(c)
    ensures AllDigits(s + [c]) && DigitsValue(s + [c]) as real == 10.0 * DigitsValue(s) as real + (c - '0') as real
  {
    assert (s + [c])[..|s|] == s;
  }

  lemma ShiftDigit(a: real, n: nat, b: real, digit: real)
    ensures 10.0 * (Scaled(a, n) + b) + digit == Scaled(a, n + 1) + (10.0 * b + digit)
  {
    assert a * (10.0 * Pow10(n)) == 10.0 * (a * Pow10(n));
  }

  lemma {:induction false} DigitsConcat(a: string, b: string)
    requires AllDigits(a) && AllDigits(b)
    ensures AllDigits(a + b)
    ensures DigitsValue(a + b) as real == Scaled(DigitsValue(a) as real, |b|) + DigitsValue(b) as real
    decreases |b|
  {
    hide Scaled, Pow10;
    if b == [] {
      assert a + b == a;
      ScaledByOne(DigitsValue(a) as real);
    } else {
      hide DigitsValue;
      var n := |b| - 1;
      var front, c := b[..n], b[n];
      DigitsConcat(a, front);
      DigitAppended(a + front, c);
      DigitAppended(front, c);
      assert a + b == a + front + [c] && b == front + [c];
      ShiftDigit(DigitsValue(a) as real, n, DigitsValue(front) as real, (c - '0') as real);
    }
  }

  function Decimal(whole: string, fraction: string, negative: bool): string {
    (if negative then "-" else "") + whole + "." + fraction
  }

  lemma DecimalText(whole: string, fraction: string, negative: bool)
    requires whole != [] && fraction != [] && AllDigits(whole) && AllDigits(fraction)
    ensures var body, text := whole + "." + fraction, Decimal(whole, fraction, negative);
      && text != [] && IsDigit(text[|text| - 1])
      && (if negative then text[0] == '-' && text[1..] == body
          else text == body && text[0] != '-' && text[0] != '+')
  {
    var body, text := whole + "." + fraction, Decimal(whole, fraction, negative);
    assert text == (if negative then "-" else "") + body;
    assert IsDigit(whole[0]) && IsDigit(fraction[|fraction| - 1]) && text[|text| - 1] == fraction[|fraction| - 1];
  }

  /** A decimal number stands for its digits, with the point as many places from the right as there are
      digits behind it. */
  lemma DecimalsParse(whole: string, fraction: string, negative: bool)
    requires whole != [] && fraction != [] && AllDigits(whole) && AllDigits(fraction)
    ensures var parsed := ParseRhs(Decimal(whole, fraction, negative));
      && parsed.Num? && parsed.num.Float? && AllDigits(whole + fraction)
      && Scaled(if negative then -parsed.num.r else parsed.num.r, |fraction|) == DigitsValue(whole + fraction) as real
  {
    hide DigitsValue, FindExponent, Pow10, Scaled, ParseI64, ParseF64, ParseRhs, FindFrom, Decimal, AllDigits;
    DecimalText(whole, fraction, negative);
    PointSplits(whole, fraction);
    NotAnInteger(whole, fraction, negative);
    DecimalValue(Decimal(whole, fraction, negative), whole, fraction, negative);
    NotQuoted(Decimal(whole, fraction, negative));
    DigitsConcat(whole, fraction);
    ScaledBack(DigitsValue(whole) as real, DigitsValue(fraction) as real, |fraction|);
  }

  lemma NotQuoted(text: string)
    requires text != [] && IsDigit(text[|text| - 1])
    ensures ParseI64(text).Some? ==> ParseRhs(text) == Num(Int(ParseI64(text).value))
    ensures ParseI64(text).None? && ParseF64(text).Some? ==> ParseRhs(text) == Num(Float(ParseF64(text).value))
  {
    hide ParseI64, ParseF64;
  }

  lemma ScaledBack(whole: real, fraction: real, n: int)
    requires n > 0
    ensures Scaled(whole + Scaled(fraction, -n), n) == Scaled(whole, n) + fraction
  {
    Pow10Positive(n);
  }

  lemma NotAnInteger(whole: string, fraction: string, negative: bool)
    requires whole != [] && fraction != [] && AllDigits(whole) && AllDigits(fraction)
    ensures ParseI64(Decimal(whole, fraction, negative)).None?
  {
    var body := whole + "." + fraction;
    assert body[|whole|] == '.' && !AllDigits(body);
    DecimalText(whole, fraction, negative);
  }

  lemma {:induction false} NoExponent(s: string)
    requires forall k :: 0 <= k < |s| ==> IsDigit(s[k]) || s[k] == '.'
    ensures FindExponent(s) == |s|
    decreases |s|
  {
    if s != [] {
      assert forall k :: 0 <= k < |s[1..]| ==> s[1..][k] == s[k + 1];
      NoExponent(s[1..]);
    }
  }

  /** The point is found behind the whole part, and there is no exponent. */
  lemma PointSplits(whole: string, fraction: string)
    requires AllDigits(whole) && AllDigits(fraction)
    ensures var body := whole + "." + fraction;
      && FindExponent(body) == |body| && FindFrom(body, ".", 0) == Some(|whole|)
      && body[..|whole|] == whole && body[|whole| + 1..] == fraction
  {
    var body := whole + "." + fraction;
    forall k | 0 <= k < |body| ensures IsDigit(body[k]) || body[k] == '.' {
      assert k < |whole| ==> body[k] == whole[k];
      assert k > |whole| ==> body[k] == fraction[k - |whole| - 1];
    }
    NoExponent(body);
    assert OccursAt(body, |whole|, ".");
    forall i | 0 <= i < |whole| ensures !OccursAt(body, i, ".") {
      assert body[i + 0] == whole[i] && "."[0] == '.' && IsDigit(whole[i]);
    }
  }

  lemma DecimalValue(text: string, whole: string, fraction: string, negative: bool)
    requires AllDigits(whole) && AllDigits(fraction) && whole != [] && fraction != []
    requires var body := whole + "." + fraction;
      && (if negative then text != [] && text[0] == '-' && text[1..] == body
          else text == body && text[0] != '-' && text[0] != '+')
      && FindExponent(body) == |body| && FindFrom(body, ".", 0) == Some(|whole|)
      && body[..|whole|] == whole && body[|whole| + 1..] == fraction
    ensures var magnitude := DigitsValue(whole) as real + Scaled(DigitsValue(fraction) as real, -|fraction|);
      ParseF64(text) == Some(if negative then -magnitude else magnitude)
  {
    var body := whole + "." + fraction;
    assert body[..|body|] == body;
    ScaledByOne(DigitsValue(whole) as real + Scaled(DigitsValue(fraction) as real, -|fraction|));
    hide DigitsValue, FindExponent, Scaled, FindFrom;
  }

  lemma ScaledByOne(x: real)
    ensures Scaled(x, 0) == x
  {}
}
