/**
 * The quantifier compiler: `Quantifier.ToRegex(pattern)` turns five
 * nullable fields into a regex suffix through a first-match-wins chain,
 * then may append a greedy `*` and a lazy `?`.
 *
 * C#'s lifted comparisons on `int?` are written out: `Min == 0` and
 * `Max < Min` are false whenever an operand is null.
 */
module Quantifiers {
  import opened Wrappers
  import opened Text

  /** `Quantifier`: every field may be null. */
  datatype Quantifier = Quantifier(
    min: Option<int>,
    max: Option<int>,
    exactly: Option<int>,
    lazy: Option<bool>,
    greedy: Option<bool>)

  /** `new Quantifier()`: every field null. */
  const Empty := Quantifier(None, None, None, None, None)

  /** The message of the range error. */
  const RangeMessage := "Max must be greater than or equal to Min."

  /** Lifted `a < b` on `int?`. */
  predicate LiftedLess(a: Option<int>, b: Option<int>) {
    a.Some? && b.Some? && a.value < b.value
  }

  /** `b.HasValue && b == true`. */
  predicate IsTrue(b: Option<bool>) {
    b == Some(true)
  }

  /** The text of a nullable bound inside `{..,..}`: the number, or nothing when null. */
  function BoundText(n: Option<int>): string {
    if n.Some? then IntToString(n.value) else ""
  }

  /** `{min,max}` with either number left out when null; the comma and braces are always there. */
  function RangeText(min: Option<int>, max: Option<int>): (s: string)
    ensures |s| >= 3 && s[0] == '{' && s[|s| - 1] == '}'
  {
    "{" + BoundText(min) + "," + BoundText(max) + "}"
  }

  /** `Exactly` takes precedence: it is set and positive. */
  predicate ExactlyApplies(q: Quantifier) {
    q.exactly.Some? && q.exactly.value > 0
  }

  /** Neither `Exactly`, `Min` nor `Max` is set, not even to 0. */
  predicate Unbounded(q: Quantifier) {
    q.exactly.None? && q.min.None? && q.max.None?
  }

  /** The single case the compiler rejects: both bounds set, `Max < Min`, and no `Exactly` to override them. */
  predicate RangeError(q: Quantifier) {
    !ExactlyApplies(q) && q.min.Some? && q.max.Some? && q.max.value < q.min.value
  }

  /** `CanBeGreedy(pattern)`: greedy requested, no bound set at all, and the input does not already end in a quantifier. */
  predicate CanBeGreedy(q: Quantifier, pattern: string) {
    IsTrue(q.greedy)
    && !EndsWith(pattern, "*") && !EndsWith(pattern, "+") && !EndsWith(pattern, "?")
    && q.exactly.None? && q.min.None? && q.max.None?
  }

  /** The lazy `?` is appended: lazy requested and the INPUT pattern does not end in `?`. */
  predicate AppendsLazy(q: Quantifier, pattern: string) {
    IsTrue(q.lazy) && !EndsWith(pattern, "?")
  }

  /** The bound chosen by the first-match-wins chain, or the range error. */
  function Bound(q: Quantifier): (r: Result<string>)
    ensures r.Err? <==> RangeError(q)
  {
    if ExactlyApplies(q) then Ok("{" + IntToString(q.exactly.value) + "}")
    else if q.min == Some(0) && q.max.None? then Ok("*")
    else if q.min == Some(1) && q.max.None? then Ok("+")
    else if q.min == Some(0) && q.max == Some(1) then Ok("?")
    else if LiftedLess(q.max, q.min) then Err(SerializationException(RangeMessage))
    else if (q.min.Some? && q.max.Some? && q.max.value >= q.min.value) || q.min.Some? || q.max.Some? then
      Ok(RangeText(q.min, q.max))
    else Ok("")
  }

  /** `Quantifier.ToRegex(pattern)`: the suffix to put after `pattern`. */
  function ToRegex(q: Quantifier, pattern: string): (r: Result<string>)
    ensures r.Err? <==> RangeError(q)
    ensures r.Err? ==> r.error == SerializationException(RangeMessage)
    ensures ExactlyApplies(q) ==> r.Ok? && StartsWith(r.value, "{" + IntToString(q.exactly.value) + "}")
    ensures r.Ok? && AppendsLazy(q, pattern) ==> EndsWith(r.value, "?")
    ensures Unbounded(q) ==> (r.Ok? && r.value ==
      (if CanBeGreedy(q, pattern) then "*" else "") + (if AppendsLazy(q, pattern) then "?" else ""))
  {
    match Bound(q)
    case Err(e) => Err(e)
    case Ok(b) =>
      var greedy := if CanBeGreedy(q, pattern) then "*" else "";
      var lazy := if AppendsLazy(q, pattern) then "?" else "";
      Ok(b + greedy + lazy)
  }

  /** An all-null quantifier compiles to nothing, whatever precedes it. */
  lemma EmptyCompilesToNothing(pattern: string)
    ensures ToRegex(Empty, pattern) == Ok("")
  {
  }

  /** The short forms: `Min=0` alone gives `*`, `Min=1` alone `+`, `Min=0,Max=1` gives `?` (when `Exactly` does not apply). */
  lemma ShortForms(q: Quantifier, pattern: string)
    requires !ExactlyApplies(q)
    ensures q.min == Some(0) && q.max.None? ==> ToRegex(q, pattern).Ok? && StartsWith(ToRegex(q, pattern).value, "*")
    ensures q.min == Some(1) && q.max.None? ==> ToRegex(q, pattern).Ok? && StartsWith(ToRegex(q, pattern).value, "+")
    ensures q.min == Some(0) && q.max == Some(1) ==> ToRegex(q, pattern).Ok? && StartsWith(ToRegex(q, pattern).value, "?")
  {
  }

  /** Past the short forms and the range check, any bound gives `{min,max}`, and `Exactly <= 0` is ignored. */
  lemma RangeForm(q: Quantifier, pattern: string)
    requires !ExactlyApplies(q) && !RangeError(q) && (q.min.Some? || q.max.Some?)
    requires !(q.min == Some(0) && q.max.None?) && !(q.min == Some(1) && q.max.None?)
    requires !(q.min == Some(0) && q.max == Some(1))
    ensures ToRegex(q, pattern).Ok? && StartsWith(ToRegex(q, pattern).value, RangeText(q.min, q.max))
  {
  }

  /** The index of the first `c` in `s`, or `|s|`. */
  function IndexOf(s: string, c: char): (k: nat)
    ensures k <= |s| && c !in s[..k]
    ensures k < |s| ==> s[k] == c
  {
    if |s| == 0 then 0
    else if s[0] == c then 0
    else
      var k := IndexOf(s[1..], c);
      assert s[..k + 1] == [s[0]] + s[1..][..k];
      1 + k
  }

  /** Reads back one side of `{min,max}`: nothing means null. */
  function ParseBound(t: string): Option<Option<int>> {
    if t == "" then Some(None)
    else match ParseInt(t)
      case Some(n) => Some(Some(n))
      case None => None
  }

  /** Reads back `{min,max}`, splitting at the first comma. */
  function ParseRange(s: string): Option<(Option<int>, Option<int>)> {
    if |s| < 2 || s[0] != '{' || s[|s| - 1] != '}' then None
    else
      var inner := s[1..|s| - 1];
      var k := IndexOf(inner, ',');
      if k == |inner| then None
      else match (ParseBound(inner[..k]), ParseBound(inner[k + 1..]))
        case (Some(lo), Some(hi)) => Some((lo, hi))
        case _ => None
  }

  lemma {:induction false} IndexOfNoComma(a: string, b: string)
    requires ',' !in a
    ensures IndexOf(a + "," + b, ',') == |a|
    decreases |a|
  {
    if |a| > 0 {
      assert (a + "," + b)[1..] == a[1..] + "," + b;
      IndexOfNoComma(a[1..], b);
    }
  }

  lemma ParseBoundText(n: Option<int>)
    ensures ParseBound(BoundText(n)) == Some(n)
    ensures ',' !in BoundText(n)
  {
    if n.Some? {
      ParseIntToString(n.value);
      var t := IntToString(n.value);
      assert forall i :: 0 <= i < |t| ==> t[i] != ',';
    }
  }

  /** The `{min,max}` text carries exactly `Min` and `Max`: it reads back as the two nullable bounds. */
  lemma ParseRangeText(min: Option<int>, max: Option<int>)
    ensures ParseRange(RangeText(min, max)) == Some((min, max))
  {
    var lo, hi := BoundText(min), BoundText(max);
    var s := RangeText(min, max);
    var inner := s[1..|s| - 1];
    assert inner == lo + "," + hi;
    ParseBoundText(min);
    ParseBoundText(max);
    IndexOfNoComma(lo, hi);
    assert IndexOf(inner, ',') == |lo|;
    assert inner[..|lo|] == lo;
    assert inner[|lo| + 1..] == hi;
    assert ParseBound(inner[..|lo|]) == Some(min);
    assert ParseBound(inner[|lo| + 1..]) == Some(max);
  }

  /** The greedy `*` is appended exactly when `CanBeGreedy` holds; it never follows a bound. */
  lemma GreedyIff(q: Quantifier, pattern: string)
    requires ToRegex(q, pattern).Ok?
    ensures CanBeGreedy(q, pattern) ==> Bound(q) == Ok("") && StartsWith(ToRegex(q, pattern).value, "*")
    ensures !CanBeGreedy(q, pattern) && Bound(q).Ok? ==>
      ToRegex(q, pattern).value == Bound(q).value + (if AppendsLazy(q, pattern) then "?" else "")
  {
  }

  /** Whether a fragment ends in `*`, `+` or `?` is read off its last character. */
  lemma TrailingQuantifier(pattern: string)
    ensures EndsWith(pattern, "*") <==> |pattern| > 0 && pattern[|pattern| - 1] == '*'
    ensures EndsWith(pattern, "+") <==> |pattern| > 0 && pattern[|pattern| - 1] == '+'
    ensures EndsWith(pattern, "?") <==> |pattern| > 0 && pattern[|pattern| - 1] == '?'
  {
    EndsWithChar(pattern, '*');
    EndsWithChar(pattern, '+');
    EndsWithChar(pattern, '?');
  }

  /** `{Min=0,Max=1,Lazy}`: the short form `?`, then a lazy `?` unless the input already ends in one. */
  lemma LazyShortForm(pattern: string)
    ensures ToRegex(Quantifier(Some(0), Some(1), None, Some(true), None), pattern)
      == Ok(if EndsWith(pattern, "?") then "?" else "??")
  {
    var q := Quantifier(Some(0), Some(1), None, Some(true), None);
    assert Bound(q) == Ok("?");
    assert !CanBeGreedy(q, pattern);
    assert "?" + "" + "" == "?";
    assert "?" + "" + "?" == "??";
  }

  /** `{Min=2,Max=9,Lazy}`: the range `{2,9}`, then a lazy `?` unless the input already ends in one. */
  lemma LazyRange(pattern: string)
    ensures ToRegex(Quantifier(Some(2), Some(9), None, Some(true), None), pattern)
      == Ok(if EndsWith(pattern, "?") then "{2,9}" else "{2,9}?")
  {
    var q := Quantifier(Some(2), Some(9), None, Some(true), None);
    assert IntToString(2) == "2";
    assert IntToString(9) == "9";
    assert "{" + "2" + "," + "9" + "}" == "{2,9}";
    assert Bound(q) == Ok("{2,9}");
    assert !CanBeGreedy(q, pattern);
    assert "{2,9}" + "" + "" == "{2,9}";
    assert "{2,9}" + "" + "?" == "{2,9}?";
  }

  /** The lazy `?` is decided by the input pattern, not by the suffix built so far: `{Min=0,Max=1,Lazy}` gives `??`. */
  lemma LazyLooksAtInput()
    ensures ToRegex(Quantifier(Some(0), Some(1), None, Some(true), None), "a") == Ok("??")
    ensures ToRegex(Quantifier(Some(0), Some(1), None, Some(true), None), "a?") == Ok("?")
    ensures ToRegex(Quantifier(Some(2), Some(9), None, Some(true), None), "A") == Ok("{2,9}?")
  {
    TrailingQuantifier("a");
    TrailingQuantifier("a?");
    TrailingQuantifier("A");
    LazyShortForm("a");
    LazyShortForm("a?");
    LazyRange("A");
  }

  /** Without `Greedy` or `Lazy` the suffix is the bound alone, whatever the input. */
  lemma BoundAlone(q: Quantifier, pattern: string)
    requires q.greedy != Some(true) && q.lazy != Some(true)
    ensures ToRegex(q, pattern) == Bound(q)
  {
    if Bound(q).Ok? {
      assert Bound(q).value + "" + "" == Bound(q).value;
    }
  }

  /** The bounds the unit tests exercise. */
  lemma BoundExamples()
    ensures Bound(Quantifier(None, None, Some(3), None, None)) == Ok("{3}")
    ensures Bound(Quantifier(Some(0), None, None, None, None)) == Ok("*")
    ensures Bound(Quantifier(Some(1), None, None, None, None)) == Ok("+")
    ensures Bound(Quantifier(Some(0), Some(1), None, None, None)) == Ok("?")
    ensures Bound(Quantifier(Some(2), Some(1), None, None, None)) == Err(SerializationException(RangeMessage))
    ensures Bound(Quantifier(Some(2), Some(3), None, None, None)) == Ok("{2,3}")
  {
    assert IntToString(3) == "3";
    assert IntToString(2) == "2";
    assert "{" + "3" + "}" == "{3}";
    assert "{" + "2" + "," + "3" + "}" == "{2,3}";
  }

  /** With no bound, `Greedy` alone gives `*` unless the input already ends in a quantifier, and `Lazy` alone gives `?` unless it ends in `?`. */
  lemma GreedyOrLazyAlone(pattern: string)
    ensures ToRegex(Quantifier(None, None, None, None, Some(true)), pattern)
      == Ok(if EndsWith(pattern, "*") || EndsWith(pattern, "+") || EndsWith(pattern, "?") then "" else "*")
    ensures ToRegex(Quantifier(None, None, None, Some(true), None), pattern)
      == Ok(if EndsWith(pattern, "?") then "" else "?")
  {
    assert "" + "*" + "" == "*";
    assert "" + "" + "?" == "?";
    assert "" + "" + "" == "";
  }

  /** The outputs fixed by the unit tests. */
  lemma TestTable()
    ensures ToRegex(Quantifier(None, None, Some(3), None, None), "") == Ok("{3}")
    ensures ToRegex(Quantifier(Some(0), None, None, None, None), "a") == Ok("*")
    ensures ToRegex(Quantifier(Some(1), None, None, None, None), "a") == Ok("+")
    ensures ToRegex(Quantifier(Some(0), Some(1), None, None, None), "a") == Ok("?")
    ensures ToRegex(Quantifier(Some(2), Some(1), None, None, None), "a") == Err(SerializationException(RangeMessage))
    ensures ToRegex(Quantifier(Some(2), Some(3), None, None, None), "a") == Ok("{2,3}")
    ensures ToRegex(Quantifier(None, None, None, None, Some(true)), "a") == Ok("*")
    ensures ToRegex(Quantifier(None, None, None, Some(true), None), "a") == Ok("?")
    ensures CanBeGreedy(Quantifier(None, None, None, None, Some(true)), "abc")
    ensures !CanBeGreedy(Empty, "abc*") && !CanBeGreedy(Empty, "abc{2}") && !CanBeGreedy(Empty, "abc?")
    ensures ToRegex(Quantifier(None, None, None, None, Some(true)), "abc*") == Ok("")
  {
    BoundExamples();
    BoundAlone(Quantifier(None, None, Some(3), None, None), "");
    BoundAlone(Quantifier(Some(0), None, None, None, None), "a");
    BoundAlone(Quantifier(Some(1), None, None, None, None), "a");
    BoundAlone(Quantifier(Some(0), Some(1), None, None, None), "a");
    BoundAlone(Quantifier(Some(2), Some(1), None, None, None), "a");
    BoundAlone(Quantifier(Some(2), Some(3), None, None, None), "a");
    TrailingQuantifier("a");
    TrailingQuantifier("abc");
    TrailingQuantifier("abc*");
    TrailingQuantifier("abc{2}");
    TrailingQuantifier("abc?");
    GreedyOrLazyAlone("a");
    GreedyOrLazyAlone("abc*");
  }

  /** A negative bound is rendered as is: `Min=-1` alone gives `{-1,}`. */
  lemma NegativeBoundPassesThrough()
    ensures ToRegex(Quantifier(Some(-1), None, None, None, None), "") == Ok("{-1,}")
  {
    TrailingQuantifier("");
    assert IntToString(-1) == "-1";
    assert "{" + "-1" + "," + "" + "}" == "{-1,}";
    assert "{-1,}" + "" + "" == "{-1,}";
  }
}
