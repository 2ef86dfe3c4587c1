/**
 * The second copy of the quantifier compiler: the default-interface
 * `IQuantifier.ToRegex(pattern)` of the RegexRules library. It builds the
 * suffix step by step in a buffer; it is proved to agree with
 * `Quantifiers.ToRegex` on every field combination and every input.
 */
module RegexRulesQuantifier {
  import opened Wrappers
  import opened Text
  import Quantifiers

  /** The first half of `IQuantifier.ToRegex(pattern)`: the first-match-wins chain appending the bound to the empty buffer. */
  method AppendBound(q: Quantifiers.Quantifier) returns (r: Result<string>)
    ensures r == Quantifiers.Bound(q)
  {
    var sb := "";
    if q.exactly.Some? && q.exactly.value > 0 {
      sb := sb + "{" + IntToString(q.exactly.value) + "}";
      assert sb == "{" + IntToString(q.exactly.value) + "}";
    } else if q.min == Some(0) && q.max.None? {
      sb := sb + "*";
      assert sb == "*";
    } else if q.min == Some(1) && q.max.None? {
      sb := sb + "+";
      assert sb == "+";
    } else if q.min == Some(0) && q.max == Some(1) {
      sb := sb + "?";
      assert sb == "?";
    } else if q.max.Some? && q.min.Some? && q.max.value < q.min.value {
      return Err(SerializationException("Max must be greater than or equal to Min."));
    } else if (q.min.Some? && q.max.Some? && q.max.value >= q.min.value) || q.min.Some? || q.max.Some? {
      sb := sb + "{";
      assert sb == "{";
      if q.min.Some? {
        sb := sb + IntToString(q.min.value);
      }
      assert sb == "{" + Quantifiers.BoundText(q.min);
      sb := sb + ",";
      if q.max.Some? {
        sb := sb + IntToString(q.max.value);
      }
      assert sb == "{" + Quantifiers.BoundText(q.min) + "," + Quantifiers.BoundText(q.max);
      sb := sb + "}";
    }
    return Ok(sb);
  }

  /**
   * `IQuantifier.ToRegex(pattern)`: the same five nullable fields, the same
   * chain, then the greedy `*` and the lazy `?` appended to the buffer.
   */
  method ToRegex(q: Quantifiers.Quantifier, pattern: string) returns (r: Result<string>)
    ensures r == Quantifiers.ToRegex(q, pattern)
  {
    var bound := AppendBound(q);
    if bound.Err? {
      return Err(bound.error);
    }
    var sb := bound.value;
    if q.greedy == Some(true) && !EndsWith(pattern, "*") && !EndsWith(pattern, "+") && !EndsWith(pattern, "?")
      && q.exactly.None? && q.min.None? && q.max.None?
    {
      sb := sb + "*";
    }
    assert sb == bound.value + (if Quantifiers.CanBeGreedy(q, pattern) then "*" else "");
    if q.lazy == Some(true) && !EndsWith(pattern, "?") {
      sb := sb + "?";
    }
    assert sb == bound.value + (if Quantifiers.CanBeGreedy(q, pattern) then "*" else "")
      + (if Quantifiers.AppendsLazy(q, pattern) then "?" else "");
    return Ok(sb);
  }

  /** The unit-test outputs of the RegexRules copy: `Greedy` alone gives `*` and `Lazy` alone gives `?` on `a`. */
  method GreedyAndLazyAlone() returns (greedy: Result<string>, lazy: Result<string>)
    ensures greedy == Ok("*") && lazy == Ok("?")
  {
    Quantifiers.TrailingQuantifier("a");
    greedy := ToRegex(Quantifiers.Quantifier(None, None, None, None, Some(true)), "a");
    assert "" + "*" + "" == "*";
    lazy := ToRegex(Quantifiers.Quantifier(None, None, None, Some(true), None), "a");
    assert "" + "" + "?" == "?";
  }
}
