/**
 * `validate_list(list_obj, symbol, value)`: compare every element of a list
 * against one threshold with the comparator named by `symbol`, collect the
 * verdicts in `vals`, and return `all(vals)`.
 *
 * Two edge cases follow from that shape and are kept: an empty list gives
 * true (`all([])`), and a symbol outside the five recognised ones appends
 * nothing, so it gives true whatever the list holds.
 */
module Validate {
  import opened Wrappers
  import opened Floats

  /** The five comparator symbols the dispatch recognises. */
  datatype Comparator = Lt | Le | Gt | Ge | Eq

  /** The symbol string that selects each comparator. */
  function Symbol(c: Comparator): string {
    match c
    case Lt => "<"
    case Le => "<="
    case Gt => ">"
    case Ge => ">="
    case Eq => "=="
  }

  /** The if/elif dispatch on `symbol`; `None` when no branch matches. */
  function ParseComparator(symbol: string): (c: Option<Comparator>)
    ensures c.Some? ==> Symbol(c.value) == symbol
    ensures c.None? <==> symbol !in {"<", "<=", ">", ">=", "=="}
  {
    if symbol == "<" then Some(Lt)
    else if symbol == "<=" then Some(Le)
    else if symbol == ">" then Some(Gt)
    else if symbol == ">=" then Some(Ge)
    else if symbol == "==" then Some(Eq)
    else None
  }

  /** Every comparator is selected by its own symbol and by no other. */
  lemma ParseSymbolRoundTrip(c: Comparator, symbol: string)
    ensures ParseComparator(Symbol(c)) == Some(c)
    ensures ParseComparator(symbol) == Some(c) ==> symbol == Symbol(c)
  {
  }

  /** `x <op> value` under Python float semantics. */
  function Holds(c: Comparator, x: Float, value: real): bool {
    match c
    case Lt => x.Less(value)
    case Le => x.AtMost(value)
    case Gt => x.Greater(value)
    case Ge => x.AtLeast(value)
    case Eq => x.Equals(value)
  }

  /** What one pass of the loop appends to `vals` for the element `x`. */
  function Appended(symbol: string, x: Float, value: real): seq<bool> {
    match ParseComparator(symbol)
    case None => []
    case Some(c) => [Holds(c, x, value)]
  }

  /** The list `vals` after the loop has visited every element of `list`. */
  function Verdicts(list: seq<Float>, symbol: string, value: real): (vals: seq<bool>)
    ensures ParseComparator(symbol).None? ==> vals == []
    ensures ParseComparator(symbol).Some? ==>
      |vals| == |list| &&
      forall i :: 0 <= i < |list| ==> vals[i] == Holds(ParseComparator(symbol).value, list[i], value)
  {
    if list == [] then []
    else Verdicts(list[..|list| - 1], symbol, value) + Appended(symbol, list[|list| - 1], value)
  }

  /** Python's `all`. */
  predicate All(vals: seq<bool>) {
    forall i :: 0 <= i < |vals| ==> vals[i]
  }

  /** The value `validate_list` returns. */
  predicate ValidateSpec(list: seq<Float>, symbol: string, value: real) {
    All(Verdicts(list, symbol, value))
  }

  /** For a recognised symbol the result is true iff every element satisfies the comparison. */
  lemma ValidateRecognised(list: seq<Float>, c: Comparator, value: real)
    ensures ValidateSpec(list, Symbol(c), value) <==> forall i :: 0 <= i < |list| ==> Holds(c, list[i], value)
  {
    ParseSymbolRoundTrip(c, Symbol(c));
    var vals := Verdicts(list, Symbol(c), value);
    if ValidateSpec(list, Symbol(c), value) {
      forall i | 0 <= i < |list| ensures Holds(c, list[i], value) {
        assert vals[i];
      }
    }
  }

  /** An empty list validates, for every symbol and threshold. */
  lemma ValidateEmpty(symbol: string, value: real)
    ensures ValidateSpec([], symbol, value)
  {
  }

  /** An unrecognised symbol validates every list. */
  lemma ValidateUnrecognised(list: seq<Float>, symbol: string, value: real)
    requires symbol !in {"<", "<=", ">", ">=", "=="}
    ensures ValidateSpec(list, symbol, value)
  {
  }

  /**
   * A single `=` is not one of the dispatched symbols (the equality branch
   * tests `==`), so it appends nothing and validates every list.
   */
  lemma SingleEqualsValidatesAll(list: seq<Float>, value: real)
    ensures ValidateSpec(list, "=", value)
  {
    ValidateUnrecognised(list, "=", value);
  }

  /** A NaN element fails every recognised comparison, so the list does not validate. */
  lemma ValidateNaN(list: seq<Float>, c: Comparator, value: real, k: nat)
    requires k < |list| && list[k] == NaN
    ensures !ValidateSpec(list, Symbol(c), value)
  {
    ValidateRecognised(list, c, value);
    assert !Holds(c, list[k], value);
  }

  /** The loop of `validate_list`: append one verdict per element, then reduce with `all`. */
  method ValidateList(list: seq<Float>, symbol: string, value: real) returns (ok: bool)
    ensures ok == ValidateSpec(list, symbol, value)
    ensures ParseComparator(symbol).None? ==> ok
    ensures ParseComparator(symbol).Some? ==>
      (ok <==> forall i :: 0 <= i < |list| ==> Holds(ParseComparator(symbol).value, list[i], value))
  {
    var vals: seq<bool> := [];
    for k := 0 to |list|
      invariant vals == Verdicts(list[..k], symbol, value)
    {
      var l := list[k];
      if symbol == "<" {
        vals := vals + [l.Less(value)];
      } else if symbol == "<=" {
        vals := vals + [l.AtMost(value)];
      } else if symbol == ">" {
        vals := vals + [l.Greater(value)];
      } else if symbol == ">=" {
        vals := vals + [l.AtLeast(value)];
      } else if symbol == "==" {
        vals := vals + [l.Equals(value)];
      }
      assert list[..k + 1][..k] == list[..k];
    }
    assert list[..|list|] == list;
    ok := All(vals);
    if ParseComparator(symbol).Some? {
      ValidateRecognised(list, ParseComparator(symbol).value, value);
    }
  }
}
