/**
 * The alert decision in `main`: LONG when every RSI reading is below `down`,
 * otherwise SHORT when every reading is above `up`, otherwise nothing.
 * Both tests go through `validate_list`, so they inherit its semantics.
 */
module Decision {
  import opened Floats
  import opened Validate

  datatype Signal = Long | Short | NoAlert

  /** Lowest RSI point that triggers a LONG alert. */
  const DefaultDown: real := 40.0
  /** Highest RSI point that triggers a SHORT alert. */
  const DefaultUp: real := 60.0

  /** The if/elif over the two `validate_list` calls. */
  function Decide(readings: seq<Float>, down: real, up: real): Signal {
    if ValidateSpec(readings, "<", down) then Long
    else if ValidateSpec(readings, ">", up) then Short
    else NoAlert
  }

  predicate AllBelow(readings: seq<Float>, down: real) {
    forall i :: 0 <= i < |readings| ==> readings[i].Less(down)
  }

  predicate AllAbove(readings: seq<Float>, up: real) {
    forall i :: 0 <= i < |readings| ==> readings[i].Greater(up)
  }

  /** LONG exactly when all are below `down`; SHORT exactly when that fails and all are above `up`. */
  lemma DecideCases(readings: seq<Float>, down: real, up: real)
    ensures Decide(readings, down, up) == Long <==> AllBelow(readings, down)
    ensures Decide(readings, down, up) == Short <==> !AllBelow(readings, down) && AllAbove(readings, up)
    ensures Decide(readings, down, up) == NoAlert <==> !AllBelow(readings, down) && !AllAbove(readings, up)
  {
    ValidateRecognised(readings, Lt, down);
    ValidateRecognised(readings, Gt, up);
  }

  /**
   * With `down < up` and at least one reading, the LONG and SHORT conditions
   * never hold together, so the elif priority never decides anything.
   */
  lemma LongShortExclusive(readings: seq<Float>, down: real, up: real)
    requires down < up && |readings| > 0
    ensures !(AllBelow(readings, down) && AllAbove(readings, up))
    ensures Decide(readings, down, up) == Short <==> AllAbove(readings, up)
  {
    DecideCases(readings, down, up);
    if AllBelow(readings, down) {
      assert readings[0].Less(down);
    }
  }

  /** The default thresholds 40 < 60 make the alerts exclusive for the three readings of `main`. */
  lemma DefaultsExclusive(r15m: Float, r1h: Float, r4h: Float)
    ensures Decide([r15m, r1h, r4h], DefaultDown, DefaultUp) == Short <==> AllAbove([r15m, r1h, r4h], DefaultUp)
  {
    LongShortExclusive([r15m, r1h, r4h], DefaultDown, DefaultUp);
  }

  /** A NaN reading (no price movement in a window) silences both alerts. */
  lemma NaNSilences(readings: seq<Float>, down: real, up: real, k: nat)
    requires k < |readings| && readings[k] == NaN
    ensures Decide(readings, down, up) == NoAlert
  {
    ValidateNaN(readings, Lt, down, k);
    ValidateNaN(readings, Gt, up, k);
  }

  /** With no readings the LONG test passes vacuously. */
  lemma EmptyReadingsAreLong(down: real, up: real)
    ensures Decide([], down, up) == Long
  {
    ValidateEmpty("<", down);
  }

  /** Readings 30, 35 and 38 against the defaults give LONG. */
  lemma ExampleLong()
    ensures Decide([Num(30.0), Num(35.0), Num(38.0)], DefaultDown, DefaultUp) == Long
  {
    DecideCases([Num(30.0), Num(35.0), Num(38.0)], DefaultDown, DefaultUp);
  }

  /** Readings 65, 72 and 80 against the defaults give SHORT. */
  lemma ExampleShort()
    ensures Decide([Num(65.0), Num(72.0), Num(80.0)], DefaultDown, DefaultUp) == Short
  {
    DecideCases([Num(65.0), Num(72.0), Num(80.0)], DefaultDown, DefaultUp);
  }

  /** The branch of `main` that evaluates the 15m, 1h and 4h readings. */
  method Evaluate(rsi15m: Float, rsi1h: Float, rsi4h: Float, down: real, up: real) returns (s: Signal)
    ensures s == Decide([rsi15m, rsi1h, rsi4h], down, up)
    ensures s == Long <==> rsi15m.Less(down) && rsi1h.Less(down) && rsi4h.Less(down)
    ensures s == Short <==>
      !(rsi15m.Less(down) && rsi1h.Less(down) && rsi4h.Less(down)) &&
      rsi15m.Greater(up) && rsi1h.Greater(up) && rsi4h.Greater(up)
  {
    var readings := [rsi15m, rsi1h, rsi4h];
    DecideCases(readings, down, up);
    assert readings[0] == rsi15m && readings[1] == rsi1h && readings[2] == rsi4h;
    assert AllBelow(readings, down) <==> rsi15m.Less(down) && rsi1h.Less(down) && rsi4h.Less(down);
    assert AllAbove(readings, up) <==> rsi15m.Greater(up) && rsi1h.Greater(up) && rsi4h.Greater(up);
    var long := ValidateList(readings, "<", down);
    if long {
      s := Long;
    } else {
      var short := ValidateList(readings, ">", up);
      if short {
        s := Short;
      } else {
        s := NoAlert;
      }
    }
  }
}
