/**
 * The `while True` loop of `main`. Each cycle fetches the 15m, 1h and 4h RSI
 * readings and the mark price, evaluates the alert, sends it when there is
 * one, and sleeps `sleep_duration`; any exception raised in the cycle is
 * caught, and the loop sleeps 30 seconds and starts the next cycle.
 *
 * Network calls are not modelled: each cycle's environment says which calls
 * raised and what the readings were. The loop never ends, so the model runs
 * it over any finite sequence of cycle environments and shows that every one
 * of them is processed.
 */
module Monitor {
  import opened Wrappers
  import opened Floats
  import opened Decision

  /** Seconds slept after a cycle that raised. */
  const BackoffSeconds: nat := 30
  /** Seconds slept after a cycle that completed (`60*5`). */
  const DefaultSleepDuration: nat := 300

  datatype Config = Config(down: real, up: real, sleepDuration: nat)

  /** The thresholds and interval `main` sets up. */
  const DefaultConfig := Config(DefaultDown, DefaultUp, DefaultSleepDuration)

  /** A call that either returns a value or raises. */
  datatype Fetch<T> = Got(value: T) | Raised

  /** What the outside world does during one cycle. */
  datatype CycleEnv = CycleEnv(
    rsi15m: Fetch<Float>,
    rsi1h: Fetch<Float>,
    rsi4h: Fetch<Float>,
    markPriceOk: bool,  // the mark-price request returned
    deliveryOk: bool    // the notification request returned
  )

  /** What one cycle did: the alert it delivered, whether it raised, how long it slept. */
  datatype Effect = Effect(delivered: Option<Signal>, failed: bool, sleepSeconds: nat)

  predicate FetchesOk(env: CycleEnv) {
    env.rsi15m.Got? && env.rsi1h.Got? && env.rsi4h.Got? && env.markPriceOk
  }

  function Readings(env: CycleEnv): seq<Float>
    requires FetchesOk(env)
  {
    [env.rsi15m.value, env.rsi1h.value, env.rsi4h.value]
  }

  /** The sleep rule: 30 seconds after a failure, the configured interval otherwise. */
  predicate SleepRule(cfg: Config, e: Effect) {
    e.sleepSeconds == if e.failed then BackoffSeconds else cfg.sleepDuration
  }

  /**
   * One cycle with a working notifier: a failed fetch or a failed delivery
   * backs off; otherwise the decided alert, if any, is delivered.
   */
  function Cycle(cfg: Config, env: CycleEnv): (e: Effect)
    ensures SleepRule(cfg, e)
    ensures e.delivered.Some? ==> !e.failed && e.delivered.value != NoAlert
    ensures !FetchesOk(env) ==> e == Effect(None, true, BackoffSeconds)
    ensures FetchesOk(env) ==>
      var s := Decide(Readings(env), cfg.down, cfg.up);
      (e.failed <==> s != NoAlert && !env.deliveryOk) &&
      (e.delivered == if s != NoAlert && env.deliveryOk then Some(s) else None)
  {
    if !FetchesOk(env) then Effect(None, true, BackoffSeconds)
    else
      var s := Decide(Readings(env), cfg.down, cfg.up);
      if s == NoAlert then Effect(None, false, cfg.sleepDuration)
      else if !env.deliveryOk then Effect(None, true, BackoffSeconds)
      else Effect(Some(s), false, cfg.sleepDuration)
  }

  /**
   * One cycle as the notifier is written: it reads a module-level `url`
   * that is never defined, so every send raises, whatever the transport does.
   * That is the fixed cycle with a send that always fails.
   */
  function CycleAsWritten(cfg: Config, env: CycleEnv): (e: Effect)
    ensures SleepRule(cfg, e)
    ensures e.delivered == None
  {
    Cycle(cfg, env.(deliveryOk := false))
  }

  /** The cycle of the loop: as written, or with the notifier fixed. */
  function CycleOf(cfg: Config, env: CycleEnv, notifierFixed: bool): Effect {
    if notifierFixed then Cycle(cfg, env) else CycleAsWritten(cfg, env)
  }

  /**
   * As written, a cycle that decides to alert never delivers and always
   * backs off for 30 seconds; with the notifier fixed and a working transport
   * it delivers the alert and sleeps the configured interval.
   */
  lemma AlertLostAsWritten(cfg: Config, env: CycleEnv)
    requires FetchesOk(env) && Decide(Readings(env), cfg.down, cfg.up) != NoAlert
    ensures CycleAsWritten(cfg, env) == Effect(None, true, BackoffSeconds)
    ensures env.deliveryOk ==>
      Cycle(cfg, env) == Effect(Some(Decide(Readings(env), cfg.down, cfg.up)), false, cfg.sleepDuration)
  {
  }

  /** Readings 30, 35 and 38 with the defaults: the LONG alert is lost as written. */
  lemma AlertLostExample()
    ensures var env := CycleEnv(Got(Num(30.0)), Got(Num(35.0)), Got(Num(38.0)), true, true);
      CycleAsWritten(DefaultConfig, env) == Effect(None, true, 30) &&
      Cycle(DefaultConfig, env) == Effect(Some(Long), false, 300)
  {
    var env := CycleEnv(Got(Num(30.0)), Got(Num(35.0)), Got(Num(38.0)), true, true);
    ExampleLong();
    assert Readings(env) == [Num(30.0), Num(35.0), Num(38.0)];
  }

  /** The two cycle models differ only where an alert was to be sent. */
  lemma AsWrittenAgreesWithoutAlert(cfg: Config, env: CycleEnv)
    requires !FetchesOk(env) || Decide(Readings(env), cfg.down, cfg.up) == NoAlert
    ensures CycleAsWritten(cfg, env) == Cycle(cfg, env)
  {
  }

  /** The body of the `try` and its `except`, for one cycle. */
  method RunCycle(cfg: Config, env: CycleEnv, notifierFixed: bool) returns (e: Effect)
    ensures e == CycleOf(cfg, env, notifierFixed)
    ensures SleepRule(cfg, e)
    ensures !notifierFixed ==> e.delivered == None
  {
    if env.rsi15m.Raised? || env.rsi1h.Raised? || env.rsi4h.Raised? || !env.markPriceOk {
      return Effect(None, true, BackoffSeconds);
    }
    var s := Evaluate(env.rsi15m.value, env.rsi1h.value, env.rsi4h.value, cfg.down, cfg.up);
    if s == NoAlert {
      e := Effect(None, false, cfg.sleepDuration);
    } else if !notifierFixed || !env.deliveryOk {
      // the send raises: `NameError` as written, a transport error once fixed
      e := Effect(None, true, BackoffSeconds);
    } else {
      e := Effect(Some(s), false, cfg.sleepDuration);
    }
  }

  /** The effects of running the cycles `envs` one after the other. */
  function Trace(cfg: Config, envs: seq<CycleEnv>, notifierFixed: bool): (effects: seq<Effect>)
    ensures |effects| == |envs|
    ensures forall i :: 0 <= i < |envs| ==> effects[i] == CycleOf(cfg, envs[i], notifierFixed)
  {
    if envs == [] then []
    else Trace(cfg, envs[..|envs| - 1], notifierFixed) + [CycleOf(cfg, envs[|envs| - 1], notifierFixed)]
  }

  /** Total time slept over a run. */
  function TotalSleep(effects: seq<Effect>): nat {
    if effects == [] then 0
    else TotalSleep(effects[..|effects| - 1]) + effects[|effects| - 1].sleepSeconds
  }

  /** Number of cycles that raised. */
  function Failures(effects: seq<Effect>): (n: nat)
    ensures n <= |effects|
  {
    if effects == [] then 0
    else Failures(effects[..|effects| - 1]) + (if effects[|effects| - 1].failed then 1 else 0)
  }

  /** Every cycle sleeps by the rule, so a run sleeps 30 s per failure and the interval per success. */
  lemma {:induction false} TotalSleepByRule(cfg: Config, effects: seq<Effect>)
    requires forall i :: 0 <= i < |effects| ==> SleepRule(cfg, effects[i])
    ensures TotalSleep(effects) ==
      BackoffSeconds * Failures(effects) + cfg.sleepDuration * (|effects| - Failures(effects))
  {
    if effects != [] {
      var n := |effects|;
      TotalSleepByRule(cfg, effects[..n - 1]);
      assert SleepRule(cfg, effects[n - 1]);
    }
  }

  /** Cycles are independent: running two batches in a row is running them as one. */
  lemma Memoryless(cfg: Config, first: seq<CycleEnv>, second: seq<CycleEnv>, notifierFixed: bool)
    ensures Trace(cfg, first + second, notifierFixed) ==
      Trace(cfg, first, notifierFixed) + Trace(cfg, second, notifierFixed)
  {
  }

  /**
   * A cycle whose fetch raised does not stop the loop: the next cycle runs
   * and, when its fetches succeed, reaches the same decision it would have
   * reached with no failure before it.
   */
  lemma RecoversAfterFailure(cfg: Config, envs: seq<CycleEnv>, i: nat)
    requires i + 1 < |envs| && !FetchesOk(envs[i]) && FetchesOk(envs[i + 1]) && envs[i + 1].deliveryOk
    ensures Trace(cfg, envs, true)[i] == Effect(None, true, BackoffSeconds)
    ensures var s := Decide(Readings(envs[i + 1]), cfg.down, cfg.up);
      Trace(cfg, envs, true)[i + 1] ==
        Effect(if s == NoAlert then None else Some(s), false, cfg.sleepDuration)
  {
  }

  /**
   * As written, no run of the loop delivers an alert, and every cycle that
   * decided one is a failure: the loop backs off and retries every 30 s for
   * as long as the condition lasts.
   */
  lemma NothingDeliveredAsWritten(cfg: Config, envs: seq<CycleEnv>)
    ensures forall i :: 0 <= i < |envs| ==> Trace(cfg, envs, false)[i].delivered == None
    ensures forall i :: 0 <= i < |envs| ==>
      (FetchesOk(envs[i]) && Decide(Readings(envs[i]), cfg.down, cfg.up) != NoAlert ==>
        Trace(cfg, envs, false)[i] == Effect(None, true, BackoffSeconds))
  {
  }

  /**
   * `while True`: run the given cycles in order. No outcome of a cycle ends
   * the loop, so every cycle is run and followed by a sleep.
   */
  method MonitorLoop(cfg: Config, envs: seq<CycleEnv>, notifierFixed: bool) returns (effects: seq<Effect>)
    ensures effects == Trace(cfg, envs, notifierFixed)
    ensures |effects| == |envs|
    ensures TotalSleep(effects) ==
      BackoffSeconds * Failures(effects) + cfg.sleepDuration * (|envs| - Failures(effects))
  {
    effects := [];
    var cycle := 0;
    while cycle < |envs|
      invariant 0 <= cycle <= |envs|
      invariant effects == Trace(cfg, envs[..cycle], notifierFixed)
    {
      var e := RunCycle(cfg, envs[cycle], notifierFixed);
      assert envs[..cycle + 1][..cycle] == envs[..cycle];
      effects := effects + [e];
      cycle := cycle + 1;
    }
    assert envs[..|envs|] == envs;
    TotalSleepByRule(cfg, effects);
  }
}
