/** The retry delay: exponential with full jitter and a floor of one second. */
module Backoff {
  import opened Settings

  function Power2(n: nat): nat {
    if n == 0 then 1 else 2 * Power2(n - 1)
  }

  /** `base * 2 ** n`, by repeated doubling. */
  function Exponential(base: real, n: nat): (x: real)
    requires 1.0 <= base
    ensures base <= x
  {
    if n == 0 then base else 2.0 * Exponential(base, n - 1)
  }

  lemma {:induction false} ExponentialIsPower(base: real, n: nat)
    requires 1.0 <= base
    ensures Exponential(base, n) == base * Power2(n) as real
  {
    if n == 0 {
    } else {
      ExponentialIsPower(base, n - 1);
      var p := Power2(n - 1) as real;
      assert base * (2.0 * p) == 2.0 * (base * p);
    }
  }

  function Min(a: real, b: real): real {
    if a <= b then a else b
  }

  /** The upper end of the jitter interval before the attempt numbered `attempts` is repeated. */
  function Ceiling(cfg: Settings, attempts: int): (c: real)
    ensures 1.0 <= c <= cfg.retryCap
  {
    var k := if attempts < 1 then 1 else attempts;
    Min(Exponential(cfg.retryBase, k - 1), cfg.retryCap)
  }

  /** What `random.uniform(0.0, capped)` may return. */
  predicate Draw(cfg: Settings, attempts: int, draw: real) {
    0.0 <= draw <= Ceiling(cfg, attempts)
  }

  /** `_backoff_delay`, with the random draw as a parameter. */
  function Delay(cfg: Settings, attempts: int, draw: real): (d: real)
    requires Draw(cfg, attempts, draw)
    ensures 1.0 <= d <= Ceiling(cfg, attempts)
    ensures draw <= d && (d == 1.0 || d == draw)
  {
    if draw < 1.0 then 1.0 else draw
  }

  // ----- All retries of one event -----

  /** Draws for attempts 1, 2, 3 and so on. */
  predicate DrawsFit(cfg: Settings, draws: seq<real>) {
    forall k :: 0 <= k < |draws| ==> Draw(cfg, k + 1, draws[k])
  }

  /** The delays scheduled after attempts 1 to |draws|. */
  function TotalDelay(cfg: Settings, draws: seq<real>): real
    requires DrawsFit(cfg, draws)
  {
    if |draws| == 0 then 0.0 else
      var n := |draws| - 1;
      TotalDelay(cfg, draws[..n]) + Delay(cfg, n + 1, draws[n])
  }

  lemma OneMoreDelay(cfg: Settings, draws: seq<real>, draw: real)
    requires DrawsFit(cfg, draws + [draw])
    ensures DrawsFit(cfg, draws) && Draw(cfg, |draws| + 1, draw)
    ensures TotalDelay(cfg, draws + [draw]) == TotalDelay(cfg, draws) + Delay(cfg, |draws| + 1, draw)
  {
    hide Ceiling, Delay;
    var longer := draws + [draw];
    assert longer[..|draws|] == draws && longer[|draws|] == draw;
    forall k | 0 <= k < |draws| ensures Draw(cfg, k + 1, draws[k]) {
      assert Draw(cfg, k + 1, longer[k]);
    }
  }

  function TotalCeiling(cfg: Settings, n: nat): real {
    if n == 0 then 0.0 else TotalCeiling(cfg, n - 1) + Ceiling(cfg, n)
  }

  lemma {:induction false} TotalDelayBounds(cfg: Settings, draws: seq<real>)
    requires DrawsFit(cfg, draws)
    ensures |draws| as real <= TotalDelay(cfg, draws) <= TotalCeiling(cfg, |draws|)
  {
    if |draws| == 0 {
    } else {
      var n := |draws| - 1;
      TotalDelayBounds(cfg, draws[..n]);
      assert Draw(cfg, n + 1, draws[n]);
    }
  }

  /** The number of leading attempts whose exponential delay stays below the cap. */
  function Crossover(cfg: Settings, n: nat): (c: nat)
    ensures c <= n
    ensures forall k: nat :: k < c ==> Exponential(cfg.retryBase, k) < cfg.retryCap
    ensures c < n ==> Exponential(cfg.retryBase, c) >= cfg.retryCap
  {
    if n == 0 then 0 else
      var c := Crossover(cfg, n - 1);
      if c == n - 1 && Exponential(cfg.retryBase, c) < cfg.retryCap then n else c
  }

  lemma {:induction false} ExponentialMonotone(base: real, m: nat, n: nat)
    requires 1.0 <= base && m <= n
    ensures Exponential(base, m) <= Exponential(base, n)
    decreases n
  {
    if m == n {
    } else {
      ExponentialMonotone(base, m, n - 1);
    }
  }

  /** `n` times `x`, by repeated addition. */
  function Times(n: nat, x: real): real {
    if n == 0 then 0.0 else Times(n - 1, x) + x
  }

  lemma {:induction false} TimesIsProduct(n: nat, x: real)
    ensures Times(n, x) == n as real * x
  {
    if n == 0 {
    } else {
      TimesIsProduct(n - 1, x);
      var m := (n - 1) as real;
      assert n as real == m + 1.0;
      assert (m + 1.0) * x == m * x + x;
    }
  }

  /**
   Below the crossover the ceilings double, from `base` on, and sum to base * (2^c - 1); from there on
   each of them is the cap.
   */
  lemma {:induction false} TotalCeilingByCrossover(cfg: Settings, n: nat)
    ensures var c := Crossover(cfg, n);
            TotalCeiling(cfg, n) == Exponential(cfg.retryBase, c) - cfg.retryBase + Times(n - c, cfg.retryCap)
  {
    if n == 0 {
    } else {
      TotalCeilingByCrossover(cfg, n - 1);
      var b, c := Crossover(cfg, n - 1), Crossover(cfg, n);
      if c == n {
        assert b == n - 1;
        assert Ceiling(cfg, n) == Exponential(cfg.retryBase, b);
      } else {
        assert c == b;
        ExponentialMonotone(cfg.retryBase, c, n - 1);
        assert Ceiling(cfg, n) == cfg.retryCap;
      }
    }
  }

  lemma {:induction false} TotalCeilingBounds(cfg: Settings, n: nat)
    ensures TotalCeiling(cfg, n) <= Exponential(cfg.retryBase, n) - cfg.retryBase
    ensures TotalCeiling(cfg, n) <= Times(n, cfg.retryCap)
  {
    if n == 0 {
    } else {
      TotalCeilingBounds(cfg, n - 1);
    }
  }

  /**
   All delays of an event that is retried n times, together: at least n seconds, and at most both
   base * (2^n - 1) and n caps.
   */
  lemma {:induction false} TotalBackoff(cfg: Settings, draws: seq<real>)
    requires DrawsFit(cfg, draws)
    ensures |draws| as real <= TotalDelay(cfg, draws)
    ensures TotalDelay(cfg, draws) <= Exponential(cfg.retryBase, |draws|) - cfg.retryBase
    ensures TotalDelay(cfg, draws) <= Times(|draws|, cfg.retryCap)
  {
    TotalDelayBounds(cfg, draws);
    TotalCeilingBounds(cfg, |draws|);
  }
}
