/** Retry delays of the worker: `_retry_defer` and the same formula in `_research_collection`
    (core/worker.py). Delays are seconds. */
module Backoff {
  import opened Common

  /** What reading arq's retry counter can give. */
  datatype Reading = Missing | Garbled | NoClient | Number(n: int)

  /** A counter that cannot be read counts as the first attempt. */
  function AttemptsSeen(r: Reading): int {
    match r
    case Number(n) => n
    case _ => 1
  }

  function Pow2(n: nat): nat { if n == 0 then 1 else 2 * Pow2(n - 1) }

  /** The delay before the attempt after `attempts`. */
  function Defer(attempts: int): int { Min(Pow2(Max(attempts - 1, 0)) * 5, 300) }

  lemma {:induction false} Pow2Monotone(a: nat, b: nat)
    requires a <= b
    ensures 1 <= Pow2(a) <= Pow2(b)
    decreases b
  {
    if a < b {
      Pow2Monotone(a, b - 1);
    } else if b > 0 {
      Pow2Monotone(a - 1, b - 1);
    }
  }

  /** The delay never shrinks from one attempt to a later one and stays within 5..300, whatever the
      counter says. */
  lemma DeferMonotone(a: int, b: int)
    requires a <= b
    ensures 5 <= Defer(a) <= Defer(b) <= 300
  {
    Pow2Monotone(Max(a - 1, 0), Max(b - 1, 0));
  }

  /** A counter that cannot be read gives the shortest delay; one that can gives 5 s, doubled for each
      attempt after the first, up to the cap. */
  lemma DeferByReading(r: Reading)
    ensures !r.Number? ==> Defer(AttemptsSeen(r)) == 5
    ensures r.Number? && r.n <= 1 ==> Defer(AttemptsSeen(r)) == 5
    ensures r.Number? && r.n > 1 ==> Defer(AttemptsSeen(r)) == Min(2 * Defer(r.n - 1), 300)
  {
  }

  /** The cap is reached from the seventh attempt on and not before. */
  lemma DeferCap(a: int)
    ensures Defer(a) == 300 <==> a >= 7
  {
    if a >= 7 {
      Pow2Monotone(6, a - 1);
      assert Pow2(6) == 64;
    } else {
      Pow2Monotone(Max(a - 1, 0), 5);
      assert Pow2(5) == 32;
    }
  }

  /** Sum of the delays after attempts 1..n. */
  function TotalDefer(n: nat): int { if n == 0 then 0 else TotalDefer(n - 1) + Defer(n) }

  /** Closed form of the total waiting time. */
  lemma {:induction false} TotalDeferClosed(n: nat)
    ensures TotalDefer(n) == if n <= 6 then 5 * (Pow2(n) - 1) else 315 + 300 * (n - 6)
  {
    if n > 0 {
      TotalDeferClosed(n - 1);
      DeferCap(n);
      if n <= 6 {
        Pow2Monotone(n - 1, 5);
        assert Pow2(5) == 32;
      } else if n == 7 {
        assert Pow2(6) == 64;
      }
    }
  }
}
