/** The fixed-window rate limiter: `rate_limit` in core/dependencies.py, one Redis key.

    A request executes INCR, then (only if it read 1) EXPIRE, as two separate Redis commands, so
    other requests run between them and a worker can die between them. The model is a transition
    system whose steps are those commands, the passing of time, and such a death. Redis expiry is
    lazy: a key whose deadline has come is absent for the next command. Times are milliseconds,
    as Redis keeps them. */
module RateLimiter {
  import opened Common

  type Request = nat

  /** One key. `count`/`deadline` are what Redis stores for the newest lifetime; `starts` (the
      instant each lifetime began) and `log` are history. */
  datatype Key = Key(now: int, count: nat, deadline: Option<int>, waiting: set<Request>,
                     starts: seq<int>, log: seq<Entry>)

  /** What one request was told: `count` as returned by INCR in lifetime `life`. */
  datatype Entry = Entry(request: Request, at: int, life: nat, count: nat)

  datatype Event =
    | Tick(ms: nat)
    | Incr(request: Request)
    | Expire(request: Request)
    | Die(request: Request)

  datatype Policy = Policy(limit: int, windowSeconds: int) {
    function WindowMs(): int { 1000 * windowSeconds }

    /** A request goes through unless its own count exceeds the limit */
    predicate Admits(e: Entry) { e.count <= limit }
  }

  function Unused(now: int): Key { Key(now, 0, None, {}, [], []) }

  /** The key is present for a command executed now. */
  predicate Live(k: Key) {
    |k.starts| > 0 && (k.deadline.None? || k.now < k.deadline.value)
  }

  /** One atomic step; a step that its request cannot take leaves the key alone. */
  function Step(p: Policy, k: Key, e: Event): Key {
    match e
    case Tick(ms) => k.(now := k.now + ms)
    case Incr(r) =>
      if Live(k) then
        k.(count := k.count + 1, log := k.log + [Entry(r, k.now, |k.starts| - 1, k.count + 1)])
      else
        k.(count := 1, deadline := None, waiting := k.waiting + {r}, starts := k.starts + [k.now],
           log := k.log + [Entry(r, k.now, |k.starts|, 1)])
    case Expire(r) =>
      if r !in k.waiting then k
      else if Live(k) then k.(deadline := Some(k.now + p.WindowMs()), waiting := k.waiting - {r})
      else k.(waiting := k.waiting - {r})
    case Die(r) => k.(waiting := k.waiting - {r})
  }

  function Run(p: Policy, k: Key, es: seq<Event>): Key {
    if es == [] then k else Step(p, Run(p, k, es[..|es| - 1]), es[|es| - 1])
  }

  // ---- Counting over the log ----

  function AcceptedInLife(p: Policy, log: seq<Entry>, life: nat): nat {
    if log == [] then 0
    else
      var e := log[|log| - 1];
      AcceptedInLife(p, log[..|log| - 1], life) + if e.life == life && p.Admits(e) then 1 else 0
  }

  /** How many requests counted in [from, to) were let through. */
  function AcceptedBetween(p: Policy, log: seq<Entry>, from: int, to: int): nat {
    if log == [] then 0
    else
      var e := log[|log| - 1];
      AcceptedBetween(p, log[..|log| - 1], from, to) + if from <= e.at < to && p.Admits(e) then 1 else 0
  }

  /** Requests of one lifetime that INCR told 1. */
  function FirstsInLife(log: seq<Entry>, life: nat): nat {
    if log == [] then 0
    else
      var e := log[|log| - 1];
      FirstsInLife(log[..|log| - 1], life) + if e.life == life && e.count == 1 then 1 else 0
  }

  // ---- The invariant of every run ----

  ghost predicate LogWellFormed(k: Key) {
    && (forall i :: 0 <= i < |k.log| ==>
          && k.log[i].life < |k.starts|
          && k.starts[k.log[i].life] <= k.log[i].at <= k.now
          && k.log[i].count >= 1)
    && (forall i :: 0 <= i < |k.log| && k.log[i].count == 1 ==> k.log[i].at == k.starts[k.log[i].life])
    // nothing of a lifetime is counted after the next one has begun
    && (forall i, g :: 0 <= i < |k.log| && k.log[i].life < g < |k.starts| ==> k.log[i].at <= k.starts[g])
  }

  ghost predicate LivesWellFormed(p: Policy, k: Key) {
    && (forall g :: 0 <= g < |k.starts| ==> k.starts[g] <= k.now)
    // a lifetime lasts at least one whole window
    && (forall g, h :: 0 <= g < h < |k.starts| ==> k.starts[g] + Max(0, p.WindowMs()) <= k.starts[h])
    && (k.deadline.Some? ==> |k.starts| > 0 && k.deadline.value >= k.starts[|k.starts| - 1] + p.WindowMs())
    && (|k.starts| == 0 ==> k.waiting == {} && k.deadline.None? && k.log == [])
  }

  /** Whoever still owes an EXPIRE owes it to the present lifetime, which cannot end before it. */
  ghost predicate ExpireOwed(k: Key) {
    && (k.waiting != {} ==> |k.starts| > 0 && k.deadline.None?)
    && (forall r, s :: r in k.waiting && s in k.waiting ==> r == s)
  }

  ghost predicate CountsExact(p: Policy, k: Key) {
    && (forall g: nat :: AcceptedInLife(p, k.log, g) <= Max(p.limit, 0))
    && (forall g: nat :: g >= |k.starts| ==> AcceptedInLife(p, k.log, g) == 0 && FirstsInLife(k.log, g) == 0)
    && (forall g: nat :: g < |k.starts| ==> FirstsInLife(k.log, g) == 1)
    && (|k.starts| > 0 ==>
          k.count >= 1 && AcceptedInLife(p, k.log, |k.starts| - 1) == Min(k.count, Max(p.limit, 0)))
  }

  ghost predicate Inv(p: Policy, k: Key) {
    LogWellFormed(k) && LivesWellFormed(p, k) && ExpireOwed(k) && CountsExact(p, k)
  }

  lemma IncrKeepsCounts(p: Policy, k: Key, r: Request)
    requires Inv(p, k)
    ensures CountsExact(p, Step(p, k, Incr(r)))
  {
    var k' := Step(p, k, Incr(r));
    assert k'.log[..|k'.log| - 1] == k.log;
    forall g: nat
      ensures AcceptedInLife(p, k'.log, g) <= Max(p.limit, 0)
      ensures g >= |k'.starts| ==> AcceptedInLife(p, k'.log, g) == 0 && FirstsInLife(k'.log, g) == 0
      ensures g < |k'.starts| ==> FirstsInLife(k'.log, g) == 1
    {
      assert AcceptedInLife(p, k.log, g) <= Max(p.limit, 0);
    }
  }

  lemma IncrKeepsLog(p: Policy, k: Key, r: Request)
    requires Inv(p, k)
    ensures LogWellFormed(Step(p, k, Incr(r)))
  {
    var k' := Step(p, k, Incr(r));
    forall i | 0 <= i < |k'.log|
      ensures k'.log[i].life < |k'.starts|
      ensures k'.starts[k'.log[i].life] <= k'.log[i].at <= k'.now
      ensures k'.log[i].count >= 1
      ensures k'.log[i].count == 1 ==> k'.log[i].at == k'.starts[k'.log[i].life]
      ensures forall g :: k'.log[i].life < g < |k'.starts| ==> k'.log[i].at <= k'.starts[g]
    {
      if i < |k.log| { assert k'.log[i] == k.log[i]; }
    }
  }

  lemma StepKeepsLives(p: Policy, k: Key, e: Event)
    requires Inv(p, k)
    ensures LivesWellFormed(p, Step(p, k, e)) && ExpireOwed(Step(p, k, e))
  {
  }

  lemma QuietKeepsLog(p: Policy, k: Key, e: Event)
    requires LogWellFormed(k) && !e.Incr?
    ensures LogWellFormed(Step(p, k, e))
  {
    assert Step(p, k, e).log == k.log && Step(p, k, e).starts == k.starts;
  }

  lemma QuietKeepsCounts(p: Policy, k: Key, e: Event)
    requires CountsExact(p, k) && !e.Incr?
    ensures CountsExact(p, Step(p, k, e))
  {
    assert Step(p, k, e).log == k.log && Step(p, k, e).starts == k.starts && Step(p, k, e).count == k.count;
  }

  lemma StepKeepsInv(p: Policy, k: Key, e: Event)
    requires Inv(p, k)
    ensures Inv(p, Step(p, k, e))
  {
    StepKeepsLives(p, k, e);
    if e.Incr? {
      IncrKeepsCounts(p, k, e.request);
      IncrKeepsLog(p, k, e.request);
    } else {
      QuietKeepsCounts(p, k, e);
      QuietKeepsLog(p, k, e);
    }
  }

  /** The invariant holds after every interleaving of commands, deaths and delays. */
  lemma {:induction false} RunKeepsInv(p: Policy, k: Key, es: seq<Event>)
    requires Inv(p, k)
    ensures Inv(p, Run(p, k, es))
  {
    if es != [] {
      RunKeepsInv(p, k, es[..|es| - 1]);
      StepKeepsInv(p, Run(p, k, es[..|es| - 1]), es[|es| - 1]);
    }
  }

  /** What the run's INCRs were, by request and time. */
  function Counted(p: Policy, k: Key, es: seq<Event>): seq<(Request, int)> {
    if es == [] then []
    else
      var e := es[|es| - 1];
      Counted(p, k, es[..|es| - 1]) + if e.Incr? then [(e.request, Run(p, k, es[..|es| - 1]).now)] else []
  }

  /** The log has one entry for each INCR, in order, under its request and time. */
  lemma {:induction false} LogIsComplete(p: Policy, t0: int, es: seq<Event>)
    ensures var log, counted := Run(p, Unused(t0), es).log, Counted(p, Unused(t0), es);
      |log| == |counted| && forall i :: 0 <= i < |log| ==> (log[i].request, log[i].at) == counted[i]
  {
    if es != [] { LogIsComplete(p, t0, es[..|es| - 1]); }
  }

  // ---- The sliding bound ----

  /** The newest lifetime that began before `from`, or -1. */
  function LastBefore(starts: seq<int>, from: int): (g: int)
    ensures -1 <= g < |starts|
    ensures g >= 0 ==> starts[g] < from
    ensures forall h :: g < h < |starts| ==> starts[h] >= from
  {
    if starts == [] || starts[|starts| - 1] < from then |starts| - 1
    else LastBefore(starts[..|starts| - 1], from)
  }

  /** Accepted requests of a lifetime other than the one that opened it. */
  function AcceptedLater(p: Policy, log: seq<Entry>, life: nat): nat {
    if log == [] then 0
    else
      var e := log[|log| - 1];
      AcceptedLater(p, log[..|log| - 1], life) + if e.life == life && e.count != 1 && p.Admits(e) then 1 else 0
  }

  lemma {:induction false} LaterAndFirst(p: Policy, log: seq<Entry>, life: nat)
    requires p.limit >= 1
    ensures AcceptedInLife(p, log, life) == AcceptedLater(p, log, life) + FirstsInLife(log, life)
  {
    if log != [] { LaterAndFirst(p, log[..|log| - 1], life); }
  }

  /** Accepted requests of the n lifetimes after g. */
  function AcceptedAfter(p: Policy, log: seq<Entry>, g: int, n: nat): nat
    requires -1 <= g
  {
    if n == 0 then 0 else AcceptedAfter(p, log, g, n - 1) + AcceptedInLife(p, log, g + n)
  }

  lemma {:induction false} AcceptedAfterLast(p: Policy, log: seq<Entry>, g: int, n: nat)
    requires -1 <= g && log != []
    ensures var e := log[|log| - 1];
      AcceptedAfter(p, log, g, n)
      == AcceptedAfter(p, log[..|log| - 1], g, n) + if g < e.life <= g + n && p.Admits(e) then 1 else 0
  {
    if n > 0 { AcceptedAfterLast(p, log, g, n - 1); }
  }

  /** Entries of [from, to) all lie in lifetimes g to g + n, without the request that opened g. */
  ghost predicate Straddles(log: seq<Entry>, from: int, to: int, g: int, n: nat) {
    forall i :: 0 <= i < |log| && from <= log[i].at < to ==>
      (log[i].life == g && log[i].count != 1) || g < log[i].life <= g + n
  }

  lemma {:induction false} CountStraddling(p: Policy, log: seq<Entry>, from: int, to: int, g: int, n: nat)
    requires -1 <= g && Straddles(log, from, to, g, n)
    ensures AcceptedBetween(p, log, from, to)
         <= (if g == -1 then 0 else AcceptedLater(p, log, g)) + AcceptedAfter(p, log, g, n)
  {
    if log != [] {
      var rest := log[..|log| - 1];
      assert log == rest + [log[|log| - 1]];
      assert Straddles(rest, from, to, g, n);
      CountStraddling(p, rest, from, to, g, n);
      AcceptedAfterLast(p, log, g, n);
    }
  }

  /** Lifetimes begin at least a window apart. */
  lemma {:induction false} StartsApart(p: Policy, k: Key, g: nat, n: nat)
    requires LivesWellFormed(p, k) && g + n < |k.starts|
    ensures k.starts[g + n] >= k.starts[g] + n * Max(0, p.WindowMs())
  {
    if n > 0 {
      StartsApart(p, k, g, n - 1);
      assert k.starts[g + n - 1] + Max(0, p.WindowMs()) <= k.starts[g + n];
    }
  }

  /** A lifetime that began before n windows had passed since `from` is among the first n after g. */
  lemma LivesOfSpan(p: Policy, k: Key, from: int, n: nat, g: int, life: nat)
    requires LivesWellFormed(p, k) && -1 <= g < life < |k.starts| && k.starts[g + 1] >= from
    requires k.starts[life] < from + n * p.WindowMs()
    ensures life <= g + n
  {
    var w := p.WindowMs();
    StartsApart(p, k, g + 1, life - g - 1);
    if life > g + n {
      Scaled(n, life - g - 1, w);
      assert false;
    }
  }

  lemma Scaled(n: nat, m: nat, w: int)
    requires n <= m
    ensures n * w <= m * Max(0, w)
  {
    assert n * w <= n * Max(0, w);
    assert m * Max(0, w) == n * Max(0, w) + (m - n) * Max(0, w);
  }

  /** An entry of the n windows from `from` on lies in one of the lifetimes g to g + n. */
  lemma LifeOfInterval(p: Policy, k: Key, from: int, n: nat, i: nat)
    requires LogWellFormed(k) && LivesWellFormed(p, k)
    requires i < |k.log| && from <= k.log[i].at < from + n * p.WindowMs()
    ensures LastBefore(k.starts, from) <= k.log[i].life <= LastBefore(k.starts, from) + n
  {
    var g := LastBefore(k.starts, from);
    if k.log[i].life > g { LivesOfSpan(p, k, from, n, g, k.log[i].life); }
  }

  lemma IntervalStraddles(p: Policy, k: Key, from: int, n: nat)
    requires Inv(p, k)
    ensures Straddles(k.log, from, from + n * p.WindowMs(), LastBefore(k.starts, from), n)
  {
    var g := LastBefore(k.starts, from);
    forall i | 0 <= i < |k.log| && from <= k.log[i].at < from + n * p.WindowMs()
      ensures (k.log[i].life == g && k.log[i].count != 1) || g < k.log[i].life <= g + n
    {
      LifeOfInterval(p, k, from, n, i);
    }
  }

  lemma LaterInLife(p: Policy, k: Key, life: nat)
    requires Inv(p, k) && life < |k.starts|
    ensures AcceptedLater(p, k.log, life) <= Max(0, p.limit - 1)
  {
    assert AcceptedInLife(p, k.log, life) <= Max(p.limit, 0);
    if p.limit >= 1 { LaterAndFirst(p, k.log, life); } else { NoneAccepted(p, k.log, life); }
  }

  lemma {:induction false} InLives(p: Policy, k: Key, g: int, n: nat)
    requires Inv(p, k) && -1 <= g
    ensures AcceptedAfter(p, k.log, g, n) <= n * Max(0, p.limit)
  {
    if n > 0 {
      InLives(p, k, g, n - 1);
      assert AcceptedInLife(p, k.log, g + n) <= Max(0, p.limit);
      assert n * Max(0, p.limit) == (n - 1) * Max(0, p.limit) + Max(0, p.limit);
    }
  }

  lemma IntervalBound(p: Policy, k: Key, from: int, n: nat, g: int)
    requires Inv(p, k) && g == LastBefore(k.starts, from)
    ensures AcceptedBetween(p, k.log, from, from + n * p.WindowMs()) <= Max(0, p.limit - 1) + n * Max(0, p.limit)
  {
    IntervalStraddles(p, k, from, n);
    CountStraddling(p, k.log, from, from + n * p.WindowMs(), g, n);
    InLives(p, k, g, n);
    if g >= 0 { LaterInLife(p, k, g); }
  }

  lemma BoundArithmetic(n: nat, limit: int)
    ensures Max(0, limit - 1) + n * Max(0, limit) == Max(0, (n + 1) * limit - 1)
  {
    if limit <= 0 { assert (n + 1) * limit <= 0; } else { assert (n + 1) * limit == n * limit + limit; }
  }

  lemma UnusedInv(p: Policy, t0: int)
    ensures Inv(p, Unused(t0))
  {
  }

  lemma WindowIs(p: Policy, n: nat)
    ensures n * p.WindowMs() == n * 1000 * p.windowSeconds
  {
  }

  /** SLIDING BOUND. Whatever the interleaving, no half-open interval as long as n windows holds more
      than (n + 1) * limit - 1 admitted requests of a key, so one window no more than 2 * limit - 1;
      none at all for a limit below 1. */
  lemma SlidingBound(p: Policy, t0: int, es: seq<Event>, from: int, n: nat)
    ensures AcceptedBetween(p, Run(p, Unused(t0), es).log, from, from + n * 1000 * p.windowSeconds)
         <= Max(0, (n + 1) * p.limit - 1)
  {
    WindowIs(p, n);
    UnusedInv(p, t0);
    RunKeepsInv(p, Unused(t0), es);
    IntervalBound(p, Run(p, Unused(t0), es), from, n, LastBefore(Run(p, Unused(t0), es).starts, from));
    BoundArithmetic(n, p.limit);
  }

  lemma {:induction false} NoneAccepted(p: Policy, log: seq<Entry>, life: nat)
    ensures AcceptedLater(p, log, life) <= AcceptedInLife(p, log, life)
  {
    if log != [] { NoneAccepted(p, log[..|log| - 1], life); }
  }

  // ---- The bound is attained ----

  function Burst(n: nat): seq<Event> {
    if n == 0 then [] else Burst(n - 1) + [Incr(n)]
  }

  lemma {:induction false} RunConcat(p: Policy, k: Key, es: seq<Event>, fs: seq<Event>)
    ensures Run(p, k, es + fs) == Run(p, Run(p, k, es), fs)
  {
    if fs == [] {
      assert es + fs == es;
    } else {
      assert (es + fs)[..|es + fs| - 1] == es + fs[..|fs| - 1];
      RunConcat(p, k, es, fs[..|fs| - 1]);
    }
  }

  lemma OneCounted(p: Policy, log: seq<Entry>, e: Entry, from: int, to: int)
    requires from <= e.at < to && p.Admits(e)
    ensures AcceptedBetween(p, log + [e], from, to) == AcceptedBetween(p, log, from, to) + 1
  {
    assert (log + [e])[..|log|] == log;
  }

  /** A burst against a present key whose counter has room is admitted whole. */
  lemma {:induction false} BurstAdmitted(p: Policy, k: Key, n: nat, from: int, to: int)
    requires Live(k) && k.count + n <= p.limit && from <= k.now < to
    ensures var k' := Run(p, k, Burst(n));
      k' == k.(count := k.count + n, log := k'.log)
      && AcceptedBetween(p, k'.log, from, to) == AcceptedBetween(p, k.log, from, to) + n
  {
    if n > 0 {
      assert Burst(n)[..|Burst(n)| - 1] == Burst(n - 1);
      BurstAdmitted(p, k, n - 1, from, to);
      var mid := Run(p, k, Burst(n - 1));
      var k' := Step(p, mid, Incr(n));
      assert k'.log[..|k'.log| - 1] == mid.log;
    }
  }

  /** A key is opened, and limit - 1 more requests come just before its window closes. */
  function Opening(p: Policy): seq<Event>
    requires p.limit >= 1 && p.windowSeconds >= 1
  {
    [Incr(0), Expire(0), Tick(p.WindowMs() - 1)] + Burst(p.limit - 1)
  }

  /** The window closes, `limit` requests come at once, and then none until just before it closes again. */
  function Round(p: Policy): seq<Event>
    requires p.limit >= 1 && p.windowSeconds >= 1
  {
    [Tick(1), Incr(0), Expire(0)] + Burst(p.limit - 1) + [Tick(p.WindowMs() - 1)]
  }

  function Rounds(p: Policy, n: nat): seq<Event>
    requires p.limit >= 1 && p.windowSeconds >= 1
  {
    if n == 0 then [] else Rounds(p, n - 1) + Round(p)
  }

  /** The key expires with the next millisecond. */
  predicate Closing(k: Key) { |k.starts| > 0 && k.waiting == {} && k.deadline == Some(k.now + 1) }

  /** The key that one request has opened at 0, just before its window closes. */
  function OpenedAtZero(p: Policy): Key {
    Key(p.WindowMs() - 1, 1, Some(p.WindowMs()), {}, [0], [Entry(0, 0, 0, 1)])
  }

  lemma Opens(p: Policy)
    requires p.limit >= 1 && p.windowSeconds >= 1
    ensures Run(p, Unused(0), [Incr(0), Expire(0), Tick(p.WindowMs() - 1)]) == OpenedAtZero(p)
  {
    var es := [Incr(0), Expire(0), Tick(p.WindowMs() - 1)];
    assert es[..2] == [Incr(0), Expire(0)] && es[..2][..1] == [Incr(0)] && [Incr(0)][..0] == [];
    assert Run(p, Unused(0), [Incr(0)]) == Key(0, 1, None, {0}, [0], [Entry(0, 0, 0, 1)]);
    assert Run(p, Unused(0), es[..2]) == Key(0, 1, Some(p.WindowMs()), {}, [0], [Entry(0, 0, 0, 1)]);
  }

  lemma FirstNotCounted(p: Policy, log: seq<Entry>, from: int, to: int)
    requires log == [Entry(0, 0, 0, 1)] && from > 0
    ensures AcceptedBetween(p, log, from, to) == 0
  {
    assert log[..0] == [];
  }

  lemma OpeningRuns(p: Policy)
    requires p.limit >= 1 && p.windowSeconds >= 1
    ensures Run(p, Unused(0), Opening(p)) == Run(p, OpenedAtZero(p), Burst(p.limit - 1))
  {
    Opens(p);
    RunConcat(p, Unused(0), [Incr(0), Expire(0), Tick(p.WindowMs() - 1)], Burst(p.limit - 1));
  }

  lemma OpeningAdmits(p: Policy, to: int)
    requires p.limit >= 1 && p.windowSeconds >= 1 && p.WindowMs() <= to
    ensures var k := Run(p, Unused(0), Opening(p));
      && Closing(k) && k.now == p.WindowMs() - 1
      && AcceptedBetween(p, k.log, p.WindowMs() - 1, to) == p.limit - 1
  {
    OpeningRuns(p);
    FirstNotCounted(p, OpenedAtZero(p).log, p.WindowMs() - 1, to);
    BurstAdmitted(p, OpenedAtZero(p), p.limit - 1, p.WindowMs() - 1, to);
  }

  lemma Reopens(p: Policy, k: Key)
    requires p.windowSeconds >= 1 && Closing(k)
    ensures Run(p, k, [Tick(1), Incr(0), Expire(0)])
         == Key(k.now + 1, 1, Some(k.now + 1 + p.WindowMs()), {}, k.starts + [k.now + 1],
                k.log + [Entry(0, k.now + 1, |k.starts|, 1)])
  {
    var es := [Tick(1), Incr(0), Expire(0)];
    assert es[..2] == [Tick(1), Incr(0)] && es[..2][..1] == [Tick(1)] && [Tick(1)][..0] == [];
    assert Run(p, k, [Tick(1)]) == k.(now := k.now + 1);
    assert Run(p, k, es[..2])
        == Key(k.now + 1, 1, None, {0}, k.starts + [k.now + 1], k.log + [Entry(0, k.now + 1, |k.starts|, 1)]);
  }

  lemma RoundRuns(p: Policy, k: Key)
    requires p.limit >= 1 && p.windowSeconds >= 1
    ensures Run(p, k, Round(p))
         == Step(p, Run(p, Run(p, k, [Tick(1), Incr(0), Expire(0)]), Burst(p.limit - 1)), Tick(p.WindowMs() - 1))
  {
    var head, last := [Tick(1), Incr(0), Expire(0)], [Tick(p.WindowMs() - 1)];
    RunConcat(p, k, head, Burst(p.limit - 1));
    RunConcat(p, k, head + Burst(p.limit - 1), last);
    assert last[..0] == [];
  }

  lemma RoundAdmits(p: Policy, k: Key, from: int, to: int)
    requires p.limit >= 1 && p.windowSeconds >= 1 && Closing(k) && from <= k.now && k.now + 1 < to
    ensures var k' := Run(p, k, Round(p));
      && Closing(k') && k'.now == k.now + p.WindowMs()
      && AcceptedBetween(p, k'.log, from, to) == AcceptedBetween(p, k.log, from, to) + p.limit
  {
    Reopens(p, k);
    OneCounted(p, k.log, Entry(0, k.now + 1, |k.starts|, 1), from, to);
    BurstAdmitted(p, Run(p, k, [Tick(1), Incr(0), Expire(0)]), p.limit - 1, from, to);
    RoundRuns(p, k);
  }

  lemma OneMore(n: nat, x: int)
    ensures (n + 1) * x == n * x + x
  {
  }

  lemma RoundsThenRound(p: Policy, k: Key, n: nat, from: int, to: int)
    requires p.limit >= 1 && p.windowSeconds >= 1
    requires Closing(Run(p, k, Rounds(p, n))) && from <= Run(p, k, Rounds(p, n)).now
    requires Run(p, k, Rounds(p, n)).now + 1 < to
    ensures var k1, k2 := Run(p, k, Rounds(p, n)), Run(p, k, Rounds(p, n + 1));
      && Closing(k2) && k2.now == k1.now + p.WindowMs()
      && AcceptedBetween(p, k2.log, from, to) == AcceptedBetween(p, k1.log, from, to) + p.limit
  {
    RoundAdmits(p, Run(p, k, Rounds(p, n)), from, to);
    RunConcat(p, k, Rounds(p, n), Round(p));
  }

  lemma {:induction false} RoundsAdmit(p: Policy, k: Key, n: nat, from: int, to: int)
    requires p.limit >= 1 && p.windowSeconds >= 1 && Closing(k)
    requires from <= k.now && k.now + n * p.WindowMs() <= to
    ensures var k' := Run(p, k, Rounds(p, n));
      && Closing(k') && k'.now == k.now + n * p.WindowMs()
      && AcceptedBetween(p, k'.log, from, to) == AcceptedBetween(p, k.log, from, to) + n * p.limit
  {
    if n > 0 {
      OneMore(n - 1, p.WindowMs());
      OneMore(n - 1, p.limit);
      RoundsAdmit(p, k, n - 1, from, to);
      assert (n - 1) * p.WindowMs() >= 0;
      RoundsThenRound(p, k, n - 1, from, to);
    }
  }

  lemma OpeningThenRounds(p: Policy, n: nat, to: int)
    requires p.limit >= 1 && p.windowSeconds >= 1
    requires p.WindowMs() <= to && p.WindowMs() - 1 + n * p.WindowMs() <= to
    ensures AcceptedBetween(p, Run(p, Unused(0), Opening(p) + Rounds(p, n)).log, p.WindowMs() - 1, to)
         == p.limit - 1 + n * p.limit
  {
    OpeningAdmits(p, to);
    RoundsAdmit(p, Run(p, Unused(0), Opening(p)), n, p.WindowMs() - 1, to);
    RunConcat(p, Unused(0), Opening(p), Rounds(p, n));
  }

  /** The bound of SlidingBound cannot be lowered, for any limit, any window and any number of them. */
  lemma SlidingBoundIsTight(p: Policy, n: nat)
    requires p.limit >= 1 && p.windowSeconds >= 1 && n >= 1
    ensures var from := 1000 * p.windowSeconds - 1;
      AcceptedBetween(p, Run(p, Unused(0), Opening(p) + Rounds(p, n)).log, from, from + n * 1000 * p.windowSeconds)
      == (n + 1) * p.limit - 1
  {
    WindowIs(p, n);
    OneMore(n - 1, p.WindowMs());
    assert (n - 1) * p.WindowMs() >= 0;
    OneMore(n, p.limit);
    OpeningThenRounds(p, n, p.WindowMs() - 1 + n * p.WindowMs());
  }

  // ---- Lifetimes ----

  /** Every lifetime has exactly one request that read 1, however commands interleave. */
  lemma OneOpenerPerLife(p: Policy, t0: int, es: seq<Event>, life: nat)
    ensures var k := Run(p, Unused(t0), es);
      FirstsInLife(k.log, life) == if life < |k.starts| then 1 else 0
  {
    UnusedInv(p, t0);
    RunKeepsInv(p, Unused(t0), es);
  }

  /** `r` opened the present lifetime: its INCR read 1 there. */
  predicate Opened(k: Key, r: Request) {
    |k.starts| > 0 && Entry(r, k.starts[|k.starts| - 1], |k.starts| - 1, 1) in k.log
  }

  lemma StepKeepsOpener(p: Policy, k: Key, e: Event, r: Request)
    requires LivesWellFormed(p, k) && ExpireOwed(k) && r in k.waiting && Opened(k, r)
    ensures Opened(Step(p, k, e), r)
  {
    assert Live(k);
  }

  lemma NewWaiterOpens(p: Policy, k: Key, e: Event, r: Request)
    requires r !in k.waiting && r in Step(p, k, e).waiting
    ensures Opened(Step(p, k, e), r)
  {
    var log := Step(p, k, e).log;
    assert log[|log| - 1] == Entry(r, k.now, |k.starts|, 1);
  }

  /** The one request still owing an EXPIRE is the opener of the present lifetime. */
  lemma {:induction false} WaitingIsOpener(p: Policy, t0: int, es: seq<Event>, r: Request)
    requires r in Run(p, Unused(t0), es).waiting
    ensures Opened(Run(p, Unused(t0), es), r)
  {
    if es != [] {
      var before := es[..|es| - 1];
      var k := Run(p, Unused(t0), before);
      if r in k.waiting {
        WaitingIsOpener(p, t0, before, r);
        UnusedInv(p, t0);
        RunKeepsInv(p, Unused(t0), before);
        StepKeepsOpener(p, k, es[|es| - 1], r);
      } else {
        NewWaiterOpens(p, k, es[|es| - 1], r);
      }
    }
  }

  /** The lifetime it is owed to is still there. */
  lemma OwedIsLive(p: Policy, t0: int, es: seq<Event>, r: Request)
    requires r in Run(p, Unused(t0), es).waiting
    ensures Live(Run(p, Unused(t0), es))
  {
    UnusedInv(p, t0);
    RunKeepsInv(p, Unused(t0), es);
    assert ExpireOwed(Run(p, Unused(t0), es));
  }

  /** An EXPIRE always reaches the lifetime whose INCR read 1 for the same request. */
  lemma ExpireHitsOwnLife(p: Policy, t0: int, es: seq<Event>, r: Request)
    requires r in Run(p, Unused(t0), es).waiting
    ensures var k := Run(p, Unused(t0), es);
      var k' := Step(p, k, Expire(r));
      && Opened(k, r) && k'.starts == k.starts && k'.deadline == Some(k.now + p.WindowMs())
  {
    WaitingIsOpener(p, t0, es, r);
    OwedIsLive(p, t0, es, r);
  }

  /** An entry's count is its rank among the admitted of its lifetime, capped at the limit. */
  ghost predicate Ranked(p: Policy, log: seq<Entry>, i: nat)
    requires i < |log|
  {
    AcceptedInLife(p, log[..i], log[i].life) == Min(log[i].count - 1, Max(p.limit, 0))
  }

  lemma NewestRanked(p: Policy, k: Key, r: Request)
    requires Inv(p, k)
    ensures Ranked(p, Step(p, k, Incr(r)).log, |k.log|)
  {
    assert Step(p, k, Incr(r)).log[..|k.log|] == k.log;
  }

  lemma {:induction false} AllRanked(p: Policy, k: Key, es: seq<Event>, i: nat)
    requires Inv(p, k) && k.log == []
    requires i < |Run(p, k, es).log|
    ensures Ranked(p, Run(p, k, es).log, i)
  {
    if es != [] {
      var before, e := es[..|es| - 1], es[|es| - 1];
      var earlier := Run(p, k, before).log;
      if i < |earlier| {
        AllRanked(p, k, before, i);
        assert Run(p, k, es).log[..i] == earlier[..i];
      } else {
        RunKeepsInv(p, k, before);
        NewestRanked(p, Run(p, k, before), e.request);
      }
    }
  }

  /** A request is refused exactly when `limit` others of its lifetime were admitted before it. */
  lemma RefusedOnlyWhenFull(p: Policy, t0: int, es: seq<Event>, i: nat)
    requires p.limit >= 0
    requires i < |Run(p, Unused(t0), es).log|
    ensures var log := Run(p, Unused(t0), es).log;
      !p.Admits(log[i]) <==> AcceptedInLife(p, log[..i], log[i].life) == p.limit
  {
    AllRanked(p, Unused(t0), es, i);
  }

  /** Once a deadline is set, no later request, admitted or refused, moves it within the lifetime. */
  lemma {:induction false} DeadlineNeverMoves(p: Policy, k: Key, es: seq<Event>)
    requires Inv(p, k) && k.deadline.Some?
    ensures var k' := Run(p, k, es);
      |k'.starts| >= |k.starts| && (|k'.starts| == |k.starts| ==> k'.deadline == k.deadline)
  {
    if es != [] {
      var before := es[..|es| - 1];
      DeadlineNeverMoves(p, k, before);
      RunKeepsInv(p, k, before);
    }
  }

  /** WINDOW. In any reachable key whose EXPIRE is still owed, the EXPIRE gives the lifetime exactly the
      window's seconds from then on, whatever follows within them. */
  lemma LivesForItsWindow(p: Policy, t0: int, past: seq<Event>, r: Request, es: seq<Event>)
    requires r in Run(p, Unused(t0), past).waiting
    ensures var k := Run(p, Unused(t0), past);
      var k' := Run(p, Step(p, k, Expire(r)), es);
      |k'.starts| == |k.starts| ==> (Live(k') <==> k'.now < k.now + 1000 * p.windowSeconds)
  {
    var k := Run(p, Unused(t0), past);
    ExpireHitsOwnLife(p, t0, past, r);
    UnusedInv(p, t0);
    RunKeepsInv(p, Unused(t0), past);
    StepKeepsInv(p, k, Expire(r));
    DeadlineNeverMoves(p, Step(p, k, Expire(r)), es);
    LifeHasBegun(p, k);
  }

  lemma LifeHasBegun(p: Policy, k: Key)
    requires Inv(p, k) && k.waiting != {}
    ensures |k.starts| > 0
  {
  }

  /** So the key is gone, for the next command, exactly when so many seconds have passed. */
  lemma GoneAfterWindow(p: Policy, t0: int, past: seq<Event>, r: Request, ms: nat)
    requires r in Run(p, Unused(t0), past).waiting
    ensures !Live(Step(p, Step(p, Run(p, Unused(t0), past), Expire(r)), Tick(ms))) <==> ms >= 1000 * p.windowSeconds
  {
    ExpireHitsOwnLife(p, t0, past, r);
    OwedIsLive(p, t0, past, r);
  }

  // ---- A death between INCR and EXPIRE ----

  /** Nobody is left to arm the expiry of a present key. */
  predicate Orphaned(k: Key) { Live(k) && k.deadline.None? && k.waiting == {} }

  lemma {:induction false} OrphanedForever(p: Policy, k: Key, es: seq<Event>)
    requires Orphaned(k)
    ensures Orphaned(Run(p, k, es)) && Run(p, k, es).starts == k.starts
  {
    if es != [] { OrphanedForever(p, k, es[..|es| - 1]); }
  }

  ghost predicate Recovers(p: Policy, k: Key) {
    exists es: seq<Event> :: !Live(Run(p, k, es))
  }

  /** Exactly when a key can ever disappear again: its expiry is armed, or its opener still will. */
  lemma RecoversIff(p: Policy, k: Key)
    requires Inv(p, k) && Live(k)
    ensures Recovers(p, k) <==> k.deadline.Some? || k.waiting != {}
  {
    if k.deadline.Some? {
      var ms: nat := k.deadline.value - k.now;
      assert [Tick(ms)][..0] == [];
      assert !Live(Run(p, k, [Tick(ms)]));
    } else if k.waiting != {} {
      var r :| r in k.waiting;
      var es := [Expire(r), Tick(Max(0, p.WindowMs()))];
      assert es[..1] == [Expire(r)] && [Expire(r)][..0] == [];
      assert Run(p, k, [Expire(r)]) == Step(p, k, Expire(r));
      assert Run(p, k, es) == Step(p, Run(p, k, [Expire(r)]), es[1]);
      assert !Live(Run(p, k, es));
    } else {
      forall es: seq<Event> ensures Live(Run(p, k, es)) { OrphanedForever(p, k, es); }
    }
  }

  /** How many entries were let through. */
  function Admitted(p: Policy, log: seq<Entry>): nat {
    if log == [] then 0 else Admitted(p, log[..|log| - 1]) + if p.Admits(log[|log| - 1]) then 1 else 0
  }

  /** Requests that find an orphaned key are told the numbers from where it stands. */
  lemma {:induction false} OrphanCounts(p: Policy, k: Key, es: seq<Event>)
    requires Orphaned(k)
    ensures var k' := Run(p, k, es);
      && k.log <= k'.log && k'.count == k.count + |k'.log| - |k.log|
      && (forall i :: |k.log| <= i < |k'.log| ==> k'.log[i].count == k.count + 1 + i - |k.log|)
  {
    if es != [] {
      OrphanCounts(p, k, es[..|es| - 1]);
      OrphanedForever(p, k, es[..|es| - 1]);
    }
  }

  /** What they use up of the limit is what its count uses up. */
  lemma {:induction false} OrphanAdmits(p: Policy, k: Key, es: seq<Event>)
    requires Orphaned(k)
    ensures var k' := Run(p, k, es);
      && k.log <= k'.log
      && Admitted(p, k'.log[|k.log|..]) + Min(k.count, Max(p.limit, 0)) == Min(k'.count, Max(p.limit, 0))
  {
    if es != [] {
      var before, e := es[..|es| - 1], es[|es| - 1];
      OrphanAdmits(p, k, before);
      OrphanCounts(p, k, before);
      OrphanedForever(p, k, before);
      if e.Incr? {
        var later := Run(p, k, es).log[|k.log|..];
        assert later[..|later| - 1] == Run(p, k, before).log[|k.log|..];
      }
    }
  }

  lemma DeathOrphans(p: Policy, k: Key, r: Request)
    requires Inv(p, k) && r in k.waiting
    ensures Orphaned(Step(p, k, Die(r)))
  {
    assert Step(p, k, Die(r)).waiting == {};
  }

  lemma LifeCount(p: Policy, k: Key)
    requires Inv(p, k) && |k.starts| > 0
    ensures AcceptedInLife(p, k.log, |k.starts| - 1) == Min(k.count, Max(p.limit, 0))
  {
  }

  /** An orphaned key `k` and the same key after some more commands: it has admitted what was left of
      `limit`, and nobody beyond. */
  ghost predicate LockedOut(p: Policy, k: Key, k': Key) {
    && Live(k') && k'.starts == k.starts && |k.starts| > 0
    && k.log <= k'.log && k'.count == k.count + |k'.log| - |k.log|
    && Admitted(p, k'.log[|k.log|..]) + Min(k.count, Max(p.limit, 0)) == Min(k'.count, Max(p.limit, 0))
    && AcceptedInLife(p, k'.log, |k.starts| - 1) == Min(k'.count, Max(p.limit, 0))
  }

  lemma OrphanLocksOut(p: Policy, k: Key, es: seq<Event>)
    requires Orphaned(k) && Inv(p, Run(p, k, es))
    ensures LockedOut(p, k, Run(p, k, es))
  {
    OrphanedForever(p, k, es);
    LifeCount(p, Run(p, k, es));
    OrphanCounts(p, k, es);
    OrphanAdmits(p, k, es);
  }

  /** LOCK-OUT. Whenever the request that owes the EXPIRE dies, in whichever lifetime and however many
      requests after its INCR, that lifetime never ends: it admits what is left of `limit` and from
      then on nobody. */
  lemma DeathLocksOut(p: Policy, t0: int, past: seq<Event>, r: Request, es: seq<Event>)
    requires r in Run(p, Unused(t0), past).waiting
    ensures var k := Step(p, Run(p, Unused(t0), past), Die(r));
      Orphaned(k) && LockedOut(p, k, Run(p, k, es))
  {
    UnusedInv(p, t0);
    RunKeepsInv(p, Unused(t0), past);
    DeathOrphans(p, Run(p, Unused(t0), past), r);
    StepKeepsInv(p, Run(p, Unused(t0), past), Die(r));
    RunKeepsInv(p, Step(p, Run(p, Unused(t0), past), Die(r)), es);
    OrphanLocksOut(p, Step(p, Run(p, Unused(t0), past), Die(r)), es);
  }

  // ---- The stateful side: what the Redis key and the dependency do ----

  datatype Verdict = Passed | TooManyRequests

  class LimiterKey {
    const policy: Policy
    var now: int
    var present: bool
    var count: nat
    var deadline: Option<int>
    var waiting: set<Request>
    ghost var starts: seq<int>
    ghost var log: seq<Entry>

    ghost predicate Valid() reads this { present <==> |starts| > 0 }

    ghost function State(): Key reads this { Key(now, count, deadline, waiting, starts, log) }

    constructor (policy: Policy, now: int)
      ensures Valid() && State() == Unused(now) && this.policy == policy
    {
      this.policy, this.now, present, count, deadline := policy, now, false, 0, None;
      waiting, starts, log := {}, [], [];
    }

    method Pass(ms: nat)
      requires Valid()
      modifies this
      ensures Valid() && State() == Step(policy, old(State()), Tick(ms))
    {
      now := now + ms;
    }

    /** Redis INCR on the key: an absent or expired key restarts at 1 without a deadline. */
    method Increment(r: Request) returns (n: nat)
      requires Valid()
      modifies this
      ensures Valid() && State() == Step(policy, old(State()), Incr(r)) && n == count
    {
      if present && (deadline.None? || now < deadline.value) {
        count := count + 1;
        log := log + [Entry(r, now, |starts| - 1, count)];
      } else {
        present, count, deadline, waiting := true, 1, None, waiting + {r};
        log := log + [Entry(r, now, |starts|, 1)];
        starts := starts + [now];
      }
      n := count;
    }

    method ExpireCommand(r: Request)
      requires Valid()
      modifies this
      ensures Valid() && State() == Step(policy, old(State()), Expire(r))
    {
      if r in waiting {
        if present && (deadline.None? || now < deadline.value) {
          deadline := Some(now + policy.WindowMs());
        }
        waiting := waiting - {r};
      }
    }

    /** The dependency, run without interruption for a new request; others may still owe an EXPIRE. In the
        test environment it does nothing. */
    method Check(r: Request, testEnvironment: bool) returns (v: Verdict)
      requires Valid() && r !in waiting
      modifies this
      ensures Valid() && waiting == old(waiting)
      ensures testEnvironment ==> v == Passed && State() == old(State())
      ensures !testEnvironment ==>
        && State() == Run(policy, old(State()), [Incr(r), Expire(r)])
        && |log| == |old(log)| + 1
        && (v == Passed <==> policy.Admits(log[|old(log)|]))
    {
      if testEnvironment { return Passed; }
      ghost var before := State();
      var n := Increment(r);
      ghost var counted := State();
      if n == 1 { ExpireCommand(r); }
      v := if n > policy.limit then TooManyRequests else Passed;
      assert State() == Step(policy, counted, Expire(r));
      assert [Incr(r), Expire(r)][..1] == [Incr(r)] && [Incr(r)][..0] == [];
      assert Run(policy, before, [Incr(r)]) == counted;
    }

    method Play(es: seq<Event>)
      requires Valid()
      modifies this
      ensures Valid() && State() == Run(policy, old(State()), es)
    {
      for i := 0 to |es|
        invariant Valid() && State() == Run(policy, old(State()), es[..i])
      {
        assert es[..i + 1][..i] == es[..i];
        match es[i] {
          case Tick(ms) => Pass(ms);
          case Incr(r) => var _ := Increment(r);
          case Expire(r) => ExpireCommand(r);
          case Die(r) => waiting := waiting - {r};
        }
      }
      assert es[..|es|] == es;
    }
  }

  // ---- Many keys: one per client address and path ----

  datatype Store = Store(now: int, keys: map<string, Key>)

  datatype Command = Wait(ms: nat) | At(key: string, event: Event)

  function View(s: Store, name: string): Key {
    if name in s.keys then s.keys[name] else Unused(s.now)
  }

  function Apply(p: Policy, s: Store, c: Command): Store {
    match c
    case Wait(ms) => Store(s.now + ms, map name | name in s.keys :: Step(p, s.keys[name], Tick(ms)))
    case At(name, e) => if e.Tick? then s else s.(keys := s.keys[name := Step(p, View(s, name), e)])
  }

  function ApplyAll(p: Policy, s: Store, cs: seq<Command>): Store {
    if cs == [] then s else Apply(p, ApplyAll(p, s, cs[..|cs| - 1]), cs[|cs| - 1])
  }

  /** What one key sees of a run over the whole store. */
  function Seen(cs: seq<Command>, name: string): seq<Event> {
    if cs == [] then []
    else
      Seen(cs[..|cs| - 1], name) +
      match cs[|cs| - 1]
      case Wait(ms) => [Tick(ms)]
      case At(other, e) => if other == name && !e.Tick? then [e] else []
  }

  /** ISOLATION. A key's state depends on its own commands and the clock alone. */
  lemma {:induction false} KeysAreIndependent(p: Policy, t0: int, cs: seq<Command>, name: string)
    ensures View(ApplyAll(p, Store(t0, map[]), cs), name) == Run(p, Unused(t0), Seen(cs, name))
  {
    if cs != [] {
      var before := cs[..|cs| - 1];
      KeysAreIndependent(p, t0, before, name);
      var own := Seen(cs, name)[|Seen(before, name)|..];
      assert Seen(cs, name) == Seen(before, name) + own;
      if own == [] {
        assert Seen(cs, name) == Seen(before, name);
      } else {
        assert Seen(cs, name)[..|Seen(cs, name)| - 1] == Seen(before, name);
      }
    }
  }

  function KeyName(ip: string, path: string): string { "ratelimit:" + ip + ":" + path }

  /** The first '/' past the fixed prefix ends the address. */
  lemma FirstSlash(ip: string, path: string)
    requires '/' !in ip && |path| > 0 && path[0] == '/'
    ensures var name := KeyName(ip, path);
      && |name| == 11 + |ip| + |path| && name[11 + |ip|] == '/'
      && (forall i :: 10 <= i < 11 + |ip| ==> name[i] != '/')
      && name[10..10 + |ip|] == ip && name[11 + |ip|..] == path
  {
    var name := KeyName(ip, path);
    assert forall i :: 10 <= i < 10 + |ip| ==> name[i] == ip[i - 10];
  }

  /** Two requests share a key only if both address and path agree: an address (or the literal
      "unknown") holds no '/', and a path starts with one. */
  lemma KeyNameInjective(ip1: string, path1: string, ip2: string, path2: string)
    requires '/' !in ip1 && '/' !in ip2
    requires |path1| > 0 && path1[0] == '/' && |path2| > 0 && path2[0] == '/'
    ensures KeyName(ip1, path1) == KeyName(ip2, path2) <==> ip1 == ip2 && path1 == path2
  {
    FirstSlash(ip1, path1);
    FirstSlash(ip2, path2);
  }
}
