/** The per-connection Meta sync lock: `_run_meta_sync`, `_release_meta_lock` and the job limits in
    core/worker.py, as a timed transition system over any number of jobs and connections.

    A job is started by arq, which stops the body when the job's time is up. The lock is one Redis
    entry per connection, written by SET NX PX and deleted by a script that compares tokens. Redis
    commands are atomic, tokens are fresh, and an entry is absent from the instant its TTL is over.
    Times are milliseconds. */
module MetaSyncLock {
  import opened Common
  import opened Backoff

  type JobId = nat
  type Connection = nat
  type Token = nat

  /** `ttl` and `timeout` are the source's constants; `lag` is how much later than its deadline a
      body may still be running before its cancellation takes effect. */
  datatype Config = Config(ttl: nat, timeout: nat, lag: nat, maxTries: nat)

  const LOCK_TTL_MS: nat := 1800_000
  const JOB_TIMEOUT_S: nat := 1800
  const MAX_TRIES: nat := 4

  function Deployed(lag: nat): Config { Config(LOCK_TTL_MS, 1000 * JOB_TIMEOUT_S, lag, MAX_TRIES) }

  datatype Lock = Lock(token: Token, setAt: int)

  datatype Outcome = Synced | AuthRejected | Retry(seconds: int) | Failed | CutOff

  datatype Phase =
    | Waiting(readyAt: int)      // enqueued, or deferred until then
    | Started                    // body running, lock not yet asked for
    | Syncing                    // inside run_sync
    | Marking                    // auth rejected: flagging the connection
    | Releasing(outcome: Outcome) // in the finally block
    | Over(outcome: Outcome)
    | Skipped
    | Crashed
    | Exhausted                  // arq gave up before running the body

  datatype Job = Job(connection: Connection, phase: Phase, tries: nat, startedAt: int, token: Token)

  datatype World = World(now: int, locks: map<Connection, Lock>, jobs: map<JobId, Job>,
                         issued: nat, reconnect: set<Connection>)

  function Boot(): World { World(0, map[], map[], 0, {}) }

  datatype Event =
    | Tick(ms: nat)
    | Enqueue(job: JobId, connection: Connection)
    | Start(job: JobId)
    | TryLock(job: JobId)
    | SyncReturns(job: JobId)
    | SyncAuthError(job: JobId)
    | Mark(job: JobId, found: bool)   // is there a Meta connection of that id to flag?
    | SyncTransient(job: JobId, reading: Reading)
    | SyncOtherError(job: JobId)
    | Cancel(job: JobId)
    | Release(job: JobId)
    | ReleaseFails(job: JobId)
    | Crash(job: JobId)
    | Requeue(job: JobId)

  // ---- The transition system ----

  predicate Held(c: Config, w: World, k: Connection) {
    k in w.locks && w.now < w.locks[k].setAt + c.ttl
  }

  /** The body of a job can still take steps. */
  predicate OnTime(c: Config, w: World, j: Job) { w.now < j.startedAt + c.timeout + c.lag }

  predicate InPhase(w: World, j: JobId, p: Phase) { j in w.jobs && w.jobs[j].phase == p }

  function Put(w: World, j: JobId, p: Phase): World
    requires j in w.jobs
  {
    w.(jobs := w.jobs[j := w.jobs[j].(phase := p)])
  }

  /** Where a job goes once its finally block is through. */
  function AfterRelease(now: int, o: Outcome): Phase {
    if o.Retry? then Waiting(now + 1000 * o.seconds) else Over(o)
  }

  predicate Enabled(c: Config, w: World, e: Event) {
    match e
    case Tick(_) => true
    case Enqueue(j, _) => j !in w.jobs
    case Start(j) => j in w.jobs && w.jobs[j].phase.Waiting? && w.jobs[j].phase.readyAt <= w.now
    case TryLock(j) => InPhase(w, j, Started) && OnTime(c, w, w.jobs[j])
    case SyncReturns(j) => InPhase(w, j, Syncing) && OnTime(c, w, w.jobs[j])
    case SyncAuthError(j) => InPhase(w, j, Syncing) && OnTime(c, w, w.jobs[j])
    case Mark(j, _) => InPhase(w, j, Marking) && OnTime(c, w, w.jobs[j])
    case SyncTransient(j, _) => InPhase(w, j, Syncing) && OnTime(c, w, w.jobs[j])
    case SyncOtherError(j) => InPhase(w, j, Syncing) && OnTime(c, w, w.jobs[j])
    case Cancel(j) =>
      && (InPhase(w, j, Started) || InPhase(w, j, Syncing) || InPhase(w, j, Marking))
      && w.jobs[j].startedAt + c.timeout <= w.now
    case Release(j) => j in w.jobs && w.jobs[j].phase.Releasing?
    case ReleaseFails(j) => j in w.jobs && w.jobs[j].phase.Releasing?
    case Crash(j) =>
      j in w.jobs && HasToken(w.jobs[j].phase)
    case Requeue(j) => InPhase(w, j, Crashed) || InPhase(w, j, Over(CutOff))
  }

  function Effect(c: Config, w: World, e: Event): World
    requires Enabled(c, w, e)
  {
    match e
    case Tick(ms) => w.(now := w.now + ms)
    case Enqueue(j, k) => w.(jobs := w.jobs[j := Job(k, Waiting(w.now), 0, w.now, 0)])
    case Start(j) =>
      // arq counts the start first and refuses to run past max_tries
      if w.jobs[j].tries >= c.maxTries then Put(w, j, Exhausted)
      else
        w.(jobs := w.jobs[j := Job(w.jobs[j].connection, Started, w.jobs[j].tries + 1, w.now, w.issued)],
           issued := w.issued + 1)
    case TryLock(j) =>
      if Held(c, w, w.jobs[j].connection) then Put(w, j, Skipped)
      else Put(w, j, Syncing).(locks := w.locks[w.jobs[j].connection := Lock(w.jobs[j].token, w.now)])
    case SyncReturns(j) => Put(w, j, Releasing(Synced))
    case SyncAuthError(j) => Put(w, j, Marking)
    case Mark(j, found) =>
      Put(w, j, Releasing(AuthRejected)).(reconnect :=
        if found then w.reconnect + {w.jobs[j].connection} else w.reconnect)
    case SyncTransient(j, r) => Put(w, j, Releasing(Retry(Defer(AttemptsSeen(r)))))
    case SyncOtherError(j) => Put(w, j, Releasing(Failed))
    case Cancel(j) => Put(w, j, if w.jobs[j].phase.Started? then Over(CutOff) else Releasing(CutOff))
    case Release(j) =>
      var k := w.jobs[j].connection;
      var w' := Put(w, j, AfterRelease(w.now, w.jobs[j].phase.outcome));
      if Held(c, w, k) && w.locks[k].token == w.jobs[j].token then w'.(locks := w.locks - {k}) else w'
    case ReleaseFails(j) => Put(w, j, AfterRelease(w.now, w.jobs[j].phase.outcome))
    case Crash(j) => Put(w, j, Crashed)
    case Requeue(j) => Put(w, j, Waiting(w.now))
  }

  function Step(c: Config, w: World, e: Event): World {
    if Enabled(c, w, e) then Effect(c, w, e) else w
  }

  function Run(c: Config, w: World, es: seq<Event>): World {
    if es == [] then w else Step(c, Run(c, w, es[..|es| - 1]), es[|es| - 1])
  }

  // ---- Mutual exclusion ----

  /** The job is in its critical section and its time is not up. */
  predicate Inside(c: Config, w: World, j: JobId) {
    j in w.jobs && Critical(w.jobs[j].phase) && OnTime(c, w, w.jobs[j])
  }

  ghost predicate Exclusive(c: Config, w: World) {
    forall i, j :: Inside(c, w, i) && Inside(c, w, j) && w.jobs[i].connection == w.jobs[j].connection ==> i == j
  }

  /** Jobs that drew a token and may still use it. */
  predicate HasToken(p: Phase) { p.Started? || Critical(p) || p.Releasing? }

  predicate Critical(p: Phase) { p.Syncing? || p.Marking? }

  ghost predicate TokensIssued(w: World) {
    && (forall j :: j in w.jobs && HasToken(w.jobs[j].phase) ==> w.jobs[j].token < w.issued)
    && (forall k :: k in w.locks ==> w.locks[k].token < w.issued && w.locks[k].setAt <= w.now)
    && (forall j :: j in w.jobs ==> w.jobs[j].startedAt <= w.now)
  }

  ghost predicate TokensDistinct(w: World) {
    forall i, j :: i in w.jobs && j in w.jobs && HasToken(w.jobs[i].phase) && HasToken(w.jobs[j].phase) && i != j ==>
      w.jobs[i].token != w.jobs[j].token
  }

  /** A token in use is used on the connection of the job that drew it. */
  ghost predicate TokensOnOwnConnection(w: World) {
    forall j, k :: j in w.jobs && k in w.locks && HasToken(w.jobs[j].phase) && w.locks[k].token == w.jobs[j].token ==>
      w.jobs[j].connection == k
  }

  /** Every job inside owns its connection's entry, which it wrote after its own clock started. */
  ghost predicate InsideOwns(c: Config, w: World) {
    forall j :: Inside(c, w, j) ==>
      && w.jobs[j].connection in w.locks
      && w.locks[w.jobs[j].connection].token == w.jobs[j].token
      && w.locks[w.jobs[j].connection].setAt >= w.jobs[j].startedAt
  }

  ghost predicate Inv(c: Config, w: World) {
    && TokensIssued(w) && TokensDistinct(w) && TokensOnOwnConnection(w)
    && (c.ttl >= c.timeout + c.lag ==> InsideOwns(c, w))
  }

  /** The job an event is about. */
  function Actor(e: Event): Option<JobId> {
    if e.Tick? then None else Some(e.job)
  }

  /** A step changes at most one job; its token changes only when it is started. */
  lemma StepTouchesOne(c: Config, w: World, e: Event, i: JobId)
    ensures var w' := Step(c, w, e);
      && (Actor(e) != Some(i) ==> (i in w'.jobs <==> i in w.jobs) && (i in w.jobs ==> w'.jobs[i] == w.jobs[i]))
      && (i in w.jobs ==> i in w'.jobs && w'.jobs[i].connection == w.jobs[i].connection)
      && (i in w'.jobs && HasToken(w'.jobs[i].phase) ==>
            || (i in w.jobs && HasToken(w.jobs[i].phase) && w'.jobs[i].token == w.jobs[i].token
                && w'.jobs[i].startedAt == w.jobs[i].startedAt)
            || (e == Start(i) && w'.jobs[i].token == w.issued && w'.issued == w.issued + 1))
      && w.issued <= w'.issued
  {
  }

  lemma StepKeepsDistinct(c: Config, w: World, e: Event)
    requires TokensIssued(w) && TokensDistinct(w)
    ensures TokensDistinct(Step(c, w, e))
  {
    var w' := Step(c, w, e);
    forall i, j | i in w'.jobs && j in w'.jobs && HasToken(w'.jobs[i].phase) && HasToken(w'.jobs[j].phase) && i != j
      ensures w'.jobs[i].token != w'.jobs[j].token
    {
      StepTouchesOne(c, w, e, i);
      StepTouchesOne(c, w, e, j);
    }
  }

  lemma StepKeepsIssued(c: Config, w: World, e: Event)
    requires TokensIssued(w)
    ensures TokensIssued(Step(c, w, e))
  {
    var w' := Step(c, w, e);
    forall j | j in w'.jobs && HasToken(w'.jobs[j].phase) ensures w'.jobs[j].token < w'.issued {
      StepTouchesOne(c, w, e, j);
    }
  }

  /** What a step does to the lock entries. */
  lemma StepOnLocks(c: Config, w: World, e: Event, k: Connection)
    requires k in Step(c, w, e).locks
    ensures var w' := Step(c, w, e);
      || (k in w.locks && w'.locks[k] == w.locks[k])
      || (e.TryLock? && e.job in w.jobs && w.jobs[e.job].connection == k && !Held(c, w, k)
          && w'.locks[k] == Lock(w.jobs[e.job].token, w.now))
  {
  }

  lemma StepKeepsConnections(c: Config, w: World, e: Event)
    requires TokensIssued(w) && TokensDistinct(w) && TokensOnOwnConnection(w)
    ensures TokensOnOwnConnection(Step(c, w, e))
  {
    var w' := Step(c, w, e);
    forall j, k | j in w'.jobs && k in w'.locks && HasToken(w'.jobs[j].phase) && w'.locks[k].token == w'.jobs[j].token
      ensures w'.jobs[j].connection == k
    {
      StepTouchesOne(c, w, e, j);
      StepOnLocks(c, w, e, k);
    }
  }

  lemma WasInside(c: Config, w: World, e: Event, j: JobId)
    requires e != TryLock(j) && Inside(c, Step(c, w, e), j)
    ensures Inside(c, w, j)
  {
  }

  lemma StepKeepsOwner(c: Config, w: World, e: Event, j: JobId)
    requires TokensIssued(w) && TokensDistinct(w) && InsideOwns(c, w) && c.ttl >= c.timeout + c.lag
    requires Inside(c, Step(c, w, e), j)
    ensures var w' := Step(c, w, e);
      && w'.jobs[j].connection in w'.locks
      && w'.locks[w'.jobs[j].connection].token == w'.jobs[j].token
      && w'.locks[w'.jobs[j].connection].setAt >= w'.jobs[j].startedAt
  {
    StepTouchesOne(c, w, e, j);
    if e != TryLock(j) {
      WasInside(c, w, e, j);
    }
  }

  lemma StepKeepsInv(c: Config, w: World, e: Event)
    requires Inv(c, w)
    ensures Inv(c, Step(c, w, e))
  {
    StepKeepsIssued(c, w, e);
    StepKeepsDistinct(c, w, e);
    StepKeepsConnections(c, w, e);
    if c.ttl >= c.timeout + c.lag {
      forall j | Inside(c, Step(c, w, e), j)
        ensures var w' := Step(c, w, e);
          && w'.jobs[j].connection in w'.locks
          && w'.locks[w'.jobs[j].connection].token == w'.jobs[j].token
          && w'.locks[w'.jobs[j].connection].setAt >= w'.jobs[j].startedAt
      {
        StepKeepsOwner(c, w, e, j);
      }
    }
  }

  lemma {:induction false} RunKeepsInv(c: Config, w: World, es: seq<Event>)
    requires Inv(c, w)
    ensures Inv(c, Run(c, w, es))
  {
    if es != [] {
      var before := es[..|es| - 1];
      RunKeepsInv(c, w, before);
      StepKeepsInv(c, Run(c, w, before), es[|es| - 1]);
    }
  }

  ghost predicate AlwaysExclusive(c: Config) {
    forall es: seq<Event> :: Exclusive(c, Run(c, Boot(), es))
  }

  /** Two jobs on one connection: the second starts when the first one's entry runs out. */
  lemma Overlap(c: Config)
    requires c.ttl < c.timeout + c.lag && c.maxTries > 0
    ensures !AlwaysExclusive(c)
  {
    var s1, w1 := Extend(c, [], Enqueue(0, 0));
    var s2, w2 := Extend(c, s1, Enqueue(1, 0));
    var s3, w3 := Extend(c, s2, Start(0));
    assert w3.jobs[0] == Job(0, Started, 1, 0, 0);
    var s4, w4 := Extend(c, s3, TryLock(0));
    assert w4.locks == map[0 := Lock(0, 0)];
    var s5, w5 := Extend(c, s4, Tick(c.ttl));
    var s6, w6 := Extend(c, s5, Start(1));
    assert w6.jobs[1] == Job(0, Started, 1, c.ttl, 1);
    var s7, w7 := Extend(c, s6, TryLock(1));
    assert Inside(c, w7, 0) && Inside(c, w7, 1);
    assert !Exclusive(c, Run(c, Boot(), s7));
  }

  /** One more event at the end of a run. */
  lemma Extend(c: Config, es: seq<Event>, e: Event) returns (es': seq<Event>, w: World)
    ensures es' == es + [e] && w == Run(c, Boot(), es') == Step(c, Run(c, Boot(), es), e)
  {
    es' := es + [e];
    w := Run(c, Boot(), es');
    assert es'[..|es|] == es;
  }

  /** MUTUAL EXCLUSION holds over every run exactly when the TTL covers the whole time a body may
      run, cancellation delay included. */
  lemma MutualExclusionIff(c: Config)
    requires c.maxTries > 0
    ensures AlwaysExclusive(c) <==> c.ttl >= c.timeout + c.lag
  {
    if c.ttl >= c.timeout + c.lag {
      forall es: seq<Event> ensures Exclusive(c, Run(c, Boot(), es)) {
        RunKeepsInv(c, Boot(), es);
      }
    } else {
      Overlap(c);
    }
  }

  /** The deployed TTL equals the job timeout, so there is no slack: one millisecond of delay in
      stopping a timed-out body already lets two syncs of a connection overlap. */
  lemma DeployedExclusion(lag: nat)
    ensures AlwaysExclusive(Deployed(lag)) <==> lag == 0
    ensures Deployed(lag).ttl == Deployed(lag).timeout == 30 * 60 * 1000 && Deployed(lag).maxTries == 4
  {
    MutualExclusionIff(Deployed(lag));
  }

  // ---- Who removes a lock entry ----

  predicate ReleasesToken(w: World, e: Event, t: Token) {
    e.Release? && e.job in w.jobs && w.jobs[e.job].phase.Releasing? && w.jobs[e.job].token == t
  }

  /** Some Release of the run is by the job that drew `t`. */
  predicate ReleasedByOwner(c: Config, w: World, es: seq<Event>, t: Token) {
    es != [] &&
    (ReleasedByOwner(c, w, es[..|es| - 1], t) || ReleasesToken(Run(c, w, es[..|es| - 1]), es[|es| - 1], t))
  }

  /** Nobody can write `t` any more. */
  ghost predicate Retired(w: World, t: Token) {
    && t < w.issued
    && (forall j :: j in w.jobs && HasToken(w.jobs[j].phase) ==> w.jobs[j].token != t)
    && (forall k :: k in w.locks ==> w.locks[k].token != t)
  }

  lemma StaysRetired(c: Config, w: World, e: Event, t: Token)
    requires Retired(w, t)
    ensures Retired(Step(c, w, e), t)
  {
    var w' := Step(c, w, e);
    forall j | j in w'.jobs && HasToken(w'.jobs[j].phase) ensures w'.jobs[j].token != t {
      StepTouchesOne(c, w, e, j);
    }
    forall k | k in w'.locks ensures w'.locks[k].token != t { StepOnLocks(c, w, e, k); }
  }

  /** The owner's release of a present entry retires its token. */
  lemma ReleaseRetires(c: Config, w: World, e: Event, k: Connection)
    requires Inv(c, w) && Held(c, w, k) && ReleasesToken(w, e, w.locks[k].token)
    requires forall k' :: k' in w.locks && k' != k ==> w.locks[k'].token != w.locks[k].token
    ensures Retired(Step(c, w, e), w.locks[k].token)
  {
    var t, w' := w.locks[k].token, Step(c, w, e);
    assert w.jobs[e.job].connection == k;
    assert w'.locks == w.locks - {k};
    forall j | j in w'.jobs && HasToken(w'.jobs[j].phase) ensures w'.jobs[j].token != t {
      StepTouchesOne(c, w, e, j);
      assert j != e.job;
    }
  }

  ghost predicate LockTokensDistinct(w: World) {
    forall k, k' :: k in w.locks && k' in w.locks && k != k' ==> w.locks[k].token != w.locks[k'].token
  }

  lemma StepKeepsLockTokens(c: Config, w: World, e: Event)
    requires Inv(c, w) && LockTokensDistinct(w)
    ensures LockTokensDistinct(Step(c, w, e))
  {
    var w' := Step(c, w, e);
    forall k, k' | k in w'.locks && k' in w'.locks && k != k' ensures w'.locks[k].token != w'.locks[k'].token {
      StepOnLocks(c, w, e, k);
      StepOnLocks(c, w, e, k');
    }
  }

  lemma {:induction false} RunKeepsLockTokens(c: Config, w: World, es: seq<Event>)
    requires Inv(c, w) && LockTokensDistinct(w)
    ensures LockTokensDistinct(Run(c, w, es))
  {
    if es != [] {
      var before := es[..|es| - 1];
      RunKeepsLockTokens(c, w, before);
      RunKeepsInv(c, w, before);
      StepKeepsLockTokens(c, Run(c, w, before), es[|es| - 1]);
    }
  }

  lemma {:induction false} TimeNeverReturns(c: Config, w: World, es: seq<Event>)
    ensures Run(c, w, es).now >= w.now
  {
    if es != [] { TimeNeverReturns(c, w, es[..|es| - 1]); }
  }

  ghost predicate Fate(w: World, k: Connection, l: Lock, released: bool) {
    if released then Retired(w, l.token) else k in w.locks && w.locks[k] == l
  }

  lemma StepKeepsFate(c: Config, w: World, e: Event, k: Connection, l: Lock, released: bool)
    requires Inv(c, w) && LockTokensDistinct(w) && Fate(w, k, l, released) && w.now < l.setAt + c.ttl
    ensures Fate(Step(c, w, e), k, l, released || ReleasesToken(w, e, l.token))
  {
    if released {
      StaysRetired(c, w, e, l.token);
    } else if ReleasesToken(w, e, l.token) {
      ReleaseRetires(c, w, e, k);
    }
  }

  lemma {:induction false} EntryFate(c: Config, w: World, es: seq<Event>, k: Connection)
    requires Inv(c, w) && LockTokensDistinct(w) && k in w.locks
    requires Run(c, w, es).now < w.locks[k].setAt + c.ttl
    ensures Fate(Run(c, w, es), k, w.locks[k], ReleasedByOwner(c, w, es, w.locks[k].token))
  {
    if es != [] {
      var before := es[..|es| - 1];
      TimeNeverReturns(c, Run(c, w, before), [es[|es| - 1]]);
      assert [es[|es| - 1]][..0] == [];
      EntryFate(c, w, before, k);
      RunKeepsInv(c, w, before);
      RunKeepsLockTokens(c, w, before);
      StepKeepsFate(c, Run(c, w, before), es[|es| - 1], k, w.locks[k], ReleasedByOwner(c, w, before, w.locks[k].token));
    }
  }

  /** OWNER-ONLY RELEASE. Take any reachable world and any continuation that ends within an entry's
      TTL: the entry is gone exactly when the job that drew its token released it. A skipped job,
      another job's late release, a failed release and a crash all leave it alone. */
  lemma OnlyOwnerReleases(c: Config, history: seq<Event>, es: seq<Event>, k: Connection)
    requires var w := Run(c, Boot(), history);
      k in w.locks && Run(c, w, es).now < w.locks[k].setAt + c.ttl
    ensures var w := Run(c, Boot(), history);
      var w' := Run(c, w, es);
      !(k in w'.locks && w'.locks[k] == w.locks[k]) <==> ReleasedByOwner(c, w, es, w.locks[k].token)
  {
    RunKeepsInv(c, Boot(), history);
    RunKeepsLockTokens(c, Boot(), history);
    EntryFate(c, Run(c, Boot(), history), es, k);
  }

  /** A release by anyone else, however late, cannot push a job out of its critical section. */
  lemma ForeignReleaseHarmless(c: Config, history: seq<Event>, i: JobId, j: JobId)
    requires c.ttl >= c.timeout + c.lag && i != j
    requires Inside(c, Run(c, Boot(), history), i)
    ensures var w := Run(c, Boot(), history);
      var w' := Step(c, w, Release(j));
      var k := w.jobs[i].connection;
      Inside(c, w', i) && k in w.locks && k in w'.locks && w'.locks[k] == w.locks[k]
  {
    RunKeepsInv(c, Boot(), history);
    StepTouchesOne(c, Run(c, Boot(), history), Release(j), i);
  }

  // ---- How long a connection stays blocked ----

  /** The event is a job's getting the lock of connection k. */
  predicate Takes(c: Config, w: World, e: Event, k: Connection) {
    e.TryLock? && Enabled(c, w, e) && w.jobs[e.job].connection == k && !Held(c, w, k)
  }

  predicate TakenDuring(c: Config, w: World, es: seq<Event>, k: Connection) {
    es != [] &&
    (TakenDuring(c, w, es[..|es| - 1], k) || Takes(c, Run(c, w, es[..|es| - 1]), es[|es| - 1], k))
  }

  /** An entry is written only by a job that takes the lock. */
  lemma {:induction false} NotRewritten(c: Config, w: World, es: seq<Event>, k: Connection)
    requires !TakenDuring(c, w, es, k)
    ensures k in Run(c, w, es).locks ==> k in w.locks && Run(c, w, es).locks[k] == w.locks[k]
  {
    if es != [] {
      var before := es[..|es| - 1];
      NotRewritten(c, w, before, k);
      if k in Run(c, w, es).locks { StepOnLocks(c, Run(c, w, before), es[|es| - 1], k); }
    }
  }

  /** NO LONGER THAN THE TTL. From any reachable world on, whatever crashed in it and whatever else goes
      on for the next `ttl`, either some job takes the connection's lock in that time, or the connection
      is free at the end of it, and the next job that asks gets in. */
  lemma BlockedAtMostTtl(c: Config, history: seq<Event>, es: seq<Event>, k: Connection, j: JobId)
    requires var w := Run(c, Boot(), history);
      Run(c, w, es).now >= w.now + c.ttl && !TakenDuring(c, w, es, k)
    ensures var w' := Run(c, Run(c, Boot(), history), es);
      && !Held(c, w', k)
      && (InPhase(w', j, Started) && w'.jobs[j].connection == k && OnTime(c, w', w'.jobs[j]) ==>
            Inside(c, Step(c, w', TryLock(j)), j) && Step(c, w', TryLock(j)).locks[k] == Lock(w'.jobs[j].token, w'.now))
  {
    RunKeepsInv(c, Boot(), history);
    NotRewritten(c, Run(c, Boot(), history), es, k);
  }

  // ---- Retries ----

  /** The body of a job runs at most max_tries times, whatever happens to it. */
  lemma {:induction false} TriesBounded(c: Config, es: seq<Event>, j: JobId)
    ensures j in Run(c, Boot(), es).jobs ==> Run(c, Boot(), es).jobs[j].tries <= c.maxTries
  {
    if es != [] { TriesBounded(c, es[..|es| - 1], j); }
  }

  /** A job deferred until `r` is not started before. */
  lemma {:induction false} NotStartedEarly(c: Config, w: World, es: seq<Event>, j: JobId)
    requires j in w.jobs && w.jobs[j].phase.Waiting?
    ensures var w' := Run(c, w, es);
      && j in w'.jobs && w'.jobs[j].tries >= w.jobs[j].tries
      && (w'.now < w.jobs[j].phase.readyAt ==> w'.jobs[j] == w.jobs[j])
  {
    if es != [] { NotStartedEarly(c, w, es[..|es| - 1], j); }
  }

  /** A transient failure keeps the job off the provider for its backoff, between 5 and 300 s, whether
      or not the lock could be released. */
  lemma RetryHonoursBackoff(c: Config, w: World, j: JobId, r: Reading, out: Event, es: seq<Event>)
    requires j in w.jobs && w.jobs[j].phase == Releasing(Retry(Defer(AttemptsSeen(r))))
    requires out == Release(j) || out == ReleaseFails(j)
    ensures var w' := Run(c, Step(c, w, out), es);
      j in w'.jobs && (w'.jobs[j].tries > w.jobs[j].tries ==> w'.now >= w.now + 1000 * Defer(AttemptsSeen(r)))
    ensures 5 <= Defer(AttemptsSeen(r)) <= 300
  {
    DeferMonotone(AttemptsSeen(r), AttemptsSeen(r));
    NotStartedEarly(c, Step(c, w, out), es, j);
  }

  // ---- What became of a job, read off its own steps ----

  /** A step a job took, when, and whether its connection's lock was held at that time. */
  datatype Stamp = Stamp(event: Event, at: int, held: bool)

  function Stamped(c: Config, w: World, e: Event, j: JobId): Stamp {
    Stamp(e, w.now, j in w.jobs && Held(c, w, w.jobs[j].connection))
  }

  /** The steps of one job that a run executes, in order. */
  function Own(c: Config, w: World, es: seq<Event>, j: JobId): seq<Stamp> {
    if es == [] then []
    else
      var v, e := Run(c, w, es[..|es| - 1]), es[|es| - 1];
      Own(c, w, es[..|es| - 1], j) + if Actor(e) == Some(j) && Enabled(c, v, e) then [Stamped(c, v, e, j)] else []
  }

  function Starts(own: seq<Stamp>): nat {
    if own == [] then 0 else Starts(own[..|own| - 1]) + if own[|own| - 1].event.Start? then 1 else 0
  }

  function LastStart(own: seq<Stamp>): Option<int> {
    if own == [] then None
    else if own[|own| - 1].event.Start? then Some(own[|own| - 1].at)
    else LastStart(own[..|own| - 1])
  }

  /** How a step ends the body, if it does. */
  function Verdict(e: Event): Option<Outcome> {
    match e
    case SyncReturns(_) => Some(Synced)
    case Mark(_, _) => Some(AuthRejected)
    case SyncTransient(_, r) => Some(Retry(Defer(AttemptsSeen(r))))
    case SyncOtherError(_) => Some(Failed)
    case Cancel(_) => Some(CutOff)
    case _ => None
  }

  function LastVerdict(own: seq<Stamp>): Option<Outcome> {
    if own == [] then None
    else if Verdict(own[|own| - 1].event).Some? then Verdict(own[|own| - 1].event)
    else LastVerdict(own[..|own| - 1])
  }

  /** Where a job is that has taken these steps. */
  predicate Tells(c: Config, own: seq<Stamp>, p: Phase)
    requires own != []
  {
    var last := own[|own| - 1];
    match last.event
    case Tick(_) => false
    case Enqueue(_, _) => p == Waiting(last.at)
    case Requeue(_) => p == Waiting(last.at)
    case Start(_) => p == if Starts(own) > c.maxTries then Exhausted else Started
    case TryLock(_) => p == if last.held then Skipped else Syncing
    case SyncAuthError(_) => p == Marking
    case Crash(_) => p == Crashed
    case Cancel(_) =>
      |own| > 1 && p == if own[|own| - 2].event.Start? then Over(CutOff) else Releasing(CutOff)
    case Release(_) => LastVerdict(own).Some? && Handed(LastVerdict(own).value, last.at, p)
    case ReleaseFails(_) => LastVerdict(own).Some? && Handed(LastVerdict(own).value, last.at, p)
    case _ => p == Releasing(Verdict(last.event).value)
  }

  /** A retry is due so many seconds later; any other outcome is final for arq. */
  predicate Handed(o: Outcome, at: int, p: Phase) {
    if o.Retry? then p == Waiting(at + 1000 * o.seconds) else p == Over(o)
  }

  /** What the job's present phase owes to its last steps, for one more step to find. */
  ghost predicate Told(c: Config, w: World, own: seq<Stamp>, j: JobId) {
    && (j in w.jobs <==> own != [])
    && (own != [] ==>
          && Tells(c, own, w.jobs[j].phase)
          && own[0].event.Enqueue? && w.jobs[j].connection == own[0].event.connection
          && w.jobs[j].tries == Min(Starts(own), c.maxTries)
          && (w.jobs[j].phase.Exhausted? || LastStart(own).None? || w.jobs[j].startedAt == LastStart(own).value)
          && (w.jobs[j].phase.Releasing? ==> LastVerdict(own) == Some(w.jobs[j].phase.outcome))
          && (Starts(own) > c.maxTries ==> w.jobs[j].phase.Exhausted?)
          && (w.jobs[j].phase.Started? <==> own[|own| - 1].event.Start? && Starts(own) <= c.maxTries))
  }

  lemma Appended(own: seq<Stamp>, x: Stamp)
    ensures Starts(own + [x]) == Starts(own) + if x.event.Start? then 1 else 0
    ensures LastStart(own + [x]) == if x.event.Start? then Some(x.at) else LastStart(own)
    ensures LastVerdict(own + [x]) == if Verdict(x.event).Some? then Verdict(x.event) else LastVerdict(own)
  {
    assert (own + [x])[..|own|] == own;
  }

  lemma OwnStepTold(c: Config, w: World, e: Event, own: seq<Stamp>, j: JobId)
    requires Told(c, w, own, j) && Actor(e) == Some(j) && Enabled(c, w, e)
    ensures Told(c, Step(c, w, e), own + [Stamped(c, w, e, j)], j)
  {
    Appended(own, Stamped(c, w, e, j));
    if own != [] { assert (own + [Stamped(c, w, e, j)])[0] == own[0]; }
  }

  lemma {:induction false} RunTold(c: Config, es: seq<Event>, j: JobId)
    ensures Told(c, Run(c, Boot(), es), Own(c, Boot(), es, j), j)
  {
    if es != [] {
      var before, e := es[..|es| - 1], es[|es| - 1];
      var v, own := Run(c, Boot(), before), Own(c, Boot(), before, j);
      RunTold(c, before, j);
      if Actor(e) == Some(j) && Enabled(c, v, e) {
        OwnStepTold(c, v, e, own, j);
      } else {
        assert own + [] == own;
        StepTouchesOne(c, v, e, j);
      }
    }
  }

  /** A JOB'S PHASE IS TOLD by its own steps, over every run: which connection it works on, how often
      and when it was started, what its body came to, when a retry is due, and that a cut-off job has
      its release to come exactly if it had come as far as asking for the lock. */
  lemma PhaseTold(c: Config, es: seq<Event>, j: JobId)
    ensures var w, own := Run(c, Boot(), es), Own(c, Boot(), es, j);
      && (j in w.jobs <==> own != [])
      && (own != [] ==>
            && Tells(c, own, w.jobs[j].phase)
            && own[0].event == Enqueue(j, w.jobs[j].connection)
            && w.jobs[j].tries == Min(Starts(own), c.maxTries)
            && (w.jobs[j].phase.Exhausted? <==> Starts(own) > c.maxTries)
            && (Starts(own) <= c.maxTries && LastStart(own).Some? ==> w.jobs[j].startedAt == LastStart(own).value))
  {
    RunTold(c, es, j);
    OwnActs(c, es, j);
  }

  /** The job has got the lock in its present start and its sync is going on. */
  predicate AtWork(own: seq<Stamp>) { own != [] && own[|own| - 1].event.TryLock? && !own[|own| - 1].held }

  /** It was started, within its tries, and nothing has happened since. */
  predicate JustStarted(c: Config, own: seq<Stamp>) {
    own != [] && own[|own| - 1].event.Start? && Starts(own) <= c.maxTries
  }

  predicate Rejected(own: seq<Stamp>) { own != [] && own[|own| - 1].event.SyncAuthError? }

  /** Its body has come to an end that the finally block has yet to see. */
  predicate Ending(own: seq<Stamp>) {
    own != [] &&
    match own[|own| - 1].event
    case SyncReturns(_) => true
    case Mark(_, _) => true
    case SyncTransient(_, _) => true
    case SyncOtherError(_) => true
    case Cancel(_) => |own| > 1 && !own[|own| - 2].event.Start?
    case _ => false
  }

  predicate Handedover(own: seq<Stamp>) {
    own != [] && (own[|own| - 1].event.Release? || own[|own| - 1].event.ReleaseFails?) && LastVerdict(own).Some?
  }

  /** What a job with these steps behind it can do at time `now`. */
  predicate Allowed(c: Config, own: seq<Stamp>, e: Event, now: int) {
    var inTime := LastStart(own).Some? && now < LastStart(own).value + c.timeout + c.lag;
    var overdue := LastStart(own).Some? && LastStart(own).value + c.timeout <= now;
    match e
    case Tick(_) => true
    case Enqueue(_, _) => own == []
    case Start(_) =>
      || (own != [] && (own[|own| - 1].event.Enqueue? || own[|own| - 1].event.Requeue?))
      || (Handedover(own) && LastVerdict(own).value.Retry?
          && own[|own| - 1].at + 1000 * LastVerdict(own).value.seconds <= now)
    case TryLock(_) => JustStarted(c, own) && inTime
    case SyncReturns(_) => AtWork(own) && inTime
    case SyncAuthError(_) => AtWork(own) && inTime
    case SyncTransient(_, _) => AtWork(own) && inTime
    case SyncOtherError(_) => AtWork(own) && inTime
    case Mark(_, _) => Rejected(own) && inTime
    case Cancel(_) => (JustStarted(c, own) || AtWork(own) || Rejected(own)) && overdue
    case Release(_) => Ending(own)
    case ReleaseFails(_) => Ending(own)
    case Crash(_) => JustStarted(c, own) || AtWork(own) || Rejected(own) || Ending(own)
    case Requeue(_) =>
      own != [] &&
      (|| own[|own| - 1].event.Crash?
       || (own[|own| - 1].event.Cancel? && |own| > 1 && own[|own| - 2].event.Start?)
       || (Handedover(own) && LastVerdict(own) == Some(CutOff)))
  }

  ghost predicate Timely(w: World, own: seq<Stamp>, j: JobId) {
    && (own != [] ==> own[|own| - 1].at <= w.now)
    && (j in w.jobs && (HasToken(w.jobs[j].phase)) ==>
          LastStart(own) == Some(w.jobs[j].startedAt) && Starts(own) > 0)
  }

  lemma OwnStepTimely(c: Config, w: World, e: Event, own: seq<Stamp>, j: JobId)
    requires Timely(w, own, j) && Actor(e) == Some(j) && Enabled(c, w, e)
    ensures Timely(Step(c, w, e), own + [Stamped(c, w, e, j)], j)
  {
    Appended(own, Stamped(c, w, e, j));
  }

  lemma OtherStepTimely(c: Config, w: World, e: Event, own: seq<Stamp>, j: JobId)
    requires Timely(w, own, j) && !(Actor(e) == Some(j) && Enabled(c, w, e))
    ensures Timely(Step(c, w, e), own, j)
  {
    StepTouchesOne(c, w, e, j);
  }

  lemma {:induction false} RunTimely(c: Config, es: seq<Event>, j: JobId)
    ensures Timely(Run(c, Boot(), es), Own(c, Boot(), es, j), j)
  {
    if es != [] {
      var before, e := es[..|es| - 1], es[|es| - 1];
      var v, own := Run(c, Boot(), before), Own(c, Boot(), before, j);
      RunTimely(c, before, j);
      if Actor(e) == Some(j) && Enabled(c, v, e) {
        OwnStepTimely(c, v, e, own, j);
      } else {
        assert own + [] == own;
        OtherStepTimely(c, v, e, own, j);
      }
    }
  }

  lemma BeginningIff(c: Config, w: World, own: seq<Stamp>, j: JobId, e: Event)
    requires Told(c, w, own, j) && Timely(w, own, j) && Actor(e) == Some(j)
    requires e.Enqueue? || e.Start? || e.TryLock?
    ensures Enabled(c, w, e) <==> Allowed(c, own, e, w.now)
  {
  }

  lemma SyncingIff(c: Config, w: World, own: seq<Stamp>, j: JobId, e: Event)
    requires Told(c, w, own, j) && Timely(w, own, j) && Actor(e) == Some(j)
    requires e.SyncReturns? || e.SyncAuthError? || e.SyncTransient? || e.SyncOtherError?
    ensures Enabled(c, w, e) <==> Allowed(c, own, e, w.now)
  {
  }

  lemma MarkingIff(c: Config, w: World, own: seq<Stamp>, j: JobId, e: Event)
    requires Told(c, w, own, j) && Timely(w, own, j) && Actor(e) == Some(j) && (e.Mark? || e.Cancel?)
    ensures Enabled(c, w, e) <==> Allowed(c, own, e, w.now)
  {
  }

  lemma LeavingIff(c: Config, w: World, own: seq<Stamp>, j: JobId, e: Event)
    requires Told(c, w, own, j) && Timely(w, own, j) && Actor(e) == Some(j)
    requires e.Release? || e.ReleaseFails? || e.Crash?
    ensures Enabled(c, w, e) <==> Allowed(c, own, e, w.now)
  {
  }

  lemma OnceMoreIff(c: Config, w: World, own: seq<Stamp>, j: JobId)
    requires Told(c, w, own, j)
    ensures Enabled(c, w, Requeue(j)) <==> Allowed(c, own, Requeue(j), w.now)
  {
  }

  /** THE LIFE OF A JOB. Over every run, what a job can do next is settled by its own steps and the clock:
      it asks for the lock only in time after a start; it syncs only with the lock, which it got exactly if
      nobody held it; it can be cut off only when overdue; its release comes after its body has
      ended; it starts again only when its retry is due or arq runs a crashed or cut-off job once more. */
  lemma NextStepIff(c: Config, es: seq<Event>, j: JobId, e: Event)
    requires Actor(e) == Some(j)
    ensures Enabled(c, Run(c, Boot(), es), e)
        <==> Allowed(c, Own(c, Boot(), es, j), e, Run(c, Boot(), es).now)
  {
    var w, own := Run(c, Boot(), es), Own(c, Boot(), es, j);
    RunTold(c, es, j);
    RunTimely(c, es, j);
    if e.Enqueue? || e.Start? || e.TryLock? {
      BeginningIff(c, w, own, j, e);
    } else if e.Mark? || e.Cancel? {
      MarkingIff(c, w, own, j, e);
    } else if e.Release? || e.ReleaseFails? || e.Crash? {
      LeavingIff(c, w, own, j, e);
    } else if e.Requeue? {
      OnceMoreIff(c, w, own, j);
    } else {
      SyncingIff(c, w, own, j, e);
    }
  }

  lemma {:induction false} OwnActs(c: Config, es: seq<Event>, j: JobId)
    ensures forall x :: x in Own(c, Boot(), es, j) ==> Actor(x.event) == Some(j)
  {
    if es != [] { OwnActs(c, es[..|es| - 1], j); }
  }

  /** Which event leads to which end: a job is over with an outcome other than a cut-off exactly when its
      last step is its release and the last step that decided anything was the one of that outcome. */
  lemma OutcomeIff(c: Config, es: seq<Event>, j: JobId, o: Outcome)
    requires !o.CutOff? && !o.Retry?
    ensures var w, own := Run(c, Boot(), es), Own(c, Boot(), es, j);
      InPhase(w, j, Over(o)) <==>
        && own != [] && (own[|own| - 1].event.Release? || own[|own| - 1].event.ReleaseFails?)
        && LastVerdict(own) == Some(o)
  {
    RunTold(c, es, j);
  }

  // ---- Which connections are flagged ----

  /** The event flags connection k for reconnecting. */
  predicate Flags(c: Config, w: World, e: Event, k: Connection) {
    e.Mark? && e.found && Enabled(c, w, e) && w.jobs[e.job].connection == k
  }

  predicate FlaggedDuring(c: Config, w: World, es: seq<Event>, k: Connection) {
    es != [] &&
    (FlaggedDuring(c, w, es[..|es| - 1], k) || Flags(c, Run(c, w, es[..|es| - 1]), es[|es| - 1], k))
  }

  /** A connection is flagged for reconnecting exactly when some job on it, its credentials rejected by the
      provider, has found it there to flag. */
  lemma {:induction false} ReconnectIff(c: Config, es: seq<Event>, k: Connection)
    ensures k in Run(c, Boot(), es).reconnect <==> FlaggedDuring(c, Boot(), es, k)
  {
    if es != [] { ReconnectIff(c, es[..|es| - 1], k); }
  }

  // ---- How long a job is put off altogether ----

  /** The delays, in seconds, that the failures of one job have set in a run. */
  function Deferrals(c: Config, w: World, es: seq<Event>, j: JobId): seq<int> {
    if es == [] then []
    else
      var v, e := Run(c, w, es[..|es| - 1]), es[|es| - 1];
      Deferrals(c, w, es[..|es| - 1], j)
      + if Defers(c, v, e, j) then [Defer(AttemptsSeen(e.reading))] else []
  }

  predicate Defers(c: Config, w: World, e: Event, j: JobId) { e.SyncTransient? && e.job == j && Enabled(c, w, e) }

  /** Whenever the job reads arq's counter, it reads how often it has been started. */
  predicate ReadsItsTries(c: Config, w: World, es: seq<Event>, j: JobId) {
    es == [] ||
    var v, e := Run(c, w, es[..|es| - 1]), es[|es| - 1];
    ReadsItsTries(c, w, es[..|es| - 1], j) && (Defers(c, v, e, j) ==> e.reading == Number(v.jobs[j].tries))
  }

  function SumOf(delays: seq<int>): int {
    if delays == [] then 0 else SumOf(delays[..|delays| - 1]) + delays[|delays| - 1]
  }

  /** The present start of the job has not yet come to an end. */
  predicate Underway(p: Phase) { p.Started? || Critical(p) }

  lemma StepOnTries(c: Config, w: World, e: Event, j: JobId)
    requires j in Step(c, w, e).jobs && (j in w.jobs && Underway(w.jobs[j].phase) ==> w.jobs[j].tries > 0)
    ensures var was, now := if j in w.jobs then w.jobs[j] else Job(0, Waiting(0), 0, 0, 0), Step(c, w, e).jobs[j];
      && (Underway(now.phase) ==> now.tries > 0)
      && (Defers(c, w, e, j) ==>
            && now.tries == was.tries && Underway(was.phase)
            && now.phase == Releasing(Retry(Defer(AttemptsSeen(e.reading)))))
      && (now.tries == was.tries || (now.tries == was.tries + 1 && was.phase.Waiting? && now.phase.Started?))
      && (now.tries == was.tries && Underway(now.phase) ==> Underway(was.phase))
  {
  }

  lemma AppendSum(delays: seq<int>, d: int)
    ensures SumOf(delays + [d]) == SumOf(delays) + d
  {
    assert (delays + [d])[..|delays|] == delays;
  }

  lemma OneMoreDefer(n: nat)
    ensures TotalDefer(n) + 5 <= TotalDefer(n + 1)
  {
    DeferMonotone(n + 1, n + 1);
  }

  /** The delays so far fit the starts that are over. */
  ghost predicate WithinTotal(w: World, j: JobId, delays: seq<int>) {
    if j !in w.jobs then delays == []
    else
      && (Underway(w.jobs[j].phase) ==> w.jobs[j].tries > 0)
      && SumOf(delays) <= TotalDefer(w.jobs[j].tries - if Underway(w.jobs[j].phase) then 1 else 0)
  }

  lemma StepStaysWithin(c: Config, w: World, e: Event, j: JobId, delays: seq<int>)
    requires WithinTotal(w, j, delays) && (Defers(c, w, e, j) ==> e.reading == Number(w.jobs[j].tries))
    ensures WithinTotal(Step(c, w, e), j, delays + if Defers(c, w, e, j) then [Defer(AttemptsSeen(e.reading))] else [])
  {
    var w' := Step(c, w, e);
    if j in w'.jobs {
      StepOnTries(c, w, e, j);
      if Defers(c, w, e, j) {
        AppendSum(delays, Defer(w.jobs[j].tries));
      } else {
        assert delays + [] == delays;
        if j in w.jobs && Underway(w.jobs[j].phase) { OneMoreDefer(w.jobs[j].tries - 1); }
      }
    }
  }

  lemma {:induction false} RunStaysWithin(c: Config, es: seq<Event>, j: JobId)
    requires ReadsItsTries(c, Boot(), es, j)
    ensures WithinTotal(Run(c, Boot(), es), j, Deferrals(c, Boot(), es, j))
  {
    if es != [] {
      var before := es[..|es| - 1];
      RunStaysWithin(c, before, j);
      StepStaysWithin(c, Run(c, Boot(), before), es[|es| - 1], j, Deferrals(c, Boot(), before, j));
    }
  }

  lemma {:induction false} TotalDeferGrows(m: nat, n: nat)
    requires m <= n
    ensures 0 <= TotalDefer(m) <= TotalDefer(n)
    decreases n
  {
    if n > 0 {
      OneMoreDefer(n - 1);
      TotalDeferGrows(if m < n then m else n - 1, n - 1);
    }
  }

  /** Over any run, crashes and restarts included, all the delays of one job together are no more than
      those after max_tries attempts in a row: 75 s for the four tries of the source. */
  lemma DeferralsAddUp(c: Config, es: seq<Event>, j: JobId)
    requires ReadsItsTries(c, Boot(), es, j)
    ensures SumOf(Deferrals(c, Boot(), es, j)) <= TotalDefer(c.maxTries)
    ensures c.maxTries == MAX_TRIES ==> SumOf(Deferrals(c, Boot(), es, j)) <= 75
  {
    RunStaysWithin(c, es, j);
    TriesBounded(c, es, j);
    var w := Run(c, Boot(), es);
    var spent: nat := if j in w.jobs then w.jobs[j].tries - (if Underway(w.jobs[j].phase) then 1 else 0) else 0;
    TotalDeferGrows(spent, c.maxTries);
    TotalDeferClosed(MAX_TRIES);
    assert Pow2(4) == 16;
  }

  /** Without restarts every start before the present one has ended in a deferral. */
  ghost predicate OneEach(w: World, j: JobId, delays: seq<int>) {
    && (forall k :: 0 <= k < |delays| ==> delays[k] == Defer(k + 1))
    && (if j !in w.jobs then delays == []
        else
          && (Underway(w.jobs[j].phase) ==> w.jobs[j].tries == |delays| + 1)
          && (w.jobs[j].phase.Waiting? || (w.jobs[j].phase.Releasing? && w.jobs[j].phase.outcome.Retry?) ==>
                w.jobs[j].tries == |delays|))
  }

  lemma StepKeepsOneEach(c: Config, w: World, e: Event, j: JobId, delays: seq<int>)
    requires OneEach(w, j, delays) && e != Requeue(j)
    requires Defers(c, w, e, j) ==> e.reading == Number(w.jobs[j].tries)
    ensures OneEach(Step(c, w, e), j, delays + if Defers(c, w, e, j) then [Defer(AttemptsSeen(e.reading))] else [])
  {
    if !Defers(c, w, e, j) { assert delays + [] == delays; }
  }

  /** The k-th deferral of a job that is never restarted sets the k-th delay of the backoff. */
  lemma {:induction false} DeferralsInOrder(c: Config, es: seq<Event>, j: JobId)
    requires ReadsItsTries(c, Boot(), es, j) && Requeue(j) !in es
    ensures forall k :: 0 <= k < |Deferrals(c, Boot(), es, j)| ==> Deferrals(c, Boot(), es, j)[k] == Defer(k + 1)
    ensures OneEach(Run(c, Boot(), es), j, Deferrals(c, Boot(), es, j))
  {
    if es != [] {
      var before := es[..|es| - 1];
      assert es == before + [es[|es| - 1]];
      DeferralsInOrder(c, before, j);
      StepKeepsOneEach(c, Run(c, Boot(), before), es[|es| - 1], j, Deferrals(c, Boot(), before, j));
    }
  }

  // ---- The stateful side: the worker's steps on Redis and on its jobs ----

  class Worker {
    const c: Config
    var now: int
    var locks: map<Connection, Lock>
    var jobs: map<JobId, Job>
    var issued: nat
    var reconnect: set<Connection>

    function State(): World reads this { World(now, locks, jobs, issued, reconnect) }

    constructor (c: Config)
      ensures State() == Boot() && this.c == c
    {
      this.c, now, locks, jobs, issued, reconnect := c, 0, map[], map[], 0, {};
    }

    method SetPhase(j: JobId, p: Phase)
      requires j in jobs
      modifies this`jobs
      ensures State() == Put(old(State()), j, p)
    {
      jobs := jobs[j := jobs[j].(phase := p)];
    }

    /** SET key token NX PX ttl */
    method SetNx(k: Connection, t: Token) returns (acquired: bool)
      modifies this`locks
      ensures acquired <==> !Held(c, old(State()), k)
      ensures locks == if acquired then old(locks)[k := Lock(t, now)] else old(locks)
    {
      acquired := !(k in locks && now < locks[k].setAt + c.ttl);
      if acquired { locks := locks[k := Lock(t, now)]; }
    }

    /** The release script: delete the entry only while it holds our token. */
    method CompareAndDelete(k: Connection, t: Token)
      modifies this`locks
      ensures locks == if Held(c, old(State()), k) && old(locks)[k].token == t then old(locks) - {k} else old(locks)
    {
      if k in locks && now < locks[k].setAt + c.ttl {
        if locks[k].token == t { locks := locks - {k}; }
      }
    }

    method BeginBody(j: JobId)
      requires Enabled(c, State(), Start(j))
      modifies this
      ensures State() == Step(c, old(State()), Start(j))
    {
      if jobs[j].tries >= c.maxTries {
        SetPhase(j, Exhausted);
      } else {
        jobs := jobs[j := Job(jobs[j].connection, Started, jobs[j].tries + 1, now, issued)];
        issued := issued + 1;
      }
    }

    /** Ask for the lock; if another run holds it, leave at once. */
    method Acquire(j: JobId) returns (acquired: bool)
      requires Enabled(c, State(), TryLock(j))
      modifies this
      ensures State() == Step(c, old(State()), TryLock(j))
      ensures !acquired ==> locks == old(locks)
    {
      acquired := SetNx(jobs[j].connection, jobs[j].token);
      SetPhase(j, if acquired then Syncing else Skipped);
    }

    /** The finally block: release, best effort, then hand the outcome to arq. */
    method Finish(j: JobId, reachable: bool)
      requires Enabled(c, State(), Release(j))
      modifies this
      ensures State() == Step(c, old(State()), if reachable then Release(j) else ReleaseFails(j))
    {
      if reachable { CompareAndDelete(jobs[j].connection, jobs[j].token); }
      SetPhase(j, AfterRelease(now, jobs[j].phase.outcome));
    }

    /** Without such a connection there is nothing to flag, and the job goes on. */
    method MarkReconnectRequired(j: JobId, found: bool)
      requires Enabled(c, State(), Mark(j, found))
      modifies this
      ensures State() == Step(c, old(State()), Mark(j, found))
    {
      if found { reconnect := reconnect + {jobs[j].connection}; }
      SetPhase(j, Releasing(AuthRejected));
    }

    method Take(e: Event)
      modifies this
      ensures State() == Step(c, old(State()), e)
    {
      if !Enabled(c, State(), e) { return; }
      match e
      case Tick(ms) => now := now + ms;
      case Enqueue(j, k) => jobs := jobs[j := Job(k, Waiting(now), 0, now, 0)];
      case Start(j) => BeginBody(j);
      case TryLock(j) => var _ := Acquire(j);
      case SyncReturns(j) => SetPhase(j, Releasing(Synced));
      case SyncAuthError(j) => SetPhase(j, Marking);
      case Mark(j, found) => MarkReconnectRequired(j, found);
      case SyncTransient(j, r) => SetPhase(j, Releasing(Retry(Defer(AttemptsSeen(r)))));
      case SyncOtherError(j) => SetPhase(j, Releasing(Failed));
      case Cancel(j) => SetPhase(j, if jobs[j].phase.Started? then Over(CutOff) else Releasing(CutOff));
      case Release(j) => Finish(j, true);
      case ReleaseFails(j) => Finish(j, false);
      case Crash(j) => SetPhase(j, Crashed);
      case Requeue(j) => SetPhase(j, Waiting(now));
    }

    /** Any schedule played on the worker goes through exactly the states of Run. */
    method Play(es: seq<Event>)
      modifies this
      ensures State() == Run(c, old(State()), es)
    {
      for i := 0 to |es|
        invariant State() == Run(c, old(State()), es[..i])
      {
        assert es[..i + 1][..i] == es[..i];
        Take(es[i]);
      }
      assert es[..|es|] == es;
    }
  }
}
