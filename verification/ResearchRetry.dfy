/** Retries of a research collection job: `_research_collection` (core/worker.py) around `run_job`
    and `cancel_job` (modules/research/collection/service.py), and arq's own attempt counter.

    arq counts every start of a job and refuses to run the body once the count passes max_tries. A
    user may cancel at any moment. A step is what happens up to the next commit, so the worker may die
    or fail between any two of them, also after the verdict is stored and before the body returns. */
module ResearchRetry {
  import opened Common

  const MAX_TRIES: nat := 3

  datatype Status = Queued | Running | Completed | Failed | Cancelled

  datatype Row = Row(status: Status, completedAt: Option<int>, attempts: nat)

  predicate Terminal(s: Status) { s.Completed? || s.Failed? || s.Cancelled? }

  /** How far a run of the body is. */
  datatype Point =
    | Opening           // the row has been read; nothing is committed yet
    | Collecting        // committed as running
    | Requeued          // run_job has put it back to queued and raised; the worker decides
    | Through           // the verdict is committed, or the job was found cancelled; the body is to return

  datatype Worker =
    | Idle              // not running; arq will start the job (again)
    | In(at: Point)
    | Returned          // the body returned; arq is done with the job
    | Raised            // an exception nobody handles; arq is done with the job
    | GaveUp            // arq found the counter past max_tries

  datatype Way = Deferred | Died | Threw | Left

  /** How a run of the body ended, and how far it had come. */
  datatype End = End(way: Way, at: Point)

  /** `ends` and `cancels` are history. */
  datatype World = World(row: Row, worker: Worker, tries: nat, ends: seq<End>, cancels: nat)

  function Created(): World { World(Row(Queued, None, 0), Idle, 0, [], 0) }

  datatype Event =
    | Start                               // arq's counter check; run_job reads the row
    | Open(now: int, sourceFound: bool)
    | PagesStored(now: int)
    | CollectionRejected(now: int)        // CollectionError or URLPolicyError
    | TransientError
    | Settle(now: int)                    // the worker's answer to it: failed, or Retry
    | Return
    | Unhandled                           // any other exception: not a commit, a refresh, arq's counter, ...
    | Die                                 // crash, or cancelled by arq and run again
    | UserCancel(now: int)

  function Closed(r: Row, s: Status, now: int): Row { r.(status := s, completedAt := Some(now)) }

  function Ending(w: World, way: Way): seq<End>
    requires w.worker.In?
  {
    w.ends + [End(way, w.worker.at)]
  }

  function Step(w: World, e: Event): World {
    match e
    case Start =>
      if !w.worker.Idle? then w
      else if w.tries + 1 > MAX_TRIES then w.(worker := GaveUp, tries := w.tries + 1)
      else w.(worker := In(if w.row.status.Cancelled? then Through else Opening), tries := w.tries + 1)
    case Open(now, found) =>
      if w.worker != In(Opening) then w
      else if !found then w.(row := Closed(w.row, Failed, now), worker := In(Through))
      else w.(row := w.row.(status := Running, attempts := w.row.attempts + 1), worker := In(Collecting))
    case PagesStored(now) =>
      if w.worker == In(Collecting) then w.(row := Closed(w.row, Completed, now), worker := In(Through)) else w
    case CollectionRejected(now) =>
      if w.worker == In(Collecting) then w.(row := Closed(w.row, Failed, now), worker := In(Through)) else w
    case TransientError =>
      if w.worker == In(Collecting) then w.(row := w.row.(status := Queued), worker := In(Requeued)) else w
    case Settle(now) =>
      if w.worker != In(Requeued) then w
      else if w.tries >= 3 then w.(row := Closed(w.row, Failed, now), worker := In(Through))
      else w.(worker := Idle, ends := Ending(w, Deferred))
    case Return =>
      if w.worker == In(Through) then w.(worker := Returned, ends := Ending(w, Left)) else w
    case Unhandled =>
      if w.worker.In? then w.(worker := Raised, ends := Ending(w, Threw)) else w
    case Die =>
      if w.worker.In? then w.(worker := Idle, ends := Ending(w, Died)) else w
    case UserCancel(now) =>
      if w.row.status.Queued? || w.row.status.Running? then
        w.(row := Closed(w.row, Cancelled, now), cancels := w.cancels + 1)
      else w
  }

  function Run(w: World, es: seq<Event>): World {
    if es == [] then w else Step(Run(w, es[..|es| - 1]), es[|es| - 1])
  }

  // ---- The attempt limits ----

  ghost predicate Counted(w: World) {
    && (w.worker.In? ==> w.tries == |w.ends| + 1 && w.tries <= MAX_TRIES)
    && (w.worker.Idle? || w.worker.Returned? || w.worker.Raised? ==> w.tries == |w.ends| && w.tries <= MAX_TRIES)
    && (w.worker.GaveUp? ==> w.tries == MAX_TRIES + 1 && |w.ends| == MAX_TRIES)
    && w.row.attempts + (if w.worker == In(Opening) then 1 else 0) <= w.tries
    && w.row.attempts <= MAX_TRIES
    && (forall i :: 0 <= i < |w.ends| ==> (w.ends[i].way.Left? ==> w.ends[i].at.Through?))
    && ((w.worker.Idle? && w.tries == MAX_TRIES) || w.worker.GaveUp? ==> w.ends[MAX_TRIES - 1].way.Died?)
    && (w.worker.Returned? ==> |w.ends| > 0 && w.ends[|w.ends| - 1].way.Left?)
    && (w.worker.Raised? ==> |w.ends| > 0 && w.ends[|w.ends| - 1].way.Threw?)
  }

  lemma StepKeepsCounted(w: World, e: Event)
    requires Counted(w)
    ensures Counted(Step(w, e))
  {
  }

  lemma {:induction false} RunKeepsCounted(es: seq<Event>)
    ensures Counted(Run(Created(), es))
  {
    if es != [] {
      RunKeepsCounted(es[..|es| - 1]);
      StepKeepsCounted(Run(Created(), es[..|es| - 1]), es[|es| - 1]);
    }
  }

  /** The body runs at most three times, whatever happens in between. */
  lemma BodyRunsAtMostThrice(es: seq<Event>)
    ensures Run(Created(), es).row.attempts <= 3
    ensures |Run(Created(), es).ends| <= 3
  {
    RunKeepsCounted(es);
  }

  /** AGREEMENT of the two attempt limits: arq's cut-off comes into play exactly when the third run
      died; then it is due at the next start, and otherwise never. */
  lemma CutOffIff(es: seq<Event>)
    ensures var w := Run(Created(), es);
      (w.worker.GaveUp? || (w.worker.Idle? && w.tries == MAX_TRIES))
      <==> |w.ends| == MAX_TRIES && w.ends[MAX_TRIES - 1].way.Died?
  {
    RunKeepsCounted(es);
  }

  /** Nothing that can still happen writes the row of a third run that has stored its verdict. */
  lemma {:induction false} ThirdVerdictStays(w: World, es: seq<Event>)
    requires w.tries >= MAX_TRIES && Terminal(w.row.status)
    requires w.worker == In(Through) || !w.worker.In?
    ensures var w' := Run(w, es);
      w'.row == w.row && w'.tries >= MAX_TRIES && (w'.worker == In(Through) || !w'.worker.In?)
  {
    if es != [] { ThirdVerdictStays(w, es[..|es| - 1]); }
  }

  /** When the worker comes to settle a third transient failure, it closes the row as failed with a
      completion time, and that is final, even if it dies before it can say so. */
  lemma ThirdTransientFails(es: seq<Event>, now: int, later: seq<Event>)
    requires Run(Created(), es).worker == In(Collecting) && |Run(Created(), es).ends| == 2
    ensures var w := Run(Created(), es);
      var w' := Run(Step(Step(w, TransientError), Settle(now)), later);
      w'.row == Row(Failed, Some(now), w.row.attempts)
  {
    RunKeepsCounted(es);
    ThirdVerdictStays(Step(Step(Run(Created(), es), TransientError), Settle(now)), later);
  }

  // ---- What the row says afterwards ----

  /** How far the last run came that got past its opening. */
  function LastPoint(ends: seq<End>): Point {
    if ends == [] then Opening
    else if ends[|ends| - 1].at.Opening? then LastPoint(ends[..|ends| - 1])
    else ends[|ends| - 1].at
  }

  /** What a run leaves in the row when it stops there. */
  predicate Leaves(p: Point, s: Status) {
    match p
    case Opening => s.Queued?
    case Collecting => s.Running?
    case Requeued => s.Queued?
    case Through => s.Completed? || s.Failed?
  }

  predicate SomeThrough(ends: seq<End>) { exists i :: 0 <= i < |ends| && ends[i].at.Through? }

  ghost predicate Told(w: World) {
    && (w.worker == In(Through) || w.worker.Returned? ==> Terminal(w.row.status) && w.row.completedAt.Some?)
    && (Terminal(w.row.status) ==> w.row.completedAt.Some?)
    && (w.worker.Returned? ==> |w.ends| > 0 && w.ends[|w.ends| - 1].at.Through?)
    && (w.cancels == 0 ==>
          && Leaves(if w.worker.In? && w.worker.at != Opening then w.worker.at else LastPoint(w.ends), w.row.status)
          && (w.row.completedAt.Some? <==> w.worker == In(Through) || SomeThrough(w.ends)))
  }

  lemma EndTold(ends: seq<End>, e: End)
    ensures LastPoint(ends + [e]) == if e.at.Opening? then LastPoint(ends) else e.at
    ensures SomeThrough(ends + [e]) <==> SomeThrough(ends) || e.at.Through?
  {
    assert (ends + [e])[..|ends|] == ends;
    assert (ends + [e])[|ends|] == e;
    if i :| 0 <= i < |ends| && ends[i].at.Through? { assert (ends + [e])[i].at.Through?; }
  }

  lemma StepKeepsTold(w: World, e: Event)
    requires Told(w)
    ensures Told(Step(w, e))
  {
    if w.worker.In? && Step(w, e).ends != w.ends {
      EndTold(w.ends, Step(w, e).ends[|w.ends|]);
    }
  }

  lemma {:induction false} RunKeepsTold(es: seq<Event>)
    ensures Told(Run(Created(), es))
  {
    if es != [] {
      RunKeepsTold(es[..|es| - 1]);
      StepKeepsTold(Run(Created(), es[..|es| - 1]), es[|es| - 1]);
    }
  }

  /** The row of a job nobody cancelled, while no body is running, is told by how far the runs came: it
      is closed exactly when the last run that committed anything stored a verdict, whether or not
      that run lived to return it; else it is running or queued as that run left it. It has a
      completion time exactly when some run, not only the last, stored a verdict. */
  lemma ClosedIffDecided(es: seq<Event>)
    requires var w := Run(Created(), es); w.cancels == 0 && !w.worker.In?
    ensures var w := Run(Created(), es);
      && Leaves(LastPoint(w.ends), w.row.status)
      && (Terminal(w.row.status) <==> LastPoint(w.ends).Through?)
      && (w.row.completedAt.Some? <==> SomeThrough(w.ends))
  {
    RunKeepsTold(es);
  }

  /** A body that returned has left its row closed, cancelled or not. */
  lemma ReturnedIsClosed(es: seq<Event>)
    requires Run(Created(), es).worker.Returned?
    ensures Terminal(Run(Created(), es).row.status) && Run(Created(), es).row.completedAt.Some?
  {
    RunKeepsTold(es);
  }

  /** One more event at the end of a run. */
  lemma Extend(es: seq<Event>, e: Event) returns (es': seq<Event>, w: World)
    ensures es' == es + [e] && w == Run(Created(), es') == Step(Run(Created(), es), e)
  {
    es' := es + [e];
    w := Run(Created(), es');
    assert es'[..|es|] == es;
  }

  const GIVEN_UP: seq<Event> :=
    [Start, Die, Start, Die, Start, Open(0, true), PagesStored(1), Die, Start]

  /** The other direction fails: here arq has given a job up whose row says completed. */
  lemma ClosedUnreturned()
    ensures var w := Run(Created(), GIVEN_UP);
      w.worker.GaveUp? && w.row == Row(Completed, Some(1), 1) && w.cancels == 0
  {
    var s1, w1 := Extend([], Start);
    var s2, w2 := Extend(s1, Die);
    var s3, w3 := Extend(s2, Start);
    var s4, w4 := Extend(s3, Die);
    var s5, w5 := Extend(s4, Start);
    var s6, w6 := Extend(s5, Open(0, true));
    var s7, w7 := Extend(s6, PagesStored(1));
    var s8, w8 := Extend(s7, Die);
    var s9, w9 := Extend(s8, Start);
    assert s9 == GIVEN_UP;
  }

  const REOPENED: seq<Event> :=
    [Start, Open(0, true), PagesStored(1), Die, Start, Open(2, true), Unhandled]

  /** And here a row stays open, running for ever, with the completion time of an earlier run. */
  lemma StaleCompletion()
    ensures var w := Run(Created(), REOPENED);
      w.worker.Raised? && w.row == Row(Running, Some(1), 2) && w.cancels == 0
  {
    var s1, w1 := Extend([], Start);
    var s2, w2 := Extend(s1, Open(0, true));
    var s3, w3 := Extend(s2, PagesStored(1));
    var s4, w4 := Extend(s3, Die);
    var s5, w5 := Extend(s4, Start);
    var s6, w6 := Extend(s5, Open(2, true));
    var s7, w7 := Extend(s6, Unhandled);
    assert s7 == REOPENED;
  }

  // ---- Which event the row comes from ----

  /** The event commits something: the run under way has come to it, or the user finds the job open. */
  predicate Stores(w: World, e: Event) {
    match e
    case Open(_, _) => w.worker == In(Opening)
    case PagesStored(_) => w.worker == In(Collecting)
    case CollectionRejected(_) => w.worker == In(Collecting)
    case TransientError => w.worker == In(Collecting)
    case Settle(_) => w.worker == In(Requeued) && w.tries >= 3
    case UserCancel(_) => !Terminal(w.row.status)
    case _ => false
  }

  function LastStored(es: seq<Event>): Option<Event> {
    if es == [] then None
    else if Stores(Run(Created(), es[..|es| - 1]), es[|es| - 1]) then Some(es[|es| - 1])
    else LastStored(es[..|es| - 1])
  }

  /** The time of the last event that closed the row, even if it was opened again. */
  function LastClosed(es: seq<Event>): Option<int> {
    if es == [] then None
    else
      var e := es[|es| - 1];
      if Stores(Run(Created(), es[..|es| - 1]), e) && ClosedBy(e) then Some(e.now) else LastClosed(es[..|es| - 1])
  }

  predicate CompletedBy(e: Event) { e.PagesStored? }

  predicate FailedBy(e: Event) { e.CollectionRejected? || e.Settle? || (e.Open? && !e.sourceFound) }

  predicate ClosedBy(e: Event) { CompletedBy(e) || FailedBy(e) || e.UserCancel? }

  function Opened(es: seq<Event>): nat {
    if es == [] then 0
    else
      var e := es[|es| - 1];
      Opened(es[..|es| - 1]) + if e.Open? && e.sourceFound && Stores(Run(Created(), es[..|es| - 1]), e) then 1 else 0
  }

  /** THE ROW IS TOLD by the last event of the run that committed anything: completed exactly if it was
      that the pages were stored; failed exactly if there was no source, the collection was rejected or a
      third transient failure was settled; cancelled exactly if it was the user; running exactly if a
      run was opened. The completion time is that of the last event that closed the row. */
  lemma {:induction false} RowTold(es: seq<Event>)
    ensures var row, last := Run(Created(), es).row, LastStored(es);
      && (row.status.Completed? <==> last.Some? && CompletedBy(last.value))
      && (row.status.Failed? <==> last.Some? && FailedBy(last.value))
      && (row.status.Cancelled? <==> last.Some? && last.value.UserCancel?)
      && (row.status.Running? <==> last.Some? && last.value.Open? && last.value.sourceFound)
      && (row.status.Queued? <==> last.None? || last.value.TransientError?)
      && row.completedAt == LastClosed(es)
      && row.attempts == Opened(es)
  {
    if es != [] { RowTold(es[..|es| - 1]); }
  }

  /** A run of the body goes on to the next point, or is over, whatever the row says by then; what is not its
      turn does not move it. */
  lemma RunMovesOn(w: World, now: int, found: bool)
    requires w.worker.In?
    ensures Step(w, Die).worker == Idle && Step(w, Unhandled).worker == Raised && Step(w, Start) == w
    ensures Step(w, Open(now, found)).worker ==
      if w.worker.at.Opening? then In(if found then Collecting else Through) else w.worker
    ensures Step(w, PagesStored(now)).worker == if w.worker.at.Collecting? then In(Through) else w.worker
    ensures Step(w, CollectionRejected(now)).worker == if w.worker.at.Collecting? then In(Through) else w.worker
    ensures Step(w, TransientError).worker == if w.worker.at.Collecting? then In(Requeued) else w.worker
    ensures Step(w, Settle(now)).worker ==
      if w.worker.at.Requeued? then (if w.tries >= 3 then In(Through) else Idle) else w.worker
    ensures Step(w, Return).worker == if w.worker.at.Through? then Returned else w.worker
    ensures Step(w, UserCancel(now)).worker == w.worker
  {
  }

  // ---- Cancelling ----

  ghost predicate CancelSticks(w: World, now: int) {
    forall es: seq<Event> :: Run(Step(w, UserCancel(now)), es).row.status.Cancelled?
  }

  /** The run under way is going to write the row without reading it again. */
  predicate WritesBlindly(w: World) {
    w.worker == In(Opening) || w.worker == In(Collecting) || (w.worker == In(Requeued) && w.tries >= 3)
  }

  lemma {:induction false} CancelledStays(w: World, es: seq<Event>)
    requires w.row.status.Cancelled? && !WritesBlindly(w)
    ensures Run(w, es).row.status.Cancelled? && !WritesBlindly(Run(w, es))
  {
    if es != [] { CancelledStays(w, es[..|es| - 1]); }
  }

  /** What a run does next if nothing disturbs it. */
  function NextWrite(w: World, now: int): Event {
    if w.worker == In(Opening) then Open(now, true)
    else if w.worker == In(Collecting) then PagesStored(now)
    else Settle(now)
  }

  /** A cancellation of an open job is final exactly when no run is under way that has yet to write the
      row: from its first read on, a run writes over whatever the user did, except that a requeued run
      with tries to spare leaves the row alone. */
  lemma CancelSticksIff(w: World, now: int)
    requires w.row.status.Queued? || w.row.status.Running?
    ensures CancelSticks(w, now) <==> !WritesBlindly(w)
  {
    var w' := Step(w, UserCancel(now));
    if WritesBlindly(w) {
      assert [NextWrite(w, now)][..0] == [];
      assert !Run(w', [NextWrite(w, now)]).row.status.Cancelled?;
    } else {
      forall es: seq<Event> ensures Run(w', es).row.status.Cancelled? { CancelledStays(w', es); }
    }
  }

  const OVERTAKEN: seq<Event> := [Start, Open(0, true), UserCancel(1), PagesStored(2), Return]

  /** A job that was cancelled ends up completed: the user cancels while its first run is collecting. */
  lemma CancelOvertaken()
    ensures Run(Created(), OVERTAKEN[..3]).row.status.Cancelled?
    ensures Run(Created(), OVERTAKEN) == World(Row(Completed, Some(2), 1), Returned, 1, [End(Left, Through)], 1)
  {
    var s1, w1 := Extend([], Start);
    var s2, w2 := Extend(s1, Open(0, true));
    var s3, w3 := Extend(s2, UserCancel(1));
    var s4, w4 := Extend(s3, PagesStored(2));
    var s5, w5 := Extend(s4, Return);
    assert s3 == OVERTAKEN[..3] && s5 == OVERTAKEN;
  }

  // ---- The stateful side ----

  class Job {
    var status: Status
    var completedAt: Option<int>
    var attempts: nat
    var worker: Worker
    var tries: nat
    ghost var ends: seq<End>
    ghost var cancels: nat

    ghost function State(): World reads this {
      World(Row(status, completedAt, attempts), worker, tries, ends, cancels)
    }

    constructor ()
      ensures State() == Created()
    {
      status, completedAt, attempts, worker, tries, ends, cancels := Queued, None, 0, Idle, 0, [], 0;
    }

    method Close(s: Status, now: int)
      modifies this`status, this`completedAt
      ensures status == s && completedAt == Some(now)
    {
      status, completedAt := s, Some(now);
    }

    method Finish(way: Way, next: Worker)
      requires worker.In?
      modifies this`worker, this`ends
      ensures worker == next && ends == Ending(old(State()), way)
    {
      ends := ends + [End(way, worker.at)];
      worker := next;
    }

    /** One start by arq: its counter check, then run_job reads the row. */
    method Begin()
      modifies this
      ensures State() == Step(old(State()), Start)
    {
      if !worker.Idle? { return; }
      tries := tries + 1;
      if tries > MAX_TRIES { worker := GaveUp; return; }
      worker := In(if status.Cancelled? then Through else Opening);
    }

    /** The first commit of run_job. */
    method OpenRow(now: int, sourceFound: bool)
      modifies this
      ensures State() == Step(old(State()), Open(now, sourceFound))
    {
      if worker != In(Opening) { return; }
      if !sourceFound {
        Close(Failed, now);
        worker := In(Through);
        return;
      }
      status, attempts, worker := Running, attempts + 1, In(Collecting);
    }

    /** The worker reads arq's counter. */
    method SettleTransient(now: int)
      modifies this
      ensures State() == Step(old(State()), Settle(now))
    {
      if worker != In(Requeued) { return; }
      if tries >= 3 {
        Close(Failed, now);
        worker := In(Through);
      } else {
        Finish(Deferred, Idle);
      }
    }

    method Cancel(now: int)
      modifies this
      ensures State() == Step(old(State()), UserCancel(now))
    {
      if status.Queued? || status.Running? {
        Close(Cancelled, now);
        cancels := cancels + 1;
      }
    }

    method Take(e: Event)
      modifies this
      ensures State() == Step(old(State()), e)
    {
      match e
      case Start => Begin();
      case Open(now, found) => OpenRow(now, found);
      case PagesStored(now) => if worker == In(Collecting) { Close(Completed, now); worker := In(Through); }
      case CollectionRejected(now) => if worker == In(Collecting) { Close(Failed, now); worker := In(Through); }
      case TransientError => if worker == In(Collecting) { status, worker := Queued, In(Requeued); }
      case Settle(now) => SettleTransient(now);
      case Return => if worker == In(Through) { Finish(Left, Returned); }
      case Unhandled => if worker.In? { Finish(Threw, Raised); }
      case Die => if worker.In? { Finish(Died, Idle); }
      case UserCancel(now) => Cancel(now);
    }

    method Play(es: seq<Event>)
      modifies this
      ensures State() == Run(old(State()), es)
    {
      for i := 0 to |es|
        invariant State() == Run(old(State()), es[..i])
      {
        assert es[..i + 1][..i] == es[..i];
        Take(es[i]);
      }
      assert es[..|es|] == es;
    }
  }
}
