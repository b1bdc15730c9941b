/** The dispatch worker (worker.py): a loop that takes jobs from the front of
    the shared FIFO, processes each once, and leaves only when the FIFO is empty
    and `need_exit` is set. Threads and sleeps are replaced by a step function
    that a scheduler interleaves with the watcher's callbacks. */
module Worker {
  import opened Buffer

  /** A model-only record that `message_processing` handled a job: normally,
      or with an exception raised inside its `try` and caught. It is not log
      output: at the logger's INFO level the debug line is not written. */
  datatype Handling = Handled(job: Job) | Caught(job: Job)

  /** The worker's view: the FIFO it shares with the watcher, its exit flag,
      what it has processed so far, and whether its loop has returned. */
  datatype State = State(queue: seq<Job>, needExit: bool, handled: seq<Handling>, exited: bool)

  /** The jobs a handling record speaks about, in processing order. */
  function Jobs(hs: seq<Handling>): (js: seq<Job>)
    ensures |js| == |hs|
    ensures forall i :: 0 <= i < |hs| ==> js[i] == hs[i].job
  {
    seq(|hs|, i requires 0 <= i < |hs| => hs[i].job)
  }

  lemma JobsAppend(hs: seq<Handling>, h: Handling)
    ensures Jobs(hs + [h]) == Jobs(hs) + [h.job]
  {
  }

  /** The constructor: `need_exit` starts false and nothing is processed yet. */
  function Init(queue: seq<Job>): (w: State)
    ensures !w.needExit && !w.exited && w.handled == [] && w.queue == queue
  {
    State(queue, false, [], false)
  }

  /** `message_processing`: handle the job. `raises` over-approximates an
      exception inside the `try`; it is caught, never propagated. */
  function ProcessJob(job: Job, raises: bool): (h: Handling)
    ensures h.job == job
    ensures h.Caught? <==> raises
  {
    if raises then Caught(job) else Handled(job)
  }

  /** One turn of the `while True` loop in `run`. An exited worker does nothing. */
  function Step(w: State, raises: Job -> bool): (r: State)
  {
    if w.exited then w
    else if |w.queue| > 0 then
      var job := w.queue[0];
      w.(queue := w.queue[1..], handled := w.handled + [ProcessJob(job, raises(job))])
    else if w.needExit then w.(exited := true)
    else w
  }

  /** A job is taken only from a non-empty queue, it is the front one, it is
      processed exactly once and removed, and the loop goes on whatever the
      processing did. */
  lemma StepTakesFront(w: State, raises: Job -> bool)
    requires !w.exited && |w.queue| > 0
    ensures var r := Step(w, raises);
            && r.queue == w.queue[1..]
            && Jobs(r.handled) == Jobs(w.handled) + [w.queue[0]]
            && !r.exited
            && r.needExit == w.needExit
  {
    JobsAppend(w.handled, ProcessJob(w.queue[0], raises(w.queue[0])));
  }

  /** Whatever happens inside `message_processing`, the loop turn removes the
      same job, records it as handled and goes on: only the kind of record
      differs. */
  lemma ProcessingOutcomeIrrelevant(w: State, raises: Job -> bool, raises': Job -> bool)
    requires !w.exited && |w.queue| > 0
    ensures Step(w, raises).queue == Step(w, raises').queue
    ensures Jobs(Step(w, raises).handled) == Jobs(Step(w, raises').handled)
    ensures Step(w, raises).exited == Step(w, raises').exited
  {
    StepTakesFront(w, raises);
    StepTakesFront(w, raises');
  }

  /** Jobs queued or processed: a turn of the loop moves a job from the
      queue to the handled records and never loses or invents one. */
  function Seen(w: State): multiset<Job>
  {
    multiset(w.queue) + multiset(Jobs(w.handled))
  }

  lemma StepConserves(w: State, raises: Job -> bool)
    ensures Seen(Step(w, raises)) == Seen(w)
  {
    if !w.exited && |w.queue| > 0 {
      StepTakesFront(w, raises);
      assert w.queue == [w.queue[0]] + w.queue[1..];
    }
  }

  /** The loop leaves exactly when the queue is empty and `need_exit` is set;
      an empty queue without `need_exit` only waits. */
  lemma StepExit(w: State, raises: Job -> bool)
    requires !w.exited
    ensures Step(w, raises).exited <==> w.queue == [] && w.needExit
    ensures w.queue == [] && !w.needExit ==> Step(w, raises) == w
  {
  }

  /** Where the thread is inside one turn of `run`: about to test the queue
      (worker.py:20), or having found it empty and about to read `need_exit`
      (worker.py:25). */
  datatype Phase = TestQueue | TestExit

  /** The worker thread between two of its reads. */
  datatype Thread = Thread(w: State, phase: Phase)

  /** One read of the loop as the source writes it. The emptiness test and the
      `need_exit` test are separate, and the watcher may run between them. */
  function SplitTurn(t: Thread, raises: Job -> bool): (r: Thread)
    ensures Seen(r.w) == Seen(t.w) && r.w.needExit == t.w.needExit
    ensures r.w.exited && !t.w.exited ==> t.phase == TestExit && t.w.needExit && r.w.queue == t.w.queue
  {
    if t.w.exited then t
    else match t.phase
      case TestQueue =>
        if |t.w.queue| > 0 then StepConserves(t.w, raises); Thread(Step(t.w, raises), TestQueue)
        else Thread(t.w, TestExit)
      case TestExit =>
        if t.w.needExit then Thread(t.w.(exited := true), TestExit) else Thread(t.w, TestQueue)
  }

  /** The exit race: the thread finds the queue empty, then `stop` flushes a job
      onto the queue and sets `need_exit` before the thread reads it. The
      thread then leaves with the job still queued and never handled. */
  lemma ExitRace(j: Job, raises: Job -> bool)
    ensures var t := SplitTurn(Thread(Init([]), TestQueue), raises);
            var stopped := Thread(t.w.(queue := [j], needExit := true), t.phase);
            var r := SplitTurn(stopped, raises);
            && r.w.exited
            && r.w.queue == [j]
            && j !in Jobs(r.w.handled)
  {
  }

  /** The loop as evidently intended: leave only when `need_exit` is set and
      the queue is still empty at that moment. */
  function RecheckedTurn(t: Thread, raises: Job -> bool): (r: Thread)
    ensures Seen(r.w) == Seen(t.w) && r.w.needExit == t.w.needExit
    ensures r.w.exited && !t.w.exited ==> t.w.needExit && t.w.queue == [] && r.w.queue == []
  {
    if t.w.exited then t
    else match t.phase
      case TestQueue =>
        if |t.w.queue| > 0 then StepConserves(t.w, raises); Thread(Step(t.w, raises), TestQueue)
        else Thread(t.w, TestExit)
      case TestExit =>
        if t.w.needExit && t.w.queue == [] then Thread(t.w.(exited := true), TestExit)
        else Thread(t.w, TestQueue)
  }

  /** Whatever the watcher does between two reads, the rechecked loop never
      leaves a job queued: in the race above it goes back and handles `j`. */
  lemma RecheckedHandlesRace(j: Job, raises: Job -> bool)
    ensures var t := RecheckedTurn(Thread(Init([]), TestQueue), raises);
            var stopped := Thread(t.w.(queue := [j], needExit := true), t.phase);
            var r := RecheckedTurn(RecheckedTurn(stopped, raises), raises);
            && !RecheckedTurn(stopped, raises).w.exited
            && r.w.queue == []
            && Jobs(r.w.handled) == [j]
  {
  }

  /** With no interference between its reads, the rechecked loop takes the
      same turn as `Step`: one read for a job, two to wait or to leave. So
      `Step`, which the rest of the model uses, is the rechecked loop. */
  lemma RecheckedTurnIsStep(w: State, raises: Job -> bool)
    requires !w.exited
    ensures |w.queue| > 0 ==> RecheckedTurn(Thread(w, TestQueue), raises).w == Step(w, raises)
    ensures w.queue == [] ==>
              RecheckedTurn(RecheckedTurn(Thread(w, TestQueue), raises), raises).w == Step(w, raises)
  {
  }

  /** `n` turns of the loop. */
  function Run(w: State, n: nat, raises: Job -> bool): (r: State)
    decreases n
  {
    if n == 0 then w else Run(Step(w, raises), n - 1, raises)
  }

  /** The worker drains its queue front-first: after `n` turns of a worker that
      has not exited, the first `n` jobs (or all of them) are processed in queue
      order and the rest are still waiting. */
  lemma {:induction false} RunIsFifo(w: State, n: nat, raises: Job -> bool)
    requires !w.exited
    ensures var k := if n < |w.queue| then n else |w.queue|;
            var r := Run(w, n, raises);
            r.queue == w.queue[k..] && Jobs(r.handled) == Jobs(w.handled) + w.queue[..k]
    decreases n
  {
    if n > 0 {
      var s := Step(w, raises);
      if |w.queue| > 0 {
        StepTakesFront(w, raises);
        RunIsFifo(s, n - 1, raises);
        var q := w.queue;
        var k := if n < |q| then n else |q|;
        assert q[1..][k - 1..] == q[k..];
        assert [q[0]] + q[1..][..k - 1] == q[..k];
      } else {
        RunStaysEmpty(s, n - 1, raises);
      }
    }
  }

  /** Once the queue is empty, further turns process nothing. */
  lemma {:induction false} RunStaysEmpty(w: State, n: nat, raises: Job -> bool)
    requires w.queue == []
    ensures Run(w, n, raises).queue == [] && Run(w, n, raises).handled == w.handled
    decreases n
  {
    if n > 0 {
      RunStaysEmpty(Step(w, raises), n - 1, raises);
    }
  }

  /** While `need_exit` is false the loop never returns, however long it runs. */
  lemma {:induction false} NoExitWithoutRequest(w: State, n: nat, raises: Job -> bool)
    requires !w.exited && !w.needExit
    ensures !Run(w, n, raises).exited
    decreases n
  {
    if n > 0 {
      NoExitWithoutRequest(Step(w, raises), n - 1, raises);
    }
  }

  /** `join()` after `need_exit` is set: run the loop until it returns. Every
      job still queued is processed, in order, before the worker exits. A worker
      that has already exited returns at once. */
  function Join(w: State, raises: Job -> bool): (r: State)
    requires w.needExit
    ensures r.exited && r.needExit
    ensures w.exited ==> r == w
    ensures !w.exited ==> r.queue == [] && Jobs(r.handled) == Jobs(w.handled) + w.queue
    decreases |w.queue|, !w.exited
  {
    if w.exited then w
    else if |w.queue| > 0 then
      StepTakesFront(w, raises);
      var r := Join(Step(w, raises), raises);
      assert [w.queue[0]] + w.queue[1..] == w.queue;
      r
    else Join(Step(w, raises), raises)
  }

  /** Joining a worker whose handled jobs and queue read `before + flushed`
      leaves exactly that sequence handled. */
  lemma JoinAppends(w: State, raises: Job -> bool, before: seq<Job>, flushed: seq<Job>)
    requires w.needExit && !w.exited && Jobs(w.handled) + w.queue == before + flushed
    ensures var after := Jobs(Join(w, raises).handled);
            && Join(w, raises).queue == []
            && |after| == |before| + |flushed|
            && after[..|before|] == before && after[|before|..] == flushed
  {
    var after := Jobs(Join(w, raises).handled);
    assert after == before + flushed;
  }

  /** `Join` is the loop run for one turn per queued job plus the turn that exits. */
  lemma {:induction false} JoinIsRun(w: State, raises: Job -> bool)
    requires w.needExit && !w.exited
    ensures Join(w, raises) == Run(w, |w.queue| + 1, raises)
    decreases |w.queue|
  {
    if |w.queue| > 0 {
      StepTakesFront(w, raises);
      JoinIsRun(Step(w, raises), raises);
    }
  }
}
