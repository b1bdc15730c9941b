/** The running service: the watcher's callbacks and the worker's loop turns,
    interleaved one at a time. The pieces of the environment the source does
    not decide (UTF-8 decoding, whether a log call raises) are parameters. */
module Service {
  import opened Wrappers
  import opened Buffer
  import Worker
  import opened Watcher

  datatype Env = Env(decode: seq<byte> -> Option<string>, raises: Job -> bool)

  /** What can happen next: a pika callback, a timer firing, a stop request,
      or one turn of the worker's loop. */
  datatype Event =
    | ConnectionOpened | ChannelOpened | ExchangeDeclareOk
    | Delivered(key: string, body: seq<byte>)
    | FlushTimer | ChannelClosed | ConnectionClosed | ReconnectTimer
    | ConsumerCancelled | CancelOk | StopRequested | WorkerTurn

  /** Callbacks that go through `_channel` arrive only while it is set, and a
      worker whose loop has returned takes no more turns. */
  predicate Enabled(s: State, e: Event)
  {
    match e
    case Delivered(_, _) => s.channel
    case ExchangeDeclareOk => s.channel
    case CancelOk => s.channel
    case WorkerTurn => !s.worker.exited
    case _ => true
  }

  ghost function Apply(s: State, e: Event, env: Env): Outcome
    requires Enabled(s, e)
  {
    match e
    case ConnectionOpened => OnConnectionOpen(s)
    case ChannelOpened => OnChannelOpen(s)
    case ExchangeDeclareOk => OnExchangeDeclareOk(s)
    case Delivered(key, body) => OnMessage(s, key, body, env.decode)
    case FlushTimer => OnFlushTimer(s)
    case ChannelClosed => OnChannelClosed(s)
    case ConnectionClosed => OnConnectionClosed(s)
    case ReconnectTimer => Reconnect(s)
    case ConsumerCancelled => OnConsumerCancelled(s)
    case CancelOk => OnCancelOk(s)
    case StopRequested => Stop(s, env.raises)
    case WorkerTurn => Outcome(s.(worker := Worker.Step(s.worker, env.raises)), [])
  }

  /** The buffer stays within the threshold, `need_exit` is set exactly when
      `_closing` is, and the worker only returns after `need_exit`. */
  ghost predicate Inv(s: State)
  {
    && |s.buffer| <= ThresholdLength
    && s.worker.needExit == s.closing
    && (s.worker.exited ==> s.worker.needExit)
  }

  /** The entry a delivery adds to what is held: a decodable non-empty body
      whose entry is not already buffered. */
  ghost function Admitted(s: State, e: Event, env: Env): multiset<Job>
  {
    match e
    case Delivered(key, body) =>
      if body != [] && env.decode(body).Some? && Job(key, env.decode(body).value) !in s.buffer
      then multiset{Job(key, env.decode(body).value)}
      else multiset{}
    case _ => multiset{}
  }

  lemma InitInv(c: Section)
    ensures Init(Some(c)).Success? && Inv(Init(Some(c)).value)
  {
  }

  lemma ApplyPreservesInv(s: State, e: Event, env: Env)
    requires Inv(s) && Enabled(s, e)
    ensures Inv(Apply(s, e, env).state)
  {
    if e.WorkerTurn? {
      Worker.StepExit(s.worker, env.raises);
    }
  }

  /** No message is lost or invented: every event keeps what is buffered,
      queued or processed, and a delivery adds its entry unless it is already
      buffered. */
  lemma ApplyConserves(s: State, e: Event, env: Env)
    requires Enabled(s, e)
    ensures Accounted(Apply(s, e, env).state) == Accounted(s) + Admitted(s, e, env)
  {
    if e.Delivered? || e.WorkerTurn? || e.StopRequested? || e.ConnectionOpened? || e.FlushTimer? {
      MovingEventConserves(s, e, env);
    } else {
      OtherEventConserves(s, e, env);
    }
  }

  /** The events that move entries: a delivery, a worker turn, a flush, stop. */
  lemma MovingEventConserves(s: State, e: Event, env: Env)
    requires e.Delivered? || e.WorkerTurn? || e.StopRequested? || e.ConnectionOpened? || e.FlushTimer?
    requires Enabled(s, e)
    ensures Accounted(Apply(s, e, env).state) == Accounted(s) + Admitted(s, e, env)
  {
    match e
    case Delivered(key, body) => DeliveryConserves(s, key, body, env);
    case WorkerTurn => TurnConserves(s, env);
    case StopRequested => StopConserves(s, env);
    case ConnectionOpened => FlushEventConserves(s, env, e);
    case FlushTimer => FlushEventConserves(s, env, e);
  }

  /** Every other event leaves the buffer, the queue and the handled jobs alone. */
  lemma OtherEventConserves(s: State, e: Event, env: Env)
    requires !(e.Delivered? || e.WorkerTurn? || e.StopRequested? || e.ConnectionOpened? || e.FlushTimer?)
    requires Enabled(s, e)
    ensures Accounted(Apply(s, e, env).state) == Accounted(s) + Admitted(s, e, env)
  {
  }

  lemma DeliveryConserves(s: State, key: string, body: seq<byte>, env: Env)
    requires s.channel
    ensures Accounted(Apply(s, Delivered(key, body), env).state)
         == Accounted(s) + Admitted(s, Delivered(key, body), env)
  {
    if body != [] && env.decode(body).Some? {
      AddConserves(PendingOf(s), Job(key, env.decode(body).value));
    }
  }

  lemma TurnConserves(s: State, env: Env)
    requires !s.worker.exited
    ensures Accounted(Apply(s, WorkerTurn, env).state) == Accounted(s)
  {
    var t := Apply(s, WorkerTurn, env).state;
    Worker.StepConserves(s.worker, env.raises);
    assert Accounted(s) == multiset(s.buffer) + Worker.Seen(s.worker);
    assert Accounted(t) == multiset(t.buffer) + Worker.Seen(t.worker);
  }

  lemma StopConserves(s: State, env: Env)
    ensures Accounted(Apply(s, StopRequested, env).state) == Accounted(s)
  {
  }

  lemma FlushEventConserves(s: State, env: Env, e: Event)
    requires e == ConnectionOpened || e == FlushTimer
    ensures Accounted(Apply(s, e, env).state) == Accounted(s)
  {
  }

  /** Once closing, always closing. */
  lemma ClosingIsPermanent(s: State, e: Event, env: Env)
    requires Enabled(s, e) && s.closing
    ensures Apply(s, e, env).state.closing
  {
  }

  /** A reconnect is scheduled only by a connection close while not closing,
      always with the fixed delay, and a new connection is opened only by the
      reconnect timer while not closing. */
  lemma ReconnectOnlyWhenOpen(s: State, e: Event, env: Env, d: nat)
    requires Enabled(s, e)
    ensures ScheduleReconnect(d) in Apply(s, e, env).actions ==>
              e == ConnectionClosed && !s.closing && d == ReconnectDelay
    ensures OpenConnection in Apply(s, e, env).actions ==> e == ReconnectTimer && !s.closing
  {
    if e.ReconnectTimer? || e.ConnectionClosed? || e.Delivered? || e.StopRequested? {
      ConnectionEventActions(s, e, env, d);
    } else {
      OtherEventActions(s, e, env, d);
    }
  }

  /** The events that can touch the connection: the close, the reconnect
      timer, a delivery's ack and stop's cancel. */
  lemma ConnectionEventActions(s: State, e: Event, env: Env, d: nat)
    requires Enabled(s, e)
    requires e.ReconnectTimer? || e.ConnectionClosed? || e.Delivered? || e.StopRequested?
    ensures ScheduleReconnect(d) in Apply(s, e, env).actions ==>
              e == ConnectionClosed && !s.closing && d == ReconnectDelay
    ensures OpenConnection in Apply(s, e, env).actions ==> e == ReconnectTimer && !s.closing
  {
    match e
    case ReconnectTimer =>
    case ConnectionClosed =>
    case Delivered(key, body) => AckActions(s, key, body, env);
    case StopRequested => StopActions(s, env);
  }

  /** Every other event only sets up, flushes or tears down a channel. */
  lemma OtherEventActions(s: State, e: Event, env: Env, d: nat)
    requires Enabled(s, e)
    requires !(e.ReconnectTimer? || e.ConnectionClosed? || e.Delivered? || e.StopRequested?)
    ensures ScheduleReconnect(d) in Apply(s, e, env).actions ==>
              e == ConnectionClosed && !s.closing && d == ReconnectDelay
    ensures OpenConnection in Apply(s, e, env).actions ==> e == ReconnectTimer && !s.closing
  {
    if e.ConnectionOpened? || e.FlushTimer? || e.ChannelOpened? || e.ExchangeDeclareOk? {
      SetupQuiet(s, e, env);
    } else {
      TeardownQuiet(s, e, env);
    }
  }

  /** Neither a reconnect nor a new connection among the actions. */
  predicate Quiet(acts: seq<Action>)
  {
    forall a :: a in acts ==> !a.ScheduleReconnect? && !a.OpenConnection?
  }

  lemma SetupQuiet(s: State, e: Event, env: Env)
    requires e == ConnectionOpened || e == FlushTimer || e == ChannelOpened || e == ExchangeDeclareOk
    requires Enabled(s, e)
    ensures Quiet(Apply(s, e, env).actions)
  {
    var acts := Apply(s, e, env).actions;
    match e
    case ConnectionOpened => assert acts == [OpenChannel, ScheduleFlush(ThresholdTime)];
    case FlushTimer => assert acts == [ScheduleFlush(ThresholdTime)];
    case ChannelOpened => assert acts == [DeclareExchange];
    case ExchangeDeclareOk => assert acts == [DeclareQueue, BindQueue, StartConsuming];
  }

  lemma TeardownQuiet(s: State, e: Event, env: Env)
    requires e == ChannelClosed || e == ConsumerCancelled || e == CancelOk || e == WorkerTurn
    requires Enabled(s, e)
    ensures Quiet(Apply(s, e, env).actions)
  {
    var acts := Apply(s, e, env).actions;
    match e
    case ChannelClosed => assert acts == [CloseConnection];
    case ConsumerCancelled => assert acts == [CloseChannel] || acts == [];
    case CancelOk => assert acts == [CloseChannel];
    case WorkerTurn => assert acts == [];
  }

  lemma AckActions(s: State, key: string, body: seq<byte>, env: Env)
    requires s.channel
    ensures forall a :: a in Apply(s, Delivered(key, body), env).actions ==> a == Ack || a == Nack
  {
  }

  lemma StopActions(s: State, env: Env)
    ensures forall a :: a in Apply(s, StopRequested, env).actions ==> a == SendCancel || a == StartLoop
  {
    var acts := Apply(s, StopRequested, env).actions;
    assert acts == StopConsuming(s) + [StartLoop];
    forall a | a in acts ensures a == SendCancel || a == StartLoop {
      if a !in StopConsuming(s) {
        assert a in [StartLoop];
      }
    }
  }

  /** The worker's loop returns only on a turn that finds the queue empty after
      stop, or inside stop's join. */
  lemma ExitOnlyAfterStop(s: State, e: Event, env: Env)
    requires Inv(s) && Enabled(s, e) && !s.worker.exited
    ensures Apply(s, e, env).state.worker.exited ==>
              e == StopRequested || (e == WorkerTurn && s.worker.queue == [] && s.closing)
  {
    if e.WorkerTurn? {
      Worker.StepExit(s.worker, env.raises);
    }
  }

  /** After the worker has returned, nothing is ever processed again. */
  lemma ExitedHandledFrozen(s: State, e: Event, env: Env)
    requires Enabled(s, e) && s.worker.exited
    ensures Apply(s, e, env).state.worker.exited
    ensures Apply(s, e, env).state.worker.handled == s.worker.handled
  {
  }

  /** A message delivered after `stop` (the loop runs again until the broker
      confirms the cancel) is acknowledged and buffered, but the worker has
      already returned, so it is never processed. */
  lemma LateDeliveryIsStranded(s: State, env: Env, key: string, body: seq<byte>)
    requires s.channel && body != [] && env.decode(body).Some?
    ensures var t := Stop(s, env.raises).state;
            var r := Apply(t, Delivered(key, body), env);
            && r.actions == [Ack]
            && Job(key, env.decode(body).value) in Accounted(r.state)
            && r.state.worker.exited
            && r.state.worker.handled == t.worker.handled
  {
    var t := Stop(s, env.raises).state;
    assert t.channel && t.worker.exited;
    var r := Apply(t, Delivered(key, body), env);
    assert r == OnMessage(t, key, body, env.decode);
    AckMeansAccepted(t, key, body, env.decode);
    assert r.state == WithPending(t, Add(PendingOf(t), Job(key, env.decode(body).value)));
  }

  /** The state after a sequence of events, if each was enabled in its turn. */
  ghost function Run(s: State, es: seq<Event>, env: Env): Option<State>
    decreases |es|
  {
    if es == [] then Some(s)
    else if !Enabled(s, es[0]) then None
    else Run(Apply(s, es[0], env).state, es[1..], env)
  }

  /** The invariant holds after every run from a state that satisfies it. */
  lemma {:induction false} RunPreservesInv(s: State, es: seq<Event>, env: Env)
    requires Inv(s) && Run(s, es, env).Some?
    ensures Inv(Run(s, es, env).value)
    decreases |es|
  {
    if es != [] {
      ApplyPreservesInv(s, es[0], env);
      RunPreservesInv(Apply(s, es[0], env).state, es[1..], env);
    }
  }

  /** Over any run, what was buffered, queued or processed at the start still is
      at the end: the service only ever adds to it. */
  lemma {:induction false} RunNeverLoses(s: State, es: seq<Event>, env: Env)
    requires Run(s, es, env).Some?
    ensures Accounted(s) <= Accounted(Run(s, es, env).value)
    decreases |es|
  {
    if es != [] {
      ApplyConserves(s, es[0], env);
      RunNeverLoses(Apply(s, es[0], env).state, es[1..], env);
    }
  }
}
