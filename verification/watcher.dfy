/** The broker consumer (watcher.py, class `Watcher`) with pika taken away:
    its fields become one immutable record, each callback becomes a transition
    on that record, and the calls it makes into pika become emitted actions. */
module Watcher {
  import opened Wrappers
  import opened Buffer
  import Worker

  /** Seconds `on_connection_closed` waits before `reconnect`. */
  const ReconnectDelay: nat := 5

  newtype byte = b: int | 0 <= b < 256

  /** A configuration value as read from the `amqp` section. */
  datatype Setting = Text(text: string) | Flag(flag: bool)

  type Section = map<string, Setting>

  /** The broker settings `__init__` reads from the `amqp` section. */
  datatype Settings = Settings(
    brokerUrl: Setting, queueName: Setting, exchange: Setting, exchangeType: Setting,
    routingKey: Setting, durable: Setting, autoDelete: Setting)

  /** `__init__` with no `amqp` section looks keys up in the default `''`,
      which raises `AttributeError`. */
  datatype InitError = NoAmqpSection

  /** `_buffer`, `_closing`, whether `_channel` is set, and the worker, which
      holds the FIFO `_messages` and `need_exit`. */
  datatype State = State(settings: Settings, buffer: set<Job>, closing: bool, channel: bool, worker: Worker.State)

  /** The calls into pika a transition makes, in order. */
  datatype Action =
    | Ack | Nack
    | OpenChannel | DeclareExchange | DeclareQueue | BindQueue | StartConsuming
    | ScheduleFlush(delay: nat) | ScheduleReconnect(delay: nat)
    | StopLoop | StartLoop | OpenConnection
    | CloseChannel | CloseConnection | SendCancel

  datatype Outcome = Outcome(state: State, actions: seq<Action>)

  /** `amqp.get(key, default)`. */
  function Get(section: Section, key: string, default: Setting): Setting
  {
    if key in section then section[key] else default
  }

  /** The keys the configuration schema requires in the `amqp` section. */
  const SchemaKeys: set<string> :=
    {"broker_url", "queue", "exchange", "exchange_type", "routing_key", "durable", "auto_delete"}

  /** `Watcher.__init__`: settings from the `amqp` section with defaults, an
      empty buffer, not closing, no channel, and a fresh worker on an empty queue. */
  function Init(amqp: Option<Section>): (r: Result<State, InitError>)
    ensures r.Failure? <==> amqp.None?
    ensures r.Success? ==>
              && r.value.buffer == {} && !r.value.closing && !r.value.channel
              && r.value.worker.queue == [] && r.value.worker.handled == []
              && !r.value.worker.needExit && !r.value.worker.exited
  {
    match amqp
    case None => Failure(NoAmqpSection)
    case Some(c) =>
      var settings := Settings(
        Get(c, "broker_url", Text("")), Get(c, "queue", Text("test")), Get(c, "exchange", Text("test")),
        Get(c, "exchange_type", Text("topic")), Get(c, "routing_key", Text("*")),
        Get(c, "durable", Flag(true)), Get(c, "auto_delete", Flag(false)));
      Success(State(settings, {}, false, false, Worker.Init([])))
  }

  /** An empty `amqp` section yields the documented defaults. */
  lemma InitDefaults()
    ensures Init(Some(map[])).Success?
    ensures Init(Some(map[])).value.settings
         == Settings(Text(""), Text("test"), Text("test"), Text("topic"), Text("*"), Flag(true), Flag(false))
  {
  }

  /** A section that passes the schema is taken verbatim: no default is used. */
  lemma InitFromSchema(c: Section)
    requires SchemaKeys <= c.Keys
    ensures Init(Some(c)).Success?
    ensures Init(Some(c)).value.settings
         == Settings(c["broker_url"], c["queue"], c["exchange"], c["exchange_type"],
                     c["routing_key"], c["durable"], c["auto_delete"])
  {
  }

  function PendingOf(s: State): Pending
  {
    Pending(s.buffer, s.worker.queue)
  }

  function WithPending(s: State, p: Pending): State
  {
    s.(buffer := p.buffer, worker := s.worker.(queue := p.queue))
  }

  /** Every accepted message that has not been lost: buffered, queued, or processed. */
  ghost function Accounted(s: State): multiset<Job>
  {
    Held(PendingOf(s)) + multiset(Worker.Jobs(s.worker.handled))
  }

  /** `buffer_processing`: the buffer is emptied onto the end of the queue, each
      entry once, in some order; nothing else changes. */
  ghost function BufferProcessing(s: State): (r: State)
    ensures r.buffer == {}
    ensures |r.worker.queue| == |s.worker.queue| + |s.buffer|
    ensures r.worker.queue[..|s.worker.queue|] == s.worker.queue
    ensures multiset(r.worker.queue[|s.worker.queue|..]) == multiset(s.buffer)
    ensures r.worker.handled == s.worker.handled && r.worker.needExit == s.worker.needExit
    ensures r.worker.exited == s.worker.exited
    ensures r.closing == s.closing && r.channel == s.channel && r.settings == s.settings
    ensures Accounted(r) == Accounted(s)
  {
    FlushConserves(s.buffer, s.worker.queue);
    WithPending(s, Pending({}, Flush(s.buffer, s.worker.queue)))
  }

  /** Flushing an already flushed buffer does nothing, so two flushes in a row
      drain exactly the entries present at the first. */
  lemma BufferProcessingIdempotent(s: State)
    ensures BufferProcessing(BufferProcessing(s)) == BufferProcessing(s)
  {
    var r := BufferProcessing(s);
    assert WithPending(r, Pending({}, Flush({}, r.worker.queue))) == r;
  }

  /** `on_connection_open`: open a channel and start the flush timer, whose
      first run flushes at once and re-arms itself. */
  ghost function OnConnectionOpen(s: State): (r: Outcome)
    ensures r.state.buffer == {} && Accounted(r.state) == Accounted(s)
    ensures r.state.closing == s.closing && r.state.channel == s.channel
    ensures r.actions == [OpenChannel, ScheduleFlush(ThresholdTime)]
  {
    Outcome(BufferProcessing(s), [OpenChannel, ScheduleFlush(ThresholdTime)])
  }

  /** `timer_buffer_processing`: flush, then re-arm after the time threshold. */
  ghost function OnFlushTimer(s: State): (r: Outcome)
    ensures r.state.buffer == {} && Accounted(r.state) == Accounted(s)
    ensures r.state.closing == s.closing && r.state.channel == s.channel
    ensures r.actions == [ScheduleFlush(ThresholdTime)]
  {
    Outcome(BufferProcessing(s), [ScheduleFlush(ThresholdTime)])
  }

  /** `on_channel_open`: remember the channel and declare the exchange. */
  function OnChannelOpen(s: State): (r: Outcome)
    ensures r.state.channel
    ensures r.state.buffer == s.buffer && r.state.worker == s.worker && r.state.closing == s.closing
    ensures r.actions == [DeclareExchange]
  {
    Outcome(s.(channel := true), [DeclareExchange])
  }

  /** `on_exchange_declareok`: declare and bind the queue, then consume from it. */
  function OnExchangeDeclareOk(s: State): (r: Outcome)
    requires s.channel
    ensures r.state == s
    ensures r.actions == [DeclareQueue, BindQueue, StartConsuming]
  {
    Outcome(s, [DeclareQueue, BindQueue, StartConsuming])
  }

  /** `on_channel_closed`: close the connection. */
  function OnChannelClosed(s: State): (r: Outcome)
    ensures r.state == s && r.actions == [CloseConnection]
  {
    Outcome(s, [CloseConnection])
  }

  /** `on_connection_closed`: forget the channel; stop the loop when closing,
      otherwise schedule a reconnect after the fixed delay. */
  function OnConnectionClosed(s: State): (r: Outcome)
    ensures !r.state.channel
    ensures r.state.buffer == s.buffer && r.state.worker == s.worker && r.state.closing == s.closing
    ensures s.closing ==> r.actions == [StopLoop]
    ensures !s.closing ==> r.actions == [ScheduleReconnect(ReconnectDelay)]
  {
    var t := s.(channel := false);
    if s.closing then Outcome(t, [StopLoop]) else Outcome(t, [ScheduleReconnect(ReconnectDelay)])
  }

  /** `reconnect`: stop the current loop; unless closing, connect anew and run
      a new loop. */
  function Reconnect(s: State): (r: Outcome)
    ensures r.state == s
    ensures OpenConnection in r.actions <==> !s.closing
    ensures |r.actions| > 0 && r.actions[0] == StopLoop
  {
    Outcome(s, [StopLoop] + (if s.closing then [] else [OpenConnection, StartLoop]))
  }

  /** `on_consumer_cancelled`: close the channel if there is one. */
  function OnConsumerCancelled(s: State): (r: Outcome)
    ensures r.state == s
    ensures CloseChannel in r.actions <==> s.channel
  {
    Outcome(s, if s.channel then [CloseChannel] else [])
  }

  /** `stop_consuming`: send `Basic.Cancel` only over an existing channel. */
  function StopConsuming(s: State): (acts: seq<Action>)
    ensures SendCancel in acts <==> s.channel
    ensures forall a :: a in acts ==> a == SendCancel
  {
    if s.channel then [SendCancel] else []
  }

  /** `on_cancelok`: close the channel. */
  function OnCancelOk(s: State): (r: Outcome)
    requires s.channel
    ensures r.state == s && r.actions == [CloseChannel]
  {
    Outcome(s, [CloseChannel])
  }

  /** `message_processing`: whether it returned `True`, and the state after it. */
  datatype Processed = Processed(ok: bool, state: State)

  /** `message_processing`: an empty body is accepted and ignored; a body that
      does not decode makes it return `False` with nothing changed; otherwise
      the (routing key, text) entry is buffered and the buffer flushed once it
      exceeds the threshold. */
  ghost function MessageProcessing(s: State, key: string, body: seq<byte>,
                                   decode: seq<byte> -> Option<string>): (r: Processed)
    ensures r.ok <==> body == [] || decode(body).Some?
    ensures !r.ok || body == [] ==> r.state == s
    ensures r.ok && body != [] ==>
              var job := Job(key, decode(body).value);
              && r.state == WithPending(s, Add(PendingOf(s), job))
              && (job in r.state.buffer || job in r.state.worker.queue[|s.worker.queue|..])
    ensures |r.state.buffer| <= ThresholdLength || r.state == s
  {
    if body == [] then Processed(true, s)
    else match decode(body)
      case None => Processed(false, s)
      case Some(text) => Processed(true, WithPending(s, Add(PendingOf(s), Job(key, text))))
  }

  /** `on_message`: acknowledge what `message_processing` accepted and reject
      the rest. The acknowledgement goes through the channel, which is set
      whenever pika delivers. */
  ghost function OnMessage(s: State, key: string, body: seq<byte>,
                           decode: seq<byte> -> Option<string>): (r: Outcome)
    requires s.channel
    ensures r.actions == [Ack] || r.actions == [Nack]
    ensures r.actions == [Ack] <==> body == [] || decode(body).Some?
    ensures r.actions == [Nack] ==> r.state == s
  {
    var p := MessageProcessing(s, key, body, decode);
    Outcome(p.state, if p.ok then [Ack] else [Nack])
  }

  /** An acknowledged message is never lost: a non-empty body's entry is
      buffered or queued, and what was held before is still held. */
  lemma AckMeansAccepted(s: State, key: string, body: seq<byte>, decode: seq<byte> -> Option<string>)
    requires s.channel
    ensures var r := OnMessage(s, key, body, decode);
            r.actions == [Ack] && body != [] ==>
              Job(key, decode(body).value) in Accounted(r.state) && Accounted(s) <= Accounted(r.state)
  {
    var r := OnMessage(s, key, body, decode);
    if r.actions == [Ack] && body != [] {
      AddConserves(PendingOf(s), Job(key, decode(body).value));
    }
  }

  /** `stop`: flush the buffer, set `_closing` and `need_exit`, wait for the
      worker to drain the queue and exit, cancel the consumer if there is a
      channel, and run the loop until the broker closes. Nothing buffered or
      queued beforehand is left unprocessed. */
  ghost function Stop(s: State, raises: Job -> bool): (r: Outcome)
    ensures r.state.buffer == {} && r.state.closing && r.state.worker.needExit && r.state.worker.exited
    ensures r.state.channel == s.channel && r.state.settings == s.settings
    ensures !s.worker.exited ==>
              var before := Worker.Jobs(s.worker.handled) + s.worker.queue;
              var after := Worker.Jobs(r.state.worker.handled);
              && r.state.worker.queue == []
              && |after| == |before| + |s.buffer|
              && after[..|before|] == before
              && multiset(after[|before|..]) == multiset(s.buffer)
    ensures Accounted(r.state) == Accounted(s)
    ensures r.actions == StopConsuming(s) + [StartLoop]
  {
    var f := BufferProcessing(s);
    var w := Worker.Join(f.worker.(needExit := true), raises);
    var t := f.(closing := true, worker := w);
    FlushThenJoin(s, raises);
    Outcome(t, StopConsuming(t) + [StartLoop])
  }

  /** What `buffer_processing` appended to the queue: the former buffer, each entry once. */
  ghost function FlushedTail(s: State): (flushed: seq<Job>)
    ensures BufferProcessing(s).worker.queue == s.worker.queue + flushed
    ensures |flushed| == |s.buffer| && multiset(flushed) == multiset(s.buffer)
  {
    var q := BufferProcessing(s).worker.queue;
    assert q == q[..|s.worker.queue|] + q[|s.worker.queue|..];
    q[|s.worker.queue|..]
  }

  /** The worker's handled jobs after `stop`'s flush and join: the old ones, then the old
      queue in order, then the former buffer in some order. */
  lemma FlushThenJoin(s: State, raises: Job -> bool)
    ensures var f := BufferProcessing(s);
            var w := Worker.Join(f.worker.(needExit := true), raises);
            var before := Worker.Jobs(s.worker.handled) + s.worker.queue;
            var after := Worker.Jobs(w.handled);
            && (s.worker.exited ==> w == f.worker.(needExit := true))
            && (!s.worker.exited ==>
                  && w.queue == []
                  && |after| == |before| + |s.buffer|
                  && after[..|before|] == before
                  && multiset(after[|before|..]) == multiset(s.buffer))
  {
    if !s.worker.exited {
      FlushThenJoinRunning(s, raises);
    }
  }

  /** The case of a worker still running when `stop` begins. */
  lemma FlushThenJoinRunning(s: State, raises: Job -> bool)
    requires !s.worker.exited
    ensures var w := Worker.Join(BufferProcessing(s).worker.(needExit := true), raises);
            var before := Worker.Jobs(s.worker.handled) + s.worker.queue;
            var after := Worker.Jobs(w.handled);
            && w.queue == []
            && |after| == |before| + |s.buffer|
            && after[..|before|] == before
            && multiset(after[|before|..]) == multiset(s.buffer)
  {
    var flushed := FlushedTail(s);
    Worker.JoinAppends(BufferProcessing(s).worker.(needExit := true), raises,
                       Worker.Jobs(s.worker.handled) + s.worker.queue, flushed);
  }
}
