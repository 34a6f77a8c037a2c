/** rmq/consumer.go: a consumer owns one connection and one channel on a queue it is
    given by name, and drains up to `n` messages from it, giving up if nothing arrives
    in the first idle window. Broker calls are abstract, as in the publisher. */
module RmqConsumer {
  import opened Wrappers
  import opened Amqp
  import Stats

  /** The idle window of `Consume`, in seconds. */
  const IdleWindow: int := 30

  /** The prefetch count set by `AssertQueue`. */
  const PrefetchCount: int := 4

  // ---------------------------------------------------------------- the one-shot timer

  /** rmq/consumer.go's `timer`: a watcher started once, which puts a single signal in a
      one-slot buffer when its ticker first fires and then ends. `sent` counts the
      signals it ever put in the buffer. */
  class Timer {
    const timeout: int
    var waiting: bool       // the watcher is still waiting for its ticker or its context
    var signal: seq<bool>   // the buffered channel of capacity 1
    ghost var sent: nat

    ghost predicate Valid()
      reads this
    {
      |signal| <= sent <= 1 && (waiting ==> sent == 0)
    }

    /** `createTimer`: nothing started, nothing sent. */
    constructor (timeout: int)
      ensures Valid() && this.timeout == timeout
      ensures !waiting && signal == [] && sent == 0
    {
      this.timeout := timeout;
      waiting := false;
      signal := [];
      sent := 0;
    }

    /** `start`: launches the watcher. */
    method Start()
      requires Valid() && sent == 0
      modifies this
      ensures Valid() && waiting && signal == old(signal) && sent == 0
    {
      waiting := true;
    }

    /** The ticker fires: a waiting watcher sends its one signal and ends; otherwise
        nothing happens, so an instance never signals twice. */
    method Elapse()
      requires Valid()
      modifies this
      ensures Valid()
      ensures old(waiting) ==> !waiting && signal == old(signal) + [true] && sent == old(sent) + 1
      ensures !old(waiting) ==> waiting == old(waiting) && signal == old(signal) && sent == old(sent)
    {
      if waiting {
        signal := signal + [true];
        waiting := false;
        sent := sent + 1;
      }
    }

    /** The watcher's context is done: it ends without sending. */
    method Stop()
      requires Valid()
      modifies this
      ensures Valid() && !waiting && signal == old(signal) && sent == old(sent)
    {
      waiting := false;
    }

    /** A `select` case on the signal channel: takes the signal if one is buffered. */
    method Poll() returns (fired: bool)
      requires Valid()
      modifies this
      ensures Valid()
      ensures fired <==> old(signal) != []
      ensures signal == [] && waiting == old(waiting) && sent == old(sent)
    {
      fired := signal != [];
      signal := [];
    }
  }

  // ---------------------------------------------------------------- the drain loop

  /** What the `select` of `Consume` receives next: the idle window elapsed, the
      consumer's context was cancelled, or a message was delivered. */
  datatype Event = Timeout | Cancel | Delivery

  /** The loop variables, with the timer's state: whether it can still signal, and how
      many of its signals the loop has taken. */
  datatype DrainState = DrainState(counter: int, delta: int, armed: bool, timeouts: nat)

  /** How the loop ends; `Waiting` means the events ran out while it still waits. */
  datatype DrainEnd = Drained | IdleTimeout | Canceled | Waiting

  /** The end, the final loop state, and how many events were read. */
  datatype DrainOutcome = DrainOutcome(end: DrainEnd, state: DrainState, used: nat)

  /** The loop from event `i` on. A `Timeout` after the timer has signalled once
      reaches nothing: its channel never delivers again. */
  function DrainFrom(n: int, events: seq<Event>, i: nat, s: DrainState): DrainOutcome
    requires i <= |events|
    decreases |events| - i
  {
    if i == |events| then DrainOutcome(Waiting, s, i)
    else match events[i]
      case Timeout =>
        if !s.armed then DrainFrom(n, events, i + 1, s)
        else
          var fired := s.(armed := false, timeouts := s.timeouts + 1);
          if s.delta == 0 then DrainOutcome(IdleTimeout, fired, i + 1)
          else DrainFrom(n, events, i + 1, fired.(delta := 0))
      case Cancel => DrainOutcome(Canceled, s, i + 1)
      case Delivery =>
        var got := s.(counter := s.counter + 1, delta := s.delta + 1);
        if got.counter == n then DrainOutcome(Drained, got, i + 1)
        else DrainFrom(n, events, i + 1, got)
  }

  /** The state the loop starts in: counters at 0, timer armed. */
  const Start: DrainState := DrainState(0, 0, true, 0)

  /** The whole drain loop of `Consume(n)` over `events`. */
  function Drain(n: int, events: seq<Event>): DrainOutcome
  {
    DrainFrom(n, events, 0, Start)
  }

  /** What holds of the loop variables at every iteration: `delta` counts part of what
      `counter` counts, the timer signals at most once, and until it has signalled
      `delta` is everything received. */
  predicate Counters(s: DrainState)
  {
    && 0 <= s.delta <= s.counter
    && s.timeouts <= 1
    && (s.armed <==> s.timeouts == 0)
    && (s.armed ==> s.delta == s.counter)
  }

  /** The loop keeps `Counters`; in particular the time-out branch runs at most once
      per call. The count never goes down and only events that exist are read. */
  lemma {:induction false} DrainKeepsCounters(n: int, events: seq<Event>, i: nat, s: DrainState)
    requires i <= |events| && Counters(s)
    ensures var o := DrainFrom(n, events, i, s);
      Counters(o.state) && o.state.timeouts <= 1 && s.counter <= o.state.counter && i <= o.used <= |events|
    decreases |events| - i
  {
    if i < |events| {
      match events[i]
      case Timeout =>
        if !s.armed {
          DrainKeepsCounters(n, events, i + 1, s);
        } else if s.delta != 0 {
          DrainKeepsCounters(n, events, i + 1, s.(armed := false, timeouts := s.timeouts + 1, delta := 0));
        }
      case Cancel =>
      case Delivery =>
        var got := s.(counter := s.counter + 1, delta := s.delta + 1);
        if got.counter != n {
          DrainKeepsCounters(n, events, i + 1, got);
        }
    }
  }

  /** For `n >= 1` the loop never counts past `n`, and it ends without error and
      without cancellation exactly when the count reaches `n`. For `n < 1` it never
      ends that way. */
  lemma {:induction false} DrainedExactlyAtN(n: int, events: seq<Event>, i: nat, s: DrainState)
    requires i <= |events| && s.counter >= 0
    requires n >= 1 ==> s.counter < n
    ensures var o := DrainFrom(n, events, i, s);
      (n >= 1 ==> o.state.counter <= n && (o.end == Drained <==> o.state.counter == n))
      && (n < 1 ==> o.end != Drained)
    decreases |events| - i
  {
    if i < |events| {
      match events[i]
      case Timeout =>
        if !s.armed {
          DrainedExactlyAtN(n, events, i + 1, s);
        } else if s.delta != 0 {
          DrainedExactlyAtN(n, events, i + 1, s.(armed := false, timeouts := s.timeouts + 1, delta := 0));
        }
      case Cancel =>
      case Delivery =>
        var got := s.(counter := s.counter + 1, delta := s.delta + 1);
        if got.counter != n {
          DrainedExactlyAtN(n, events, i + 1, got);
        }
    }
  }

  /** Number of deliveries among `events`. */
  function Deliveries(events: seq<Event>): nat
  {
    if events == [] then 0
    else (if events[0] == Delivery then 1 else 0) + Deliveries(events[1..])
  }

  /** Reading one more event adds one delivery exactly when that event is one. */
  lemma {:induction false} DeliveriesAppend(events: seq<Event>, e: Event)
    ensures Deliveries(events + [e]) == Deliveries(events) + (if e == Delivery then 1 else 0)
  {
    if events != [] {
      assert (events + [e])[1..] == events[1..] + [e];
      DeliveriesAppend(events[1..], e);
    }
  }

  /** The count is the number of deliveries read, and the loop stops reading only
      when it ends. */
  lemma {:induction false} CountIsDeliveries(n: int, events: seq<Event>, i: nat, s: DrainState)
    requires i <= |events|
    ensures var o := DrainFrom(n, events, i, s);
      i <= o.used <= |events|
      && o.state.counter == s.counter + Deliveries(events[i..o.used])
      && (o.end == Waiting ==> o.used == |events|)
    decreases |events| - i
  {
    var o := DrainFrom(n, events, i, s);
    if i < |events| {
      var next :| true;
      match events[i]
      case Timeout =>
        if !s.armed {
          next := s;
        } else {
          next := s.(armed := false, timeouts := s.timeouts + 1, delta := 0);
        }
        if !s.armed || s.delta != 0 {
          CountIsDeliveries(n, events, i + 1, next);
          assert events[i..o.used] == [events[i]] + events[i + 1..o.used];
        } else {
          assert events[i..o.used] == [Timeout];
        }
      case Cancel =>
        assert events[i..o.used] == [Cancel];
      case Delivery =>
        var got := s.(counter := s.counter + 1, delta := s.delta + 1);
        if got.counter != n {
          CountIsDeliveries(n, events, i + 1, got);
          assert events[i..o.used] == [events[i]] + events[i + 1..o.used];
        } else {
          assert events[i..o.used] == [Delivery];
        }
    } else {
      assert events[i..o.used] == [];
    }
  }

  /** Each way of ending is caused by the last event read: a cancellation by a `Cancel`
      (`CancelKeepsCount` gives its count), a time-out only when nothing arrived since
      the start of the window, a delivery only when it completes the count. */
  lemma {:induction false} EndMatchesLastEvent(n: int, events: seq<Event>, i: nat, s: DrainState)
    requires i <= |events|
    ensures var o := DrainFrom(n, events, i, s);
      && (o.end != Waiting ==> i < o.used <= |events|)
      && (o.end == Canceled ==> events[o.used - 1] == Cancel)
      && (o.end == IdleTimeout ==> events[o.used - 1] == Timeout && o.state.delta == 0)
      && (o.end == Drained ==> events[o.used - 1] == Delivery && o.state.counter == n)
    decreases |events| - i
  {
    if i < |events| {
      match events[i]
      case Timeout =>
        if !s.armed {
          EndMatchesLastEvent(n, events, i + 1, s);
        } else if s.delta != 0 {
          EndMatchesLastEvent(n, events, i + 1, s.(armed := false, timeouts := s.timeouts + 1, delta := 0));
        }
      case Cancel =>
      case Delivery =>
        var got := s.(counter := s.counter + 1, delta := s.delta + 1);
        if got.counter != n {
          EndMatchesLastEvent(n, events, i + 1, got);
        }
    }
  }

  /** A cancellation returns the count as it stood before it: the deliveries read
      before the `Cancel` event, and nothing for the `Cancel` itself. */
  lemma CancelKeepsCount(n: int, events: seq<Event>, i: nat, s: DrainState)
    requires i <= |events|
    ensures var o := DrainFrom(n, events, i, s);
      o.end == Canceled ==>
        && i < o.used <= |events| && events[o.used - 1] == Cancel
        && o.state.counter == s.counter + Deliveries(events[i..o.used - 1])
  {
    var o := DrainFrom(n, events, i, s);
    if o.end == Canceled {
      EndMatchesLastEvent(n, events, i, s);
      CountIsDeliveries(n, events, i, s);
      assert events[i..o.used] == events[i..o.used - 1] + [Cancel];
      DeliveriesAppend(events[i..o.used - 1], Cancel);
    }
  }

  /** Once a message has arrived before the timer signalled, no idle error can follow:
      the single signal only resets `delta`. */
  lemma {:induction false} NoIdleOnceDelivered(n: int, events: seq<Event>, i: nat, s: DrainState)
    requires i <= |events|
    requires s.armed ==> s.delta >= 1
    ensures DrainFrom(n, events, i, s).end != IdleTimeout
    decreases |events| - i
  {
    if i < |events| {
      match events[i]
      case Timeout =>
        if !s.armed {
          NoIdleOnceDelivered(n, events, i + 1, s);
        } else {
          NoIdleOnceDelivered(n, events, i + 1, s.(armed := false, timeouts := s.timeouts + 1, delta := 0));
        }
      case Cancel =>
      case Delivery =>
        var got := s.(counter := s.counter + 1, delta := s.delta + 1);
        if got.counter != n {
          NoIdleOnceDelivered(n, events, i + 1, got);
        }
    }
  }

  /** Because the timer is single-shot, `Consume` fails as idle exactly when its first
      event is the time-out, i.e. when nothing arrived in the first window; after that
      window it is never checked again. */
  lemma IdleOnlyInFirstWindow(n: int, events: seq<Event>)
    ensures Drain(n, events).end == IdleTimeout <==> |events| > 0 && events[0] == Timeout
  {
    if |events| > 0 && events[0] == Delivery && n != 1 {
      NoIdleOnceDelivered(n, events, 1, DrainState(1, 1, true, 0));
    }
  }

  // ---------------------------------------------------------------- consumer state

  /** The fields of a `Consumer`; `hasConn`/`hasChann` say whether `conn`/`chann` are
      non-nil. */
  datatype ConsumerState = ConsumerState(queueURL: string, queueName: string,
                                         hasConn: bool, hasChann: bool, asserted: bool,
                                         trace: seq<Call>)

  /** A declared queue has an open channel, and a channel implies a connection. */
  predicate Wellformed(st: ConsumerState)
  {
    (st.asserted ==> st.hasChann) && (st.hasChann ==> st.hasConn)
  }

  /** `CreateConsumer`: the queue name is given; nothing opened. */
  function NewConsumer(queueName: string, queueURL: string): ConsumerState
  {
    ConsumerState(queueURL, queueName, false, false, false, [])
  }

  /** The answers to the broker steps of `AssertQueue`, in order. */
  datatype ConsumerReplies = ConsumerReplies(dial: Outcome, channel: Outcome, qos: Outcome, declare: Outcome)

  datatype SetupStep = DialStep | ChannelStep | QosStep | DeclareStep

  function FailedStep(r: ConsumerReplies): Option<SetupStep>
  {
    if r.dial.Fail? then Some(DialStep)
    else if r.channel.Fail? then Some(ChannelStep)
    else if r.qos.Fail? then Some(QosStep)
    else if r.declare.Fail? then Some(DeclareStep)
    else None
  }

  function StepError(r: ConsumerReplies, s: SetupStep): Error
  {
    match s
    case DialStep => if r.dial.Fail? then r.dial.error else Library("")
    case ChannelStep => if r.channel.Fail? then r.channel.error else Library("")
    case QosStep => if r.qos.Fail? then r.qos.error else Library("")
    case DeclareStep => if r.declare.Fail? then r.declare.error else Library("")
  }

  function StepIndex(s: SetupStep): nat
  {
    match s
    case DialStep => 0
    case ChannelStep => 1
    case QosStep => 2
    case DeclareStep => 3
  }

  /** The broker calls of a complete setup: dial, open a channel, prefetch 4 messages
      with no byte limit on this channel only, declare the queue durable,
      non-auto-delete, non-exclusive. */
  function SetupCalls(queueURL: string, queueName: string): seq<Call>
  {
    [Dial(queueURL), OpenChannel, Qos(PrefetchCount, 0, false),
     QueueDeclare(queueName, true, false, false, false)]
  }

  function Closed(st: ConsumerState): ConsumerState
  {
    st.(trace := st.trace + ReleaseCalls(st.hasChann, st.hasConn))
  }

  /** The queue call `CloseAndCleanUp` makes before releasing: a no-wait delete, only
      for a declared queue. */
  function DeleteCalls(st: ConsumerState): seq<Call>
  {
    if st.asserted then [QueueDelete(st.queueName, false, false, true)] else []
  }

  function CleanedUp(st: ConsumerState): ConsumerState
  {
    Closed(st.(trace := st.trace + DeleteCalls(st)))
  }

  /** `CloseAndCleanUp` deletes the queue exactly when it was declared, without
      waiting for the broker, and only then releases the channel and connection. */
  lemma CleanupDeletesDeclared(st: ConsumerState)
    ensures QueueDelete(st.queueName, false, false, true) in DeleteCalls(st) <==> st.asserted
    ensures |DeleteCalls(st)| == (if st.asserted then 1 else 0)
    ensures CleanedUp(st).trace == st.trace + DeleteCalls(st) + ReleaseCalls(st.hasChann, st.hasConn)
    ensures CleanedUp(st).(trace := st.trace) == st
  {
  }

  datatype AssertOutcome = AssertOutcome(state: ConsumerState, err: Option<Error>)

  /** `AssertQueue` on a state: the setup chain, closing what is open when a step after
      the dial fails; `asserted` is set only once the declare succeeded. */
  function Asserted(st: ConsumerState, r: ConsumerReplies): AssertOutcome
  {
    var dialed := st.(trace := st.trace + [Dial(st.queueURL)]);
    if r.dial.Fail? then AssertOutcome(dialed, Some(r.dial.error))
    else
      var connected := dialed.(hasConn := true, trace := dialed.trace + [OpenChannel]);
      if r.channel.Fail? then AssertOutcome(Closed(connected), Some(r.channel.error))
      else
        var channeled := connected.(hasChann := true, trace := connected.trace + [Qos(PrefetchCount, 0, false)]);
        if r.qos.Fail? then AssertOutcome(Closed(channeled), Some(r.qos.error))
        else
          var declaring := channeled.(trace := channeled.trace + [QueueDeclare(st.queueName, true, false, false, false)]);
          if r.declare.Fail? then AssertOutcome(Closed(declaring), Some(r.declare.error))
          else AssertOutcome(declaring.(asserted := true), None)
  }

  /** The result of `AssertQueue`: an error exactly when a step failed, the first
      failure's; `asserted` only once the declare succeeded; the record stays well
      formed. */
  lemma AssertedResult(st: ConsumerState, r: ConsumerReplies)
    ensures var o := Asserted(st, r);
      && (o.err.None? <==> FailedStep(r).None?)
      && (o.err.Some? ==> o.err == Some(StepError(r, FailedStep(r).value)))
      && o.state.asserted == (FailedStep(r).None? || st.asserted)
      && o.state.hasConn == (st.hasConn || FailedStep(r) != Some(DialStep))
      && o.state.queueURL == st.queueURL && o.state.queueName == st.queueName
      && (Wellformed(st) ==> Wellformed(o.state))
  {
  }

  /** The calls `AssertQueue` issues: the setup chain in order up to and including the
      failing step, then, unless the dial failed, the closing of what is open. */
  lemma AssertedTrace(st: ConsumerState, r: ConsumerReplies)
    ensures var o := Asserted(st, r);
      var calls := SetupCalls(st.queueURL, st.queueName);
      && (FailedStep(r) == Some(DialStep) ==> o.state == st.(trace := st.trace + [Dial(st.queueURL)]))
      && (FailedStep(r) == Some(ChannelStep) ==> o.state.trace == st.trace + calls[..2] + ReleaseCalls(st.hasChann, true))
      && (FailedStep(r) == Some(QosStep) ==> o.state.trace == st.trace + calls[..3] + [CloseChannel, CloseConnection])
      && (FailedStep(r) == Some(DeclareStep) ==> o.state.trace == st.trace + calls + [CloseChannel, CloseConnection])
      && (FailedStep(r).None? ==> o.state.trace == st.trace + calls)
  {
    var calls := SetupCalls(st.queueURL, st.queueName);
    if r.dial.Ok? && r.channel.Fail? {
      assert calls[..2] == [Dial(st.queueURL), OpenChannel];
    } else if r.dial.Ok? && r.qos.Fail? {
      assert calls[..3] == [Dial(st.queueURL), OpenChannel, Qos(PrefetchCount, 0, false)];
    }
  }

  /** A new consumer whose setup succeeded: connected, with a channel, its queue
      declared, and the four setup calls issued. */
  function Ready(queueURL: string, queueName: string): ConsumerState
  {
    ConsumerState(queueURL, queueName, true, true, true, SetupCalls(queueURL, queueName))
  }

  /** `AssertQueue` on a new consumer: it ends `Ready` exactly when no step failed,
      and otherwise returns the first failure's error with the queue not declared. */
  lemma AssertedFresh(queueURL: string, queueName: string, r: ConsumerReplies)
    ensures var o := Asserted(NewConsumer(queueName, queueURL), r);
      && (FailedStep(r).None? ==> o.err.None? && o.state == Ready(queueURL, queueName))
      && (FailedStep(r).Some? ==> o.err == Some(StepError(r, FailedStep(r).value)) && !o.state.asserted)
  {
    AssertedResult(NewConsumer(queueName, queueURL), r);
    AssertedTrace(NewConsumer(queueName, queueURL), r);
  }

  /** The consume call: auto-acknowledged, not exclusive, not no-local, waiting for
      the broker's answer. */
  function ConsumeCall(queueName: string): Call
  {
    BasicConsume(queueName, "", true, false, false, false)
  }

  /** What `Consume` returns; `returned` is false when the call is still blocked after
      the given events, in which case `Stop` has not run yet. */
  datatype ConsumeOutcome = ConsumeOutcome(state: ConsumerState, stats: Option<Stats.StatsView>,
                                           err: Option<Error>, returned: bool)

  /** `Consume` on a state. */
  function Consumed(st: ConsumerState, n: int, reply: Outcome, events: seq<Event>, w: Stats.Window): ConsumeOutcome
  {
    var called := st.(trace := st.trace + [ConsumeCall(st.queueName)]);
    if reply.Fail? then ConsumeOutcome(called, None, Some(reply.error), true)
    else
      var d := Drain(n, events);
      var returned := d.end != Waiting;
      var duration := if returned then w.stop - w.start else 0;
      ConsumeOutcome(called, Some(Stats.StatsView(st.queueName, d.state.counter, w.start, duration)),
                     if d.end == IdleTimeout then Some(Idle(st.queueName)) else None,
                     returned)
  }

  /** What `Consume` promises: the consume call is the only broker call; a refused
      consume returns its error and no stats; otherwise the stats count what the drain
      loop counted, the call returns exactly when the loop ended, stopping the stats
      then, and the only error is the idle one, carrying the queue name. */
  lemma ConsumedResult(st: ConsumerState, n: int, reply: Outcome, events: seq<Event>, w: Stats.Window)
    ensures var o := Consumed(st, n, reply, events, w);
      && o.state == st.(trace := st.trace + [ConsumeCall(st.queueName)])
      && (reply.Fail? ==> o.stats.None? && o.err == Some(reply.error) && o.returned)
      && (reply.Ok? ==> o.stats.Some? && o.stats.value.queueName == st.queueName
                        && o.stats.value.totalMessage == Drain(n, events).state.counter
                        && o.stats.value.start == w.start)
      && (reply.Ok? ==> (o.returned <==> Drain(n, events).end != Waiting))
      && (reply.Ok? && o.returned ==> o.stats.value.duration == w.stop - w.start)
      && (reply.Ok? ==> (o.err.Some? <==> Drain(n, events).end == IdleTimeout))
      && (reply.Ok? && o.err.Some? ==> o.err == Some(Idle(st.queueName)))
  {
  }

  /** The `for`/`select` loop of `Consume`, on the stats it counts into and the timer
      it watches: it returns as the drain loop ends, and counts every message. */
  method Receive(queueName: string, n: int, events: seq<Event>, stats: Stats.ConsumeStats, timer: Timer)
    returns (err: Option<Error>, returned: bool)
    requires timer.Valid() && timer.waiting && timer.signal == [] && timer.sent == 0
    requires stats.totalMessage == 0
    modifies stats, timer
    ensures timer.Valid()
    ensures var d := Drain(n, events);
      && (returned <==> d.end != Waiting)
      && err == (if d.end == IdleTimeout then Some(Idle(queueName)) else None)
      && stats.totalMessage == d.state.counter
    ensures stats.queueName == old(stats.queueName) && stats.start == old(stats.start)
    ensures stats.duration == old(stats.duration)
  {
    var counter, delta := 0, 0;
    ghost var whole := Drain(n, events);
    var i := 0;
    err, returned := None, false;
    while i < |events|
      invariant 0 <= i <= |events|
      invariant timer.Valid() && timer.signal == []
      invariant stats.queueName == old(stats.queueName) && stats.start == old(stats.start)
      invariant stats.duration == old(stats.duration)
      invariant stats.totalMessage == counter
      invariant whole == DrainFrom(n, events, i, DrainState(counter, delta, timer.waiting, timer.sent))
      invariant err == None && !returned
      decreases |events| - i
    {
      ghost var before := DrainState(counter, delta, timer.waiting, timer.sent);
      match events[i] {
      case Timeout =>
        timer.Elapse();
        var fired := timer.Poll();
        if fired {
          if delta == 0 {
            err, returned := Some(Idle(queueName)), true;
            assert whole == DrainOutcome(IdleTimeout, DrainState(counter, delta, false, timer.sent), i + 1);
            return;
          }
          delta := 0;
        }
      case Cancel =>
        returned := true;
        assert whole == DrainOutcome(Canceled, before, i + 1);
        return;
      case Delivery =>
        counter, delta := counter + 1, delta + 1;
        stats.IncrementMessage();
        if counter == n {
          returned := true;
          assert whole == DrainOutcome(Drained, DrainState(counter, delta, timer.waiting, timer.sent), i + 1);
          return;
        }
      }
      i := i + 1;
    }
    assert whole == DrainOutcome(Waiting, DrainState(counter, delta, timer.waiting, timer.sent), |events|);
  }

  // ---------------------------------------------------------------- the class

  /** rmq/consumer.go's `Consumer`. */
  class Consumer {
    const queueURL: string
    const queueName: string
    var hasConn: bool
    var hasChann: bool
    var asserted: bool
    ghost var trace: seq<Call>

    ghost function View(): ConsumerState
      reads this
    {
      ConsumerState(queueURL, queueName, hasConn, hasChann, asserted, trace)
    }

    ghost predicate Valid()
      reads this
    {
      Wellformed(View())
    }

    /** `CreateConsumer`. */
    constructor (queueName: string, queueURL: string)
      ensures View() == NewConsumer(queueName, queueURL) && Valid()
    {
      this.queueURL := queueURL;
      this.queueName := queueName;
      hasConn, hasChann, asserted := false, false, false;
      trace := [];
    }

    /** Dials, opens a channel, sets the prefetch, declares the queue; `asserted` only
        after all four succeed, and a failure after the dial closes what is open. */
    method AssertQueue(r: ConsumerReplies) returns (err: Option<Error>)
      requires Valid()
      modifies this
      ensures Valid()
      ensures AssertOutcome(View(), err) == Asserted(old(View()), r)
    {
      trace := trace + [Dial(queueURL)];
      if r.dial.Fail? {
        return Some(r.dial.error);
      }
      hasConn := true;

      trace := trace + [OpenChannel];
      if r.channel.Fail? {
        Close();
        return Some(r.channel.error);
      }
      hasChann := true;

      trace := trace + [Qos(PrefetchCount, 0, false)];
      if r.qos.Fail? {
        Close();
        return Some(r.qos.error);
      }

      trace := trace + [QueueDeclare(queueName, true, false, false, false)];
      if r.declare.Fail? {
        Close();
        return Some(r.declare.error);
      }
      asserted := true;

      return None;
    }

    /** Drains at most `n` messages: stops with an idle error if the timer's one signal
        finds no message since the start, stops without error on cancellation or when
        the `n`-th message arrives. */
    method Consume(n: int, reply: Outcome, events: seq<Event>, w: Stats.Window)
      returns (stats: Stats.ConsumeStats?, err: Option<Error>, returned: bool)
      requires Valid() && hasChann
      modifies this
      ensures Valid()
      ensures var o := Consumed(old(View()), n, reply, events, w);
        View() == o.state && err == o.err && returned == o.returned
        && (stats == null <==> o.stats.None?)
        && (stats != null ==> fresh(stats) && stats.View() == o.stats.value)
    {
      trace := trace + [ConsumeCall(queueName)];
      if reply.Fail? {
        return null, Some(reply.error), true;
      }

      stats := new Stats.ConsumeStats(queueName);
      var timer := new Timer(IdleWindow);
      timer.Start();
      stats.Start(w.start);
      err, returned := Receive(queueName, n, events, stats, timer);
      if returned {
        // deferred: stop the stats and cancel the timer's context
        stats.Stop(w.stop);
        timer.Stop();
      }
    }

    /** Closes the channel, then the connection, each only if it was opened. */
    method Close()
      modifies this
      ensures View() == Closed(old(View()))
    {
      if hasChann {
        trace := trace + [CloseChannel];
      }
      if hasConn {
        trace := trace + [CloseConnection];
      }
    }

    /** Deletes the queue if it was declared (an error is only logged), then releases
        the channel and the connection that were opened. */
    method CloseAndCleanUp()
      requires Valid()
      modifies this
      ensures Valid()
      ensures View() == CleanedUp(old(View()))
    {
      if asserted {
        trace := trace + [QueueDelete(queueName, false, false, true)];
      }
      if hasChann {
        trace := trace + [CloseChannel];
      }
      if hasConn {
        trace := trace + [CloseConnection];
      }
    }

    /** The queue this consumer drains: the one it was created for, whether or not
        the declare succeeded. */
    function QueueName(): (name: string)
      reads this
      ensures name == View().queueName
    {
      queueName
    }
  }
}
