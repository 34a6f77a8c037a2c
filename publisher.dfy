/** rmq/publisher.go: a publisher owns one broker connection, one channel and one
    freshly named queue bound to an exchange, and publishes confirmed messages to it.
    Broker calls are abstract: their answers are parameters, and every call issued is
    appended to the publisher's ghost `trace`. */
module RmqPublisher {
  import opened Wrappers
  import opened Amqp
  import Stats

  /** The recognisable start of every generated queue name. */
  const QueuePrefix: string := "zzzzzzzz-bang"

  /** Length of the canonical text form of a UUID (8-4-4-4-12 hex digits). */
  const UuidLength: nat := 36

  /** The text of a random UUID, as `uuid.UUID.String()` renders it. */
  type UuidText = s: string | |s| == UuidLength witness "00000000-0000-0000-0000-000000000000"

  /** The queue name: the prefix overwrites the first 13 characters of the UUID text. */
  function QueueNameFrom(id: UuidText): (name: string)
    ensures |name| == |id|
    ensures name[..|QueuePrefix|] == QueuePrefix
    ensures forall k :: |QueuePrefix| <= k < |name| ==> name[k] == id[k]
  {
    QueuePrefix + id[|QueuePrefix|..]
  }

  /** Two generated names are equal exactly when the random IDs agree past the prefix,
      so the names are as unique as the 23 characters of the UUID they keep. */
  lemma QueueNamesCollideOnlyOnSameTail(a: UuidText, b: UuidText)
    ensures QueueNameFrom(a) == QueueNameFrom(b) <==> a[|QueuePrefix|..] == b[|QueuePrefix|..]
  {
    if QueueNameFrom(a) == QueueNameFrom(b) {
      assert a[|QueuePrefix|..] == QueueNameFrom(a)[|QueuePrefix|..];
    }
  }

  // ---------------------------------------------------------------- message ids

  function Digit(d: nat): char
    requires d < 10
  {
    ('0' as int + d) as char
  }

  /** The decimal text of `n`, as `fmt` prints a non-negative `int`. */
  function Decimal(n: nat): (s: string)
    ensures |s| >= 1
    ensures n >= 10 ==> |s| >= 2
  {
    if n < 10 then [Digit(n)] else Decimal(n / 10) + [Digit(n % 10)]
  }

  /** The decimal text of `n` consists of decimal digits only. */
  lemma {:induction false} DecimalIsDigits(n: nat)
    ensures forall k :: 0 <= k < |Decimal(n)| ==> '0' <= Decimal(n)[k] <= '9'
  {
    if n >= 10 {
      DecimalIsDigits(n / 10);
    }
  }

  /** The number a text of decimal digits denotes, most significant digit first. */
  function DigitsValue(s: string): int
  {
    if s == [] then 0 else DigitsValue(s[..|s| - 1]) * 10 + (s[|s| - 1] as int - '0' as int)
  }

  /** The decimal text of `n` denotes `n`. */
  lemma {:induction false} DecimalDenotes(n: nat)
    ensures DigitsValue(Decimal(n)) == n
  {
    if n >= 10 {
      var d := Decimal(n);
      assert d[..|d| - 1] == Decimal(n / 10);
      DecimalDenotes(n / 10);
    }
  }

  /** Distinct numbers have distinct decimal texts. */
  lemma {:induction false} DecimalInjective(a: nat, b: nat)
    requires Decimal(a) == Decimal(b)
    ensures a == b
  {
    DecimalDenotes(a);
    DecimalDenotes(b);
  }

  /** `fmt.Sprintf("%v-%v", queueName, i)`. */
  function MessageId(queueName: string, i: nat): string
  {
    queueName + "-" + Decimal(i)
  }

  /** Messages of one publisher carry pairwise distinct ids. */
  lemma MessageIdsDistinct(queueName: string, i: nat, j: nat)
    requires i != j
    ensures MessageId(queueName, i) != MessageId(queueName, j)
  {
    if MessageId(queueName, i) == MessageId(queueName, j) {
      var n := |queueName| + 1;
      assert MessageId(queueName, i)[n..] == Decimal(i);
      assert MessageId(queueName, j)[n..] == Decimal(j);
      DecimalInjective(i, j);
    }
  }

  /** The filler byte `'s'`. */
  const FillerByte: Byte := 115

  /** The type tag of every message. */
  const MessageType: string := "Test"

  /** `[]byte(strings.Repeat("s", size))`. */
  function Filler(size: nat): (body: seq<Byte>)
    ensures |body| == size
    ensures forall k :: 0 <= k < size ==> body[k] == FillerByte
  {
    seq(size, _ => FillerByte)
  }

  /** The publish call for message `i`: persistent, typed "Test", routed by the queue
      name on the exchange, neither mandatory nor immediate. */
  function MessageCall(queueName: string, exchange: string, body: seq<Byte>, i: nat): Call
  {
    BasicPublish(exchange, queueName, false, false,
                 Publishing(Persistent, body, MessageType, MessageId(queueName, i)))
  }

  // ---------------------------------------------------------------- the send loop

  /** What the broker does with message `i`: the publish call fails on the transport,
      or the message is confirmed with an ack or a nack. */
  datatype Reply = TransportError(error: Error) | Confirmation(ack: bool)

  /** The calls issued, the messages counted and the error returned by the send loop. */
  datatype LoopOutcome = LoopOutcome(calls: seq<Call>, count: nat, err: Option<Error>)

  /** The send loop from iteration `i` on: stop at a transport error, otherwise count
      the message whatever its confirmation says. */
  function PublishFrom(queueName: string, exchange: string, body: seq<Byte>, number: int,
                       replies: nat -> Reply, i: nat): LoopOutcome
    decreases if i < number then number - i else 0
  {
    if number <= i then LoopOutcome([], 0, None)
    else
      var call := MessageCall(queueName, exchange, body, i);
      match replies(i)
      case TransportError(e) => LoopOutcome([call], 0, Some(e))
      case Confirmation(_) =>
        var rest := PublishFrom(queueName, exchange, body, number, replies, i + 1);
        LoopOutcome([call] + rest.calls, 1 + rest.count, rest.err)
  }

  /** One iteration of the send loop, unfolded. */
  lemma PublishFromStep(queueName: string, exchange: string, body: seq<Byte>, number: int,
                        replies: nat -> Reply, i: nat)
    requires i < number
    ensures var call := MessageCall(queueName, exchange, body, i);
      var next := PublishFrom(queueName, exchange, body, number, replies, i + 1);
      PublishFrom(queueName, exchange, body, number, replies, i) ==
        if replies(i).TransportError? then LoopOutcome([call], 0, Some(replies(i).error))
        else LoopOutcome([call] + next.calls, 1 + next.count, next.err)
  {
  }

  /** When no publish call fails, every iteration is counted, acked or nacked. */
  lemma {:induction false} AllConfirmedPublishesAll(queueName: string, exchange: string, body: seq<Byte>,
                                                    number: int, replies: nat -> Reply, i: nat)
    requires forall j :: i <= j < number ==> replies(j).Confirmation?
    ensures PublishFrom(queueName, exchange, body, number, replies, i).err == None
    ensures PublishFrom(queueName, exchange, body, number, replies, i).count == if i < number then number - i else 0
    decreases if i < number then number - i else 0
  {
    if i < number {
      AllConfirmedPublishesAll(queueName, exchange, body, number, replies, i + 1);
    }
  }

  /** A transport error at iteration `k` ends the loop at once, with the `k - i`
      messages before it counted and that error returned. */
  lemma {:induction false} TransportErrorStops(queueName: string, exchange: string, body: seq<Byte>,
                                               number: int, replies: nat -> Reply, i: nat, k: nat)
    requires i <= k < number
    requires replies(k).TransportError?
    requires forall j :: i <= j < k ==> replies(j).Confirmation?
    ensures PublishFrom(queueName, exchange, body, number, replies, i).count == k - i
    ensures PublishFrom(queueName, exchange, body, number, replies, i).err == Some(replies(k).error)
    ensures |PublishFrom(queueName, exchange, body, number, replies, i).calls| == k - i + 1
    decreases k - i
  {
    if i < k {
      TransportErrorStops(queueName, exchange, body, number, replies, i + 1, k);
    }
  }

  /** The `j`-th call issued by the loop publishes message `i + j`: ids follow the
      iterations, every message goes to the exchange under the queue name and carries
      the same body. */
  lemma {:induction false} PublishCallsInOrder(queueName: string, exchange: string, body: seq<Byte>,
                                               number: int, replies: nat -> Reply, i: nat)
    ensures var r := PublishFrom(queueName, exchange, body, number, replies, i);
      forall j :: 0 <= j < |r.calls| ==> r.calls[j] == MessageCall(queueName, exchange, body, i + j)
    ensures var r := PublishFrom(queueName, exchange, body, number, replies, i);
      |r.calls| == r.count + (if r.err.Some? then 1 else 0)
    decreases if i < number then number - i else 0
  {
    if i < number && replies(i).Confirmation? {
      PublishCallsInOrder(queueName, exchange, body, number, replies, i + 1);
    }
  }

  // ---------------------------------------------------------------- publisher state

  /** The fields of a `Publisher`; `hasConn`/`hasChann` say whether `conn`/`chann`
      are non-nil (`Close` never resets them). */
  datatype PublisherState = PublisherState(queueURL: string, exchange: string,
                                           hasConn: bool, hasChann: bool,
                                           queueName: string, binded: bool,
                                           trace: seq<Call>)

  /** The bookkeeping invariant: a bound queue is a declared one, a declared queue has
      a generated name and an open channel, and a channel implies a connection. This is
      what makes `CloseAndCleanUp` safe. */
  predicate Wellformed(st: PublisherState)
  {
    && (st.binded ==> st.queueName != "")
    && (st.queueName != "" ==> st.hasChann && |st.queueName| == UuidLength
                               && st.queueName[..|QueuePrefix|] == QueuePrefix)
    && (st.hasChann ==> st.hasConn)
  }

  /** `NewPublisher`: nothing opened, no queue. */
  function NewPublisher(queueURL: string, exchange: string): PublisherState
  {
    PublisherState(queueURL, exchange, false, false, "", false, [])
  }

  /** The answers to the steps of `AssertQueue`, in the order they are asked. */
  datatype SetupReplies = SetupReplies(randomId: Result<UuidText, Error>, dial: Outcome,
                                       channel: Outcome, confirm: Outcome,
                                       declare: Outcome, bind: Outcome)

  datatype SetupStep = NewRandomStep | DialStep | ChannelStep | ConfirmStep | DeclareStep | BindStep

  /** The first setup step that fails, if any. */
  function FailedStep(r: SetupReplies): Option<SetupStep>
  {
    if r.randomId.Failure? then Some(NewRandomStep)
    else if r.dial.Fail? then Some(DialStep)
    else if r.channel.Fail? then Some(ChannelStep)
    else if r.confirm.Fail? then Some(ConfirmStep)
    else if r.declare.Fail? then Some(DeclareStep)
    else if r.bind.Fail? then Some(BindStep)
    else None
  }

  /** The error reported by a failing step. */
  function StepError(r: SetupReplies, s: SetupStep): Error
  {
    match s
    case NewRandomStep => if r.randomId.Failure? then r.randomId.error else Library("")
    case DialStep => if r.dial.Fail? then r.dial.error else Library("")
    case ChannelStep => if r.channel.Fail? then r.channel.error else Library("")
    case ConfirmStep => if r.confirm.Fail? then r.confirm.error else Library("")
    case DeclareStep => if r.declare.Fail? then r.declare.error else Library("")
    case BindStep => if r.bind.Fail? then r.bind.error else Library("")
  }

  /** Position of a broker step in the setup chain. */
  function StepIndex(s: SetupStep): nat
  {
    match s
    case NewRandomStep => 0
    case DialStep => 0
    case ChannelStep => 1
    case ConfirmStep => 2
    case DeclareStep => 3
    case BindStep => 4
  }

  /** The broker calls of a complete setup: dial, open a channel, enable confirms,
      declare the queue durable, non-auto-delete, non-exclusive, and bind it to the
      exchange with its own name as the key. */
  function SetupCalls(queueURL: string, exchange: string, name: string): seq<Call>
  {
    [Dial(queueURL), OpenChannel, ConfirmSelect(false),
     QueueDeclare(name, true, false, false, false),
     QueueBind(name, name, exchange, false)]
  }

  /** `Close` on a state. */
  function Closed(st: PublisherState): PublisherState
  {
    st.(trace := st.trace + ReleaseCalls(st.hasChann, st.hasConn))
  }

  /** The queue calls `CloseAndCleanUp` makes before closing. */
  function CleanupCalls(st: PublisherState): seq<Call>
  {
    (if st.binded then [QueueUnbind(st.queueName, st.queueName, st.exchange)] else [])
    + (if st.queueName != "" then [QueueDelete(st.queueName, false, false, false)] else [])
  }

  /** `CloseAndCleanUp` unbinds a bound queue and deletes a declared one, unbinding
      first, each at most once, and releases the channel and connection after both;
      no field other than the trace changes. */
  lemma CleanupRemovesWhatExists(st: PublisherState)
    ensures var calls := CleanupCalls(st);
      && (QueueUnbind(st.queueName, st.queueName, st.exchange) in calls <==> st.binded)
      && (QueueDelete(st.queueName, false, false, false) in calls <==> st.queueName != "")
      && |calls| == (if st.binded then 1 else 0) + (if st.queueName != "" then 1 else 0)
      && (st.binded && st.queueName != "" ==>
            calls == [QueueUnbind(st.queueName, st.queueName, st.exchange), QueueDelete(st.queueName, false, false, false)])
    ensures CleanedUp(st).trace == st.trace + CleanupCalls(st) + ReleaseCalls(st.hasChann, st.hasConn)
    ensures CleanedUp(st).(trace := st.trace) == st
  {
  }

  /** `CloseAndCleanUp` on a state. */
  function CleanedUp(st: PublisherState): PublisherState
  {
    Closed(st.(trace := st.trace + CleanupCalls(st)))
  }

  datatype AssertOutcome = AssertOutcome(state: PublisherState, name: string, err: Option<Error>)

  /** `AssertQueue` on a state: the setup chain, stopping (and closing, once a
      connection exists) at the first failing step. */
  function Asserted(st: PublisherState, r: SetupReplies): AssertOutcome
  {
    if r.randomId.Failure? then AssertOutcome(st, "", Some(r.randomId.error))
    else
      var name := QueueNameFrom(r.randomId.value);
      var dialed := st.(trace := st.trace + [Dial(st.queueURL)]);
      if r.dial.Fail? then AssertOutcome(dialed, "", Some(r.dial.error))
      else
        var connected := dialed.(hasConn := true, trace := dialed.trace + [OpenChannel]);
        if r.channel.Fail? then AssertOutcome(Closed(connected), "", Some(r.channel.error))
        else
          var channeled := connected.(hasChann := true, trace := connected.trace + [ConfirmSelect(false)]);
          if r.confirm.Fail? then AssertOutcome(Closed(channeled), "", Some(r.confirm.error))
          else
            var declaring := channeled.(trace := channeled.trace + [QueueDeclare(name, true, false, false, false)]);
            if r.declare.Fail? then AssertOutcome(Closed(declaring), "", Some(r.declare.error))
            else
              var declared := declaring.(queueName := name,
                                         trace := declaring.trace + [QueueBind(name, name, st.exchange, false)]);
              if r.bind.Fail? then AssertOutcome(Closed(declared), "", Some(r.bind.error))
              else AssertOutcome(declared.(binded := true), name, None)
  }

  /** The result of `AssertQueue`: an error exactly when a step failed, the first
      failure's; the queue name only on success. The fields are set only once the
      matching step succeeded, and the record stays well formed. */
  lemma AssertedResult(st: PublisherState, r: SetupReplies)
    ensures var o := Asserted(st, r);
      && (o.err.None? <==> FailedStep(r).None?)
      && (o.err.Some? ==> o.name == "" && o.err == Some(StepError(r, FailedStep(r).value)))
      && (o.err.None? ==> r.randomId.Success? && o.name == QueueNameFrom(r.randomId.value))
      && o.state.queueName ==
           (if FailedStep(r).None? || FailedStep(r) == Some(BindStep) then QueueNameFrom(r.randomId.value)
            else st.queueName)
      && o.state.binded == (FailedStep(r).None? || st.binded)
      && o.state.hasConn == (st.hasConn || (FailedStep(r) != Some(NewRandomStep) && FailedStep(r) != Some(DialStep)))
      && o.state.queueURL == st.queueURL && o.state.exchange == st.exchange
      && (Wellformed(st) ==> Wellformed(o.state))
  {
  }

  /** The calls `AssertQueue` issues when it succeeds or fails early: nothing if no
      name could be generated, the dial alone if the dial failed, and the channel
      request followed by `Close` if that failed (which also closes a channel this
      publisher had opened before). On success: the whole setup chain. */
  lemma AssertedTrace(st: PublisherState, r: SetupReplies)
    ensures var o := Asserted(st, r);
      && (FailedStep(r) == Some(NewRandomStep) ==> o.state == st)
      && (FailedStep(r) == Some(DialStep) ==> o.state == st.(trace := st.trace + [Dial(st.queueURL)]))
      && (FailedStep(r) == Some(ChannelStep) ==>
            o.state.trace == st.trace + [Dial(st.queueURL), OpenChannel] + ReleaseCalls(st.hasChann, true))
      && (FailedStep(r).None? ==> o.state.trace == st.trace + SetupCalls(st.queueURL, st.exchange, o.name))
  {
    if r.randomId.Success? && r.dial.Ok? && r.channel.Fail? {
      assert Asserted(st, r).state.trace == st.trace + [Dial(st.queueURL), OpenChannel] + ReleaseCalls(st.hasChann, true);
    }
  }

  /** Once a channel is open, a failed step is followed by closing the channel and the
      connection: the calls are the setup chain up to the failing step, then both
      closes. */
  lemma AssertedClosesAfterFailure(st: PublisherState, r: SetupReplies)
    requires r.randomId.Success? && r.dial.Ok? && r.channel.Ok? && FailedStep(r).Some?
    ensures var o := Asserted(st, r);
      var calls := SetupCalls(st.queueURL, st.exchange, QueueNameFrom(r.randomId.value));
      o.state.trace == st.trace + calls[..StepIndex(FailedStep(r).value) + 1] + [CloseChannel, CloseConnection]
  {
    var calls := SetupCalls(st.queueURL, st.exchange, QueueNameFrom(r.randomId.value));
    if r.confirm.Fail? {
      assert calls[..3] == [Dial(st.queueURL), OpenChannel, ConfirmSelect(false)];
    } else if r.declare.Fail? {
      assert calls[..4] == calls[..3] + [calls[3]];
    } else {
      assert calls[..5] == calls;
    }
  }

  /** A new publisher whose setup succeeded: connected, with a channel, its queue
      declared and bound, and the five setup calls issued. */
  function Ready(queueURL: string, exchange: string, name: string): PublisherState
  {
    PublisherState(queueURL, exchange, true, true, name, true, SetupCalls(queueURL, exchange, name))
  }

  /** `AssertQueue` on a new publisher: it ends `Ready` under the generated name
      exactly when no step failed, and otherwise returns the first failure's error. */
  lemma AssertedFresh(queueURL: string, exchange: string, r: SetupReplies)
    ensures var o := Asserted(NewPublisher(queueURL, exchange), r);
      && (FailedStep(r).None? ==>
            o.err.None? && o.name == QueueNameFrom(r.randomId.value) && o.state == Ready(queueURL, exchange, o.name))
      && (FailedStep(r).Some? ==> o.err == Some(StepError(r, FailedStep(r).value)))
  {
    AssertedResult(NewPublisher(queueURL, exchange), r);
    AssertedTrace(NewPublisher(queueURL, exchange), r);
  }

  datatype PublishOutcome = PublishOutcome(state: PublisherState, stats: Stats.StatsView, err: Option<Error>)

  /** `Publish` on a state: register for confirmations, then run the send loop;
      the stats count the loop's messages and are timed over the window. */
  function Published(st: PublisherState, number: int, size: nat, replies: nat -> Reply,
                     w: Stats.Window): PublishOutcome
  {
    var loop := PublishFrom(st.queueName, st.exchange, Filler(size), number, replies, 0);
    PublishOutcome(st.(trace := st.trace + [NotifyPublish] + loop.calls),
                   Stats.StatsView(st.queueName, loop.count, w.start, w.stop - w.start),
                   loop.err)
  }

  /** The send loop of `Publish`: message `i` carries the filler body and id `i`;
      after each send it waits for the confirmation. A transport error ends the loop
      with that error; a nack is only logged and the message is counted. `sent` is the
      publish calls issued. */
  method Send(queueName: string, exchange: string, raw: seq<Byte>, number: int, replies: nat -> Reply,
              stats: Stats.PublishStats)
    returns (ghost sent: seq<Call>, err: Option<Error>)
    requires stats.totalMessage == 0
    modifies stats
    ensures var o := PublishFrom(queueName, exchange, raw, number, replies, 0);
      sent == o.calls && err == o.err && stats.totalMessage == o.count
    ensures stats.queueName == old(stats.queueName) && stats.start == old(stats.start)
    ensures stats.duration == old(stats.duration)
  {
    ghost var whole := PublishFrom(queueName, exchange, raw, number, replies, 0);
    sent := [];
    var i: nat := 0;
    err := None;
    while i < number
      invariant err == None
      invariant stats.queueName == old(stats.queueName) && stats.start == old(stats.start)
      invariant stats.duration == old(stats.duration)
      invariant stats.totalMessage == i
      invariant var rest := PublishFrom(queueName, exchange, raw, number, replies, i);
        whole.calls == sent + rest.calls && whole.count == i + rest.count && whole.err == rest.err
      decreases number - i
    {
      PublishFromStep(queueName, exchange, raw, number, replies, i);
      var message := Publishing(Persistent, raw, MessageType, MessageId(queueName, i));
      sent := sent + [BasicPublish(exchange, queueName, false, false, message)];
      if replies(i).TransportError? {
        err := Some(replies(i).error);
        assert whole == LoopOutcome(sent, i, err);
        return;
      }
      // a nack is only logged: the message is counted all the same
      stats.IncrementMessage();
      i := i + 1;
    }
    assert whole == LoopOutcome(sent, i, err);
  }

  // ---------------------------------------------------------------- the class

  /** rmq/publisher.go's `Publisher`. */
  class Publisher {
    const queueURL: string
    const exchange: string
    var hasConn: bool
    var hasChann: bool
    var queueName: string
    var binded: bool
    ghost var trace: seq<Call>

    ghost function View(): PublisherState
      reads this
    {
      PublisherState(queueURL, exchange, hasConn, hasChann, queueName, binded, trace)
    }

    ghost predicate Valid()
      reads this
    {
      Wellformed(View())
    }

    /** `NewPublisher`. */
    constructor (queueURL: string, exchange: string)
      ensures View() == NewPublisher(queueURL, exchange) && Valid()
    {
      this.queueURL := queueURL;
      this.exchange := exchange;
      hasConn, hasChann := false, false;
      queueName, binded := "", false;
      trace := [];
    }

    /** Generates the queue name, then dials, opens a channel, enables confirms,
        declares and binds the queue; each field is set right after its step succeeds,
        and a failure after the dial closes what is open. */
    method AssertQueue(r: SetupReplies) returns (name: string, err: Option<Error>)
      requires Valid()
      modifies this
      ensures Valid()
      ensures AssertOutcome(View(), name, err) == Asserted(old(View()), r)
    {
      if r.randomId.Failure? {
        return "", Some(r.randomId.error);
      }
      var candidate := QueueNameFrom(r.randomId.value);

      trace := trace + [Dial(queueURL)];
      if r.dial.Fail? {
        return "", Some(r.dial.error);
      }
      hasConn := true;

      trace := trace + [OpenChannel];
      if r.channel.Fail? {
        Close();
        return "", Some(r.channel.error);
      }
      hasChann := true;

      trace := trace + [ConfirmSelect(false)];
      if r.confirm.Fail? {
        Close();
        return "", Some(r.confirm.error);
      }

      trace := trace + [QueueDeclare(candidate, true, false, false, false)];
      if r.declare.Fail? {
        Close();
        return "", Some(r.declare.error);
      }
      queueName := candidate;

      trace := trace + [QueueBind(candidate, candidate, exchange, false)];
      if r.bind.Fail? {
        Close();
        return "", Some(r.bind.error);
      }
      binded := true;

      return candidate, None;
    }

    /** Publishes `number` messages of `size` filler bytes, one confirmed message at a
        time. A transport error returns at once with the stats so far; a nack is only
        logged and the message is still counted. */
    method Publish(number: int, size: int, replies: nat -> Reply, w: Stats.Window)
      returns (stats: Stats.PublishStats, err: Option<Error>)
      requires hasChann && size >= 0
      modifies this
      ensures fresh(stats)
      ensures var o := Published(old(View()), number, size, replies, w);
        View() == o.state && stats.View() == o.stats && err == o.err
    {
      var raw := Filler(size);
      trace := trace + [NotifyPublish];
      stats := new Stats.PublishStats(queueName);
      stats.Start(w.start);
      ghost var sent;
      sent, err := Send(queueName, exchange, raw, number, replies, stats);
      // the publish calls go to `trace` as the method returns
      trace := trace + sent;
      // deferred
      stats.Stop(w.stop);
    }

    /** Closes the channel, then the connection, each only if it was opened. */
    method Close()
      modifies this
      ensures View() == Closed(old(View()))
    {
      if hasChann {
        trace := trace + [CloseChannel];
      }
      if hasConn {
        trace := trace + [CloseConnection];
      }
    }

    /** Unbinds the queue if it was bound, deletes it if it was declared, then closes. */
    method CloseAndCleanUp()
      requires binded || queueName != "" ==> hasChann
      modifies this
      ensures View() == CleanedUp(old(View()))
    {
      if binded {
        trace := trace + [QueueUnbind(queueName, queueName, exchange)];
      }
      if queueName != "" {
        trace := trace + [QueueDelete(queueName, false, false, false)];
      }
      Close();
    }

    /** The queue this publisher publishes to: empty until the declare succeeded,
        otherwise a generated, prefixed name. */
    function QueueName(): (name: string)
      reads this
      requires Valid()
      ensures name == "" || (|name| == UuidLength && name[..|QueuePrefix|] == QueuePrefix)
    {
      queueName
    }
  }
}
