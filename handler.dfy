/** aws/handler.go: the serverless entry point. It sets up one publisher, checks the
    requested load, publishes it and reports back on the event it was given. */
module AwsHandler {
  import opened Wrappers
  import opened Amqp
  import Stats
  import opened RmqPublisher

  /** A publish error as reported in `nonFatalError`: the queue it happened on and the
      error ("<queue> encountered error during publishing: <error>"). */
  datatype PublishFailure = PublishFailure(queueName: string, error: Error)

  /** `LambdaEvent`. `summary` stands for the text `String()` renders from the stats,
      and an absent optional field for the empty string. */
  datatype LambdaEvent = LambdaEvent(queueURL: string, exchange: string,
                                     messageNumber: int, messageSize: int,
                                     queueName: string,
                                     summary: Option<Stats.StatsView>,
                                     nonFatalError: Option<PublishFailure>)

  /** What `Handle` returns, with the broker calls its publisher issued. */
  datatype HandleOutcome = HandleOutcome(evt: LambdaEvent, err: Option<Error>, calls: seq<Call>)

  /** `Handle` on values: set up the publisher, then name the queue in the event,
      check the count, then the size, publish, and close the publisher (deferred once
      the setup succeeded). */
  function Handled(evt: LambdaEvent, r: SetupReplies, replies: nat -> Reply, w: Stats.Window): HandleOutcome
  {
    var a := Asserted(NewPublisher(evt.queueURL, evt.exchange), r);
    if a.err.Some? then HandleOutcome(evt, a.err, a.state.trace)
    else
      var named := evt.(queueName := a.name);
      if evt.messageNumber < 1 then
        HandleOutcome(named, Some(InvalidMessageNumber(evt.messageNumber)), Closed(a.state).trace)
      else if evt.messageSize < 1 then
        HandleOutcome(named, Some(InvalidMessageSize(evt.messageSize)), Closed(a.state).trace)
      else
        var p := Published(a.state, evt.messageNumber, evt.messageSize, replies, w);
        var reported := named.(summary := Some(p.stats));
        var out := if p.err.Some? then reported.(nonFatalError := Some(PublishFailure(a.name, p.err.value)))
                   else reported;
        HandleOutcome(out, None, Closed(p.state).trace)
  }

  /** The event `Handle` returns: unchanged with the setup error when the setup fails;
      otherwise named after the generated queue, then refused with the count error or
      else the size error, and otherwise accepted with the stats as summary and a
      publish error, if any, recorded as non-fatal. The settings always come back
      unchanged. */
  lemma HandledEvent(evt: LambdaEvent, r: SetupReplies, replies: nat -> Reply, w: Stats.Window)
    ensures var o := Handled(evt, r, replies, w);
      && o.evt.queueURL == evt.queueURL && o.evt.exchange == evt.exchange
      && o.evt.messageNumber == evt.messageNumber && o.evt.messageSize == evt.messageSize
      && (FailedStep(r).Some? ==> o.evt == evt && o.err == Some(StepError(r, FailedStep(r).value)))
      && (FailedStep(r).None? ==> o.evt.queueName == QueueNameFrom(r.randomId.value))
      && (FailedStep(r).None? && evt.messageNumber < 1 ==>
            o.err == Some(InvalidMessageNumber(evt.messageNumber))
            && o.evt == evt.(queueName := o.evt.queueName))
      && (FailedStep(r).None? && evt.messageNumber >= 1 && evt.messageSize < 1 ==>
            o.err == Some(InvalidMessageSize(evt.messageSize))
            && o.evt == evt.(queueName := o.evt.queueName))
      && (FailedStep(r).None? && evt.messageNumber >= 1 && evt.messageSize >= 1 ==>
            var loop := PublishFrom(o.evt.queueName, evt.exchange, Filler(evt.messageSize), evt.messageNumber, replies, 0);
            && o.err == None
            && o.evt.summary == Some(Stats.StatsView(o.evt.queueName, loop.count, w.start, w.stop - w.start))
            && o.evt.nonFatalError == (if loop.err.Some? then Some(PublishFailure(o.evt.queueName, loop.err.value))
                                       else evt.nonFatalError))
  {
    AssertedFresh(evt.queueURL, evt.exchange, r);
  }

  /** A load that goes through entirely, every message acked or nacked, is reported in
      full: the summary counts `messageNumber` messages and no non-fatal error is
      added. */
  lemma HandledFullLoad(evt: LambdaEvent, r: SetupReplies, replies: nat -> Reply, w: Stats.Window)
    requires FailedStep(r).None? && evt.messageNumber >= 1 && evt.messageSize >= 1
    requires forall j :: 0 <= j < evt.messageNumber ==> replies(j).Confirmation?
    ensures var o := Handled(evt, r, replies, w);
      && o.err == None
      && o.evt.summary.Some? && o.evt.summary.value.totalMessage == evt.messageNumber
      && o.evt.nonFatalError == evt.nonFatalError
  {
    HandledEvent(evt, r, replies, w);
    AllConfirmedPublishesAll(QueueNameFrom(r.randomId.value), evt.exchange, Filler(evt.messageSize),
                             evt.messageNumber, replies, 0);
  }

  /** The publisher's broker calls: a failed setup closes itself (or, on a dial or
      name failure, has nothing to close); after a successful setup the handler only
      closes the publisher, whatever happens, and never unbinds or deletes the queue,
      which stays on the broker for consumers to drain. */
  lemma HandledCalls(evt: LambdaEvent, r: SetupReplies, replies: nat -> Reply, w: Stats.Window)
    requires FailedStep(r).None?
    ensures var o := Handled(evt, r, replies, w);
      var setup := SetupCalls(evt.queueURL, evt.exchange, QueueNameFrom(r.randomId.value));
      && (evt.messageNumber < 1 || evt.messageSize < 1 ==> o.calls == setup + [CloseChannel, CloseConnection])
      && (evt.messageNumber >= 1 && evt.messageSize >= 1 ==>
            var loop := PublishFrom(QueueNameFrom(r.randomId.value), evt.exchange, Filler(evt.messageSize),
                                    evt.messageNumber, replies, 0);
            o.calls == setup + [NotifyPublish] + loop.calls + [CloseChannel, CloseConnection])
  {
    AssertedFresh(evt.queueURL, evt.exchange, r);
  }

  /** `Handle`: drives a publisher through setup and one load. */
  method Handle(evt: LambdaEvent, r: SetupReplies, replies: nat -> Reply, w: Stats.Window)
    returns (out: LambdaEvent, err: Option<Error>, ghost calls: seq<Call>)
    ensures out == Handled(evt, r, replies, w).evt && err == Handled(evt, r, replies, w).err
    ensures calls == Handled(evt, r, replies, w).calls
  {
    var pub := new Publisher(evt.queueURL, evt.exchange);
    var queueName;
    queueName, err := pub.AssertQueue(r);
    if err.Some? {
      return evt, err, pub.trace;
    }
    out := evt.(queueName := queueName);

    if evt.messageNumber < 1 {
      pub.Close();
      return out, Some(InvalidMessageNumber(evt.messageNumber)), pub.trace;
    }
    if evt.messageSize < 1 {
      pub.Close();
      return out, Some(InvalidMessageSize(evt.messageSize)), pub.trace;
    }

    var stats, publishErr := pub.Publish(evt.messageNumber, evt.messageSize, replies, w);
    out := out.(summary := Some(stats.View()));
    if publishErr.Some? {
      out := out.(nonFatalError := Some(PublishFailure(pub.QueueName(), publishErr.value)));
    }
    // deferred
    pub.Close();
    err, calls := None, pub.trace;
  }
}
