/** runner/consumer.go: a runner that attaches one consumer to each of the given
    queues, then has every one of them drain the same number of messages. */
module RunnerConsumer {
  import opened Wrappers
  import opened Amqp
  import Stats
  import opened RmqConsumer

  /** Index of the first queue from `i` on whose consumer fails to set up, or `total`
      if none does. */
  function FirstFailure(attempts: nat -> ConsumerReplies, i: nat, total: nat): (k: nat)
    requires i <= total
    ensures i <= k <= total
    ensures forall j :: i <= j < k ==> FailedStep(attempts(j)).None?
    ensures k < total ==> FailedStep(attempts(k)).Some?
    decreases total - i
  {
    if i == total || FailedStep(attempts(i)).Some? then i
    else FirstFailure(attempts, i + 1, total)
  }

  /** One turn of the loop of `SetUpConsumers`: a new consumer on `queueName`. */
  method SetUpOne(queueURL: string, queueName: string, r: ConsumerReplies)
    returns (con: Consumer, err: Option<Error>)
    ensures fresh(con)
    ensures FailedStep(r).None? ==> err.None? && con.View() == Ready(queueURL, queueName)
    ensures FailedStep(r).Some? ==> err == Some(StepError(r, FailedStep(r).value))
  {
    con := new Consumer(queueName, queueURL);
    err := con.AssertQueue(r);
    AssertedFresh(queueURL, queueName, r);
  }

  /** The loop of `SetUpConsumers`: one consumer per queue name, in order, stopping at
      the first failure. It returns the consumers that succeeded (fresh and distinct)
      and the failure. */
  method SetUpEach(queueURL: string, queueNames: seq<string>, attempts: nat -> ConsumerReplies)
    returns (created: seq<Consumer>, err: Option<Error>)
    ensures var k := FirstFailure(attempts, 0, |queueNames|);
      && |created| == k
      && (err.None? <==> k == |queueNames|)
      && (k < |queueNames| ==> err == Some(StepError(attempts(k), FailedStep(attempts(k)).value)))
    ensures forall j, l :: 0 <= j < l < |created| ==> created[j] != created[l]
    ensures forall j :: 0 <= j < |created| ==>
      fresh(created[j]) && created[j].View() == Ready(queueURL, queueNames[j])
  {
    ghost var k := FirstFailure(attempts, 0, |queueNames|);
    created := [];
    var i := 0;
    while i < |queueNames|
      invariant 0 <= i <= k
      invariant |created| == i
      invariant forall j, l :: 0 <= j < l < i ==> created[j] != created[l]
      invariant forall j :: 0 <= j < i ==>
        fresh(created[j]) && created[j].View() == Ready(queueURL, queueNames[j])
      decreases |queueNames| - i
    {
      var con, e := SetUpOne(queueURL, queueNames[i], attempts(i));
      if e.Some? {
        return created, e;
      }
      created := created + [con];
      i := i + 1;
    }
    err := None;
  }

  /** The workers of `Run`, taken one after the other: each consumer drains `n`
      messages on its own inputs. The stats come back in consumer order, and the
      fan-in completes exactly when every consumer's call returned. */
  method ConsumeEach(consumers: seq<Consumer>, n: int, replies: nat -> Outcome, events: nat -> seq<Event>,
                     windows: nat -> Stats.Window)
    returns (reports: seq<Stats.ConsumeStats?>, returned: bool)
    requires forall i, j :: 0 <= i < j < |consumers| ==> consumers[i] != consumers[j]
    requires forall i :: 0 <= i < |consumers| ==>
      consumers[i].asserted && consumers[i].hasChann && consumers[i].hasConn
    modifies consumers
    ensures forall i :: 0 <= i < |consumers| ==>
      consumers[i].asserted && consumers[i].hasChann && consumers[i].hasConn
    ensures |reports| == |consumers|
    ensures returned <==> forall j :: 0 <= j < |consumers| ==>
      Consumed(old(consumers[j].View()), n, replies(j), events(j), windows(j)).returned
    ensures forall j :: 0 <= j < |consumers| ==>
      var o := Consumed(old(consumers[j].View()), n, replies(j), events(j), windows(j));
      && consumers[j].View() == o.state
      && (reports[j] == null <==> o.stats.None?)
      && (reports[j] != null ==> fresh(reports[j]) && reports[j].View() == o.stats.value)
  {
    reports := [];
    returned := true;
    for i := 0 to |consumers|
      invariant forall j :: 0 <= j < |consumers| ==>
        consumers[j].asserted && consumers[j].hasChann && consumers[j].hasConn
      invariant |reports| == i
      invariant returned <==> forall j :: 0 <= j < i ==>
        Consumed(old(consumers[j].View()), n, replies(j), events(j), windows(j)).returned
      invariant forall j :: 0 <= j < i ==>
        var o := Consumed(old(consumers[j].View()), n, replies(j), events(j), windows(j));
        && consumers[j].View() == o.state
        && (reports[j] == null <==> o.stats.None?)
        && (reports[j] != null ==> fresh(reports[j]) && reports[j].View() == o.stats.value)
      invariant forall j :: i <= j < |consumers| ==> consumers[j].View() == old(consumers[j].View())
    {
      var stats, _, done := consumers[i].Consume(n, replies(i), events(i), windows(i));
      reports := reports + [stats];
      returned := returned && done;
    }
  }

  /** rmq's `ConsumerRunner`. The parent context is left out; `hasCancel` says whether
      `cancel` is set, `canceled` whether it has been called. */
  class ConsumerRunner {
    const queueURL: string
    const messageNumber: int
    const queueNames: seq<string>
    var consumers: seq<Consumer>
    var hasCancel: bool
    var canceled: bool

    /** The consumers are distinct, and each has declared its queue over an open
        channel. */
    ghost predicate Valid()
      reads this, consumers
    {
      && (forall i, j :: 0 <= i < j < |consumers| ==> consumers[i] != consumers[j])
      && (forall i :: 0 <= i < |consumers| ==>
            consumers[i].asserted && consumers[i].hasChann && consumers[i].hasConn)
    }

    /** `CreateConsumerRunner`: stores the settings, no consumers and no cancel function
        yet. */
    constructor (queueURL: string, messageNumber: int, queueNames: seq<string>)
      ensures Valid() && consumers == [] && !hasCancel && !canceled
      ensures this.queueURL == queueURL && this.messageNumber == messageNumber
      ensures this.queueNames == queueNames
    {
      this.queueURL := queueURL;
      this.messageNumber := messageNumber;
      this.queueNames := queueNames;
      consumers := [];
      hasCancel, canceled := false, false;
    }

    /** Sets a fresh cancel function, then creates and sets up a consumer per queue
        name in turn, the `i`-th answered by `attempts(i)`. At the first failing setup
        it stops, cleans up every consumer it kept and returns that error; the failed
        consumer has closed itself and is not kept. An empty list of names succeeds. */
    method SetUpConsumers(attempts: nat -> ConsumerReplies) returns (err: Option<Error>)
      requires Valid() && consumers == []
      modifies this
      ensures Valid() && hasCancel && !canceled
      ensures var k := FirstFailure(attempts, 0, |queueNames|);
        && |consumers| == k
        && (err.None? <==> k == |queueNames|)
        && (k < |queueNames| ==> err == Some(StepError(attempts(k), FailedStep(attempts(k)).value)))
      ensures forall j :: 0 <= j < |consumers| ==>
        var ready := Ready(queueURL, queueNames[j]);
        fresh(consumers[j]) && consumers[j].View() == if err.Some? then CleanedUp(ready) else ready
    {
      hasCancel, canceled := true, false;
      var created;
      created, err := SetUpEach(queueURL, queueNames, attempts);
      consumers := created;
      if err.Some? {
        // deferred: clean up every consumer kept so far
        CloseAndCleanUp();
      }
    }

    /** Checks the message count, then has every consumer drain `messageNumber`
        messages: the `i`-th gets `replies(i)` for its consume call, `events(i)` for
        what its channel and timer deliver and `windows(i)` for its clock readings. A
        consume error is only logged; every consumer's stats (none when its consume
        call was refused) are reported, in consumer order. Run returns once every
        consumer has, and then calls `cancel`. */
    method Run(replies: nat -> Outcome, events: nat -> seq<Event>, windows: nat -> Stats.Window)
      returns (reports: seq<Stats.ConsumeStats?>, err: Option<Error>, returned: bool)
      requires Valid() && hasCancel
      modifies this, consumers
      ensures consumers == old(consumers) && hasCancel && Valid()
      ensures canceled == (returned || old(canceled))
      ensures messageNumber < 1 ==>
        && err == Some(InvalidMessageNumber(messageNumber)) && reports == [] && returned
        && forall j :: 0 <= j < |consumers| ==> consumers[j].View() == old(consumers[j].View())
      ensures messageNumber >= 1 ==>
        && err == None && |reports| == |consumers|
        && (returned <==> forall j :: 0 <= j < |consumers| ==> Consumed(old(consumers[j].View()), messageNumber, replies(j), events(j), windows(j)).returned)
        && forall j :: 0 <= j < |consumers| ==>
             var o := Consumed(old(consumers[j].View()), messageNumber, replies(j), events(j), windows(j));
             && consumers[j].View() == o.state
             && (reports[j] == null <==> o.stats.None?)
             && (reports[j] != null ==> fresh(reports[j]) && reports[j].View() == o.stats.value)
    {
      if messageNumber < 1 {
        // deferred
        canceled := true;
        return [], Some(InvalidMessageNumber(messageNumber)), true;
      }
      reports, returned := ConsumeEach(consumers, messageNumber, replies, events, windows);
      err := None;
      if returned {
        // deferred
        canceled := true;
      }
    }

    /** Has every consumer delete its queue and close. */
    method CloseAndCleanUp()
      requires Valid()
      modifies consumers
      ensures Valid()
      ensures forall j :: 0 <= j < |consumers| ==> consumers[j].View() == CleanedUp(old(consumers[j].View()))
    {
      for i := 0 to |consumers|
        invariant Valid()
        invariant forall j :: 0 <= j < i ==> consumers[j].View() == CleanedUp(old(consumers[j].View()))
        invariant forall j :: i <= j < |consumers| ==> consumers[j].View() == old(consumers[j].View())
      {
        consumers[i].CloseAndCleanUp();
      }
    }
  }
}
