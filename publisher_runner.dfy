/** runner/publisher.go: a runner that sets up `totalRunners` publishers, each with a
    queue of its own, then has every one of them publish the same load. */
module RunnerPublisher {
  import opened Wrappers
  import opened Amqp
  import Stats
  import opened RmqPublisher

  /** Index of the first publisher from `i` on whose `AssertQueue` fails, or `total`
      if none does. */
  function FirstFailure(attempts: nat -> SetupReplies, i: nat, total: nat): (k: nat)
    requires i <= total
    ensures i <= k <= total
    ensures forall j :: i <= j < k ==> FailedStep(attempts(j)).None?
    ensures k < total ==> FailedStep(attempts(k)).Some?
    decreases total - i
  {
    if i == total || FailedStep(attempts(i)).Some? then i
    else FirstFailure(attempts, i + 1, total)
  }

  /** The queue name `AssertQueue` generates from `r`, empty if it generated none. */
  function GeneratedName(r: SetupReplies): string
  {
    if r.randomId.Success? then QueueNameFrom(r.randomId.value) else ""
  }

  /** The names generated by the first `n` setups, in order. */
  function Names(attempts: nat -> SetupReplies, n: nat): (names: seq<string>)
    ensures |names| == n
  {
    if n == 0 then [] else Names(attempts, n - 1) + [GeneratedName(attempts(n - 1))]
  }

  /** The `j`-th of the names is the one the `j`-th setup generated. */
  lemma {:induction false} NamesAt(attempts: nat -> SetupReplies, n: nat, j: nat)
    requires j < n
    ensures Names(attempts, n)[j] == GeneratedName(attempts(j))
  {
    if j < n - 1 {
      NamesAt(attempts, n - 1, j);
    }
  }

  /** One turn of the loop of `SetUpPublishers`: a new publisher and its queue. */
  method SetUpOne(queueURL: string, exchange: string, r: SetupReplies)
    returns (pub: Publisher, name: string, err: Option<Error>)
    ensures fresh(pub)
    ensures FailedStep(r).None? ==>
      err.None? && name == GeneratedName(r) && pub.View() == Ready(queueURL, exchange, name)
    ensures FailedStep(r).Some? ==> err == Some(StepError(r, FailedStep(r).value))
  {
    pub := new Publisher(queueURL, exchange);
    name, err := pub.AssertQueue(r);
    AssertedFresh(queueURL, exchange, r);
  }

  /** The loop of `SetUpPublishers`: creates publishers and sets up their queues in
      turn, stopping at the first failure. It returns the publishers that succeeded
      (all of them fresh and distinct), their queue names, and the failure. */
  method SetUpEach(queueURL: string, exchange: string, total: nat, attempts: nat -> SetupReplies)
    returns (created: seq<Publisher>, names: seq<string>, err: Option<Error>)
    ensures var k := FirstFailure(attempts, 0, total);
      && |created| == k && |names| == k
      && (err.None? <==> k == total)
      && (k < total ==> err == Some(StepError(attempts(k), FailedStep(attempts(k)).value)))
      && names == Names(attempts, k)
    ensures forall j, l :: 0 <= j < l < |created| ==> created[j] != created[l]
    ensures forall j :: 0 <= j < |created| ==>
      fresh(created[j]) && created[j].View() == Ready(queueURL, exchange, names[j])
  {
    ghost var k := FirstFailure(attempts, 0, total);
    created, names := [], [];
    var i := 0;
    while i < total
      invariant 0 <= i <= k
      invariant |created| == i && |names| == i
      invariant names == Names(attempts, i)
      invariant forall j, l :: 0 <= j < l < i ==> created[j] != created[l]
      invariant forall j :: 0 <= j < i ==>
        fresh(created[j]) && created[j].View() == Ready(queueURL, exchange, names[j])
      decreases total - i
    {
      var pub, name, e := SetUpOne(queueURL, exchange, attempts(i));
      if e.Some? {
        return created, names, e;
      }
      names := names + [name];
      created := created + [pub];
      i := i + 1;
    }
    err := None;
  }

  /** rmq's `PublisherRunner`; the context is left out. */
  class PublisherRunner {
    const queueURL: string
    const exchange: string
    const messageNumber: int
    const messageSize: int
    const totalRunners: int
    var publishers: seq<Publisher>

    /** The publishers are distinct, and each has an open channel and a bound queue. */
    ghost predicate Valid()
      reads this, publishers
    {
      && (forall i, j :: 0 <= i < j < |publishers| ==> publishers[i] != publishers[j])
      && (forall i :: 0 <= i < |publishers| ==> publishers[i].hasChann && publishers[i].binded)
    }

    /** `CreatePublisherRunner`: stores the settings, no publishers yet. */
    constructor (queueURL: string, exchange: string, messageNumber: int, messageSize: int, totalRunners: int)
      ensures Valid() && publishers == []
      ensures this.queueURL == queueURL && this.exchange == exchange
      ensures this.messageNumber == messageNumber && this.messageSize == messageSize
      ensures this.totalRunners == totalRunners
    {
      this.queueURL := queueURL;
      this.exchange := exchange;
      this.messageNumber := messageNumber;
      this.messageSize := messageSize;
      this.totalRunners := totalRunners;
      publishers := [];
    }

    /** Creates and sets up `totalRunners` publishers in turn, the `i`-th answered by
        `attempts(i)`. At the first failing setup it stops, cleans up every publisher it
        kept and returns that error with no names; the failed publisher has closed
        itself and is not kept. Otherwise it keeps them all and returns their queue
        names in order. */
    method SetUpPublishers(attempts: nat -> SetupReplies) returns (names: seq<string>, err: Option<Error>)
      requires Valid() && publishers == []
      modifies this
      ensures Valid()
      ensures totalRunners < 1 ==> names == [] && err == Some(InvalidRunners(totalRunners)) && publishers == []
      ensures totalRunners >= 1 ==>
        var k := FirstFailure(attempts, 0, totalRunners);
        && |publishers| == k
        && (err.None? <==> k == totalRunners)
        && (k == totalRunners ==> names == Names(attempts, k))
        && (k < totalRunners ==> names == [] && err == Some(StepError(attempts(k), FailedStep(attempts(k)).value)))
      ensures forall j :: 0 <= j < |publishers| ==>
        var ready := Ready(queueURL, exchange, Names(attempts, |publishers|)[j]);
        fresh(publishers[j]) && publishers[j].View() == if err.Some? then CleanedUp(ready) else ready
    {
      if totalRunners < 1 {
        return [], Some(InvalidRunners(totalRunners));
      }
      var created;
      created, names, err := SetUpEach(queueURL, exchange, totalRunners, attempts);
      publishers := created;
      if err.Some? {
        // deferred: clean up every publisher kept so far
        CloseAndCleanUp();
        names := [];
      }
    }

    /** Checks the message count, then the message size, then has every publisher
        publish: the `i`-th gets `replies(i)` for its confirmations and `windows(i)` for
        its clock readings. A publish error is only logged; every publisher's stats are
        reported, in publisher order. */
    method Run(replies: nat -> (nat -> Reply), windows: nat -> Stats.Window)
      returns (reports: seq<Stats.PublishStats>, err: Option<Error>)
      requires Valid()
      modifies publishers
      ensures Valid()
      ensures messageNumber < 1 ==> err == Some(InvalidMessageNumber(messageNumber))
      ensures messageNumber >= 1 && messageSize < 1 ==> err == Some(InvalidMessageSize(messageSize))
      ensures err.Some? ==> reports == [] && forall j :: 0 <= j < |publishers| ==> publishers[j].View() == old(publishers[j].View())
      ensures messageNumber >= 1 && messageSize >= 1 ==>
        && err == None && |reports| == |publishers|
        && forall j :: 0 <= j < |publishers| ==>
             var o := Published(old(publishers[j].View()), messageNumber, messageSize, replies(j), windows(j));
             fresh(reports[j]) && publishers[j].View() == o.state && reports[j].View() == o.stats
    {
      if messageNumber < 1 {
        return [], Some(InvalidMessageNumber(messageNumber));
      }
      if messageSize < 1 {
        return [], Some(InvalidMessageSize(messageSize));
      }
      reports := [];
      for i := 0 to |publishers|
        invariant Valid()
        invariant |reports| == i
        invariant forall j :: 0 <= j < i ==>
          var o := Published(old(publishers[j].View()), messageNumber, messageSize, replies(j), windows(j));
          fresh(reports[j]) && publishers[j].View() == o.state && reports[j].View() == o.stats
        invariant forall j :: i <= j < |publishers| ==> publishers[j].View() == old(publishers[j].View())
      {
        var stats, _ := publishers[i].Publish(messageNumber, messageSize, replies(i), windows(i));
        reports := reports + [stats];
      }
      err := None;
    }

    /** Closes every publisher and removes its queue binding and queue. */
    method CloseAndCleanUp()
      requires Valid()
      modifies publishers
      ensures Valid()
      ensures forall j :: 0 <= j < |publishers| ==> publishers[j].View() == CleanedUp(old(publishers[j].View()))
    {
      for i := 0 to |publishers|
        invariant Valid()
        invariant forall j :: 0 <= j < i ==> publishers[j].View() == CleanedUp(old(publishers[j].View()))
        invariant forall j :: i <= j < |publishers| ==> publishers[j].View() == old(publishers[j].View())
      {
        publishers[i].CloseAndCleanUp();
      }
    }

    /** Closes every publisher, leaving the queues in place. */
    method Close()
      requires Valid()
      modifies publishers
      ensures Valid()
      ensures forall j :: 0 <= j < |publishers| ==> publishers[j].View() == Closed(old(publishers[j].View()))
    {
      for i := 0 to |publishers|
        invariant Valid()
        invariant forall j :: 0 <= j < i ==> publishers[j].View() == Closed(old(publishers[j].View()))
        invariant forall j :: i <= j < |publishers| ==> publishers[j].View() == old(publishers[j].View())
      {
        publishers[i].Close();
      }
    }
  }
}
