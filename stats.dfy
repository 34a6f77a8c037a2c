/** The per-worker counters of rmq/publishStats.go and rmq/consumerStats.go. The two
    Go types are near-identical; each is a class here, and both are specified by the
    same value-level view. Time is an abstract integer clock; the derived rate and the
    text summary are not modelled. */
module Stats {

  /** What a stats record holds: the queue it belongs to, the message count, the
      clock reading at `Start` and the duration computed by `Stop`. */
  datatype StatsView = StatsView(queueName: string, totalMessage: int, start: int, duration: int)

  /** The clock readings a worker observes when it starts and when it stops its stats. */
  datatype Window = Window(start: int, stop: int)

  /** A fresh record: only the queue name is set; Go's zero values elsewhere. */
  function Created(queueName: string): StatsView
  {
    StatsView(queueName, 0, 0, 0)
  }

  /** The record after one `IncrementMessage`. */
  function Incremented(v: StatsView): StatsView
  {
    v.(totalMessage := v.totalMessage + 1)
  }

  /** The record after `n` calls of `IncrementMessage`. */
  function IncrementedTimes(v: StatsView, n: nat): StatsView
  {
    if n == 0 then v else Incremented(IncrementedTimes(v, n - 1))
  }

  /** `n` increments move the count by exactly `n` and touch nothing else; from a
      fresh record the count is therefore `n`. */
  lemma {:induction false} IncrementsCount(v: StatsView, n: nat)
    ensures IncrementedTimes(v, n) == v.(totalMessage := v.totalMessage + n)
    ensures v == Created(v.queueName) ==> IncrementedTimes(v, n).totalMessage == n
  {
    if n > 0 {
      IncrementsCount(v, n - 1);
    }
  }

  /** rmq/publishStats.go's `PublishStats`. */
  class PublishStats {
    var queueName: string
    var totalMessage: int
    var start: int
    var duration: int

    function View(): StatsView
      reads this
    {
      StatsView(queueName, totalMessage, start, duration)
    }

    /** `CreatePublishStats`: the queue name is set, the count starts at 0. */
    constructor (queueName: string)
      ensures View() == Created(queueName)
      ensures this.queueName == queueName && totalMessage == 0
    {
      this.queueName := queueName;
      totalMessage := 0;
      start := 0;
      duration := 0;
    }

    /** Raises the count by exactly one; no other field changes. */
    method IncrementMessage()
      modifies this`totalMessage
      ensures totalMessage == old(totalMessage) + 1
      ensures View() == Incremented(old(View()))
    {
      totalMessage := totalMessage + 1;
    }

    /** Records the clock reading `now` as the start; no other field changes. */
    method Start(now: int)
      modifies this`start
      ensures start == now
    {
      start := now;
    }

    /** Sets the duration to the time elapsed since `start`; no other field changes. */
    method Stop(now: int)
      modifies this`duration
      ensures duration == now - start
    {
      duration := now - start;
    }
  }

  /** rmq/consumerStats.go's `ConsumeStats`. */
  class ConsumeStats {
    var queueName: string
    var totalMessage: int
    var start: int
    var duration: int

    function View(): StatsView
      reads this
    {
      StatsView(queueName, totalMessage, start, duration)
    }

    /** `CreateConsumeStats`: the queue name is set, the count starts at 0. */
    constructor (queueName: string)
      ensures View() == Created(queueName)
      ensures this.queueName == queueName && totalMessage == 0
    {
      this.queueName := queueName;
      totalMessage := 0;
      start := 0;
      duration := 0;
    }

    /** Raises the count by exactly one; no other field changes. */
    method IncrementMessage()
      modifies this`totalMessage
      ensures totalMessage == old(totalMessage) + 1
      ensures View() == Incremented(old(View()))
    {
      totalMessage := totalMessage + 1;
    }

    /** Records the clock reading `now` as the start; no other field changes. */
    method Start(now: int)
      modifies this`start
      ensures start == now
    {
      start := now;
    }

    /** Sets the duration to the time elapsed since `start`; no other field changes. */
    method Stop(now: int)
      modifies this`duration
      ensures duration == now - start
    {
      duration := now - start;
    }
  }
}
