/** The part of the AMQP client library the harness relies on, reduced to what the
    control logic can observe: every call either succeeds or fails with an error, and
    a successful call is recorded in the caller's trace of broker calls. */
module Amqp {

  /** An error value. Library and random-source errors are opaque; the errors the
      harness raises itself carry the values their messages are formatted from. */
  datatype Error =
    | Library(reason: string)              // an error returned by the AMQP client or the UUID source
    | Idle(queueName: string)              // "<queue> has been idle for at least 30 second"
    | InvalidRunners(totalRunners: int)    // "Invalide number of runners is configured: %d"
    | InvalidMessageNumber(number: int)    // "Invalide number of messages is configured: %d"
    | InvalidMessageSize(size: int)        // "Invalide message size is configured: %d"

  /** The answer of the broker (or of the client library) to one call. */
  datatype Outcome = Ok | Fail(error: Error)

  /** A byte of a message body. */
  newtype Byte = x: int | 0 <= x < 256

  /** `amqp.Persistent`, the delivery mode of every published message. */
  const Persistent: int := 2

  /** A message as handed to `Channel.Publish`. */
  datatype Publishing = Publishing(deliveryMode: int, body: seq<Byte>, kind: string, messageId: string)

  /** A broker call issued by a publisher or a consumer, with the arguments the
      harness passes. Flags keep the library's parameter names and order. */
  datatype Call =
    | Dial(url: string)
    | OpenChannel
    | ConfirmSelect(noWait: bool)
    | Qos(prefetchCount: int, prefetchSize: int, global: bool)
    | QueueDeclare(name: string, durable: bool, autoDelete: bool, exclusive: bool, noWait: bool)
    | QueueBind(name: string, key: string, exchange: string, noWait: bool)
    | QueueUnbind(name: string, key: string, exchange: string)
    | QueueDelete(name: string, ifUnused: bool, ifEmpty: bool, noWait: bool)
    | NotifyPublish
    | BasicPublish(exchange: string, key: string, mandatory: bool, immediate: bool, msg: Publishing)
    | BasicConsume(queue: string, consumerTag: string, autoAck: bool, exclusive: bool, noLocal: bool, noWait: bool)
    | CloseChannel
    | CloseConnection

  /** The calls `Close` issues: the channel first, then the connection, each only
      when it was ever opened. */
  function ReleaseCalls(hasChann: bool, hasConn: bool): seq<Call>
  {
    (if hasChann then [CloseChannel] else []) + (if hasConn then [CloseConnection] else [])
  }

  /** `Close` closes exactly what was opened, each once, the channel before the
      connection. */
  lemma ReleaseClosesWhatIsOpen(hasChann: bool, hasConn: bool)
    ensures var calls := ReleaseCalls(hasChann, hasConn);
      && (CloseChannel in calls <==> hasChann)
      && (CloseConnection in calls <==> hasConn)
      && |calls| == (if hasChann then 1 else 0) + (if hasConn then 1 else 0)
      && (hasChann && hasConn ==> calls == [CloseChannel, CloseConnection])
  {
  }
}
