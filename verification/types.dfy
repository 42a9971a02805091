/** Values shared by the auto-recovering consumer and producer: optional values,
    the exceptions the recovery core raises or passes through, and the small
    slice of the transport (connections, live consumers, messages) that the
    core talks to. */
module Types {

  datatype Option<+T> = None | Some(value: T)

  datatype Result<+T> = Success(value: T) | Failure(error: Exception)

  /** The exceptions the recovery core raises, catches or passes through.
      A closed-exception carries the failure cause it wraps, or None when it
      is the plain, cause-less form. Any other transport or broker failure is
      a `BrokerException` told apart by a code. */
  datatype Exception =
    | ConsumerClosedException(inner: Option<Exception>)
    | ProducerClosedException(inner: Option<Exception>)
    | OperationCanceledException
    | NullReferenceException
    | BrokerException(code: nat)

  /** What an operation that may throw leaves behind: the exception it
      threw (None when it returned normally) and the state afterwards. */
  datatype Completion<+S> = Completion(error: Option<Exception>, state: S)

  datatype RoutingType = Anycast | Multicast

  /** The immutable description a consumer is (re)created from. */
  datatype ConsumerConfiguration = ConsumerConfiguration(
    address: string,
    routingType: RoutingType,
    queue: string,
    durable: bool,
    shared: bool)

  /** A consumer link that the connection with id `connection` attached for
      `config`. */
  datatype LiveConsumer = LiveConsumer(connection: nat, config: ConsumerConfiguration)

  /** A live connection, as far as the recovery core can observe it: its
      identity, and the configurations for which the broker refuses to
      create a consumer, with the exception it answers. */
  datatype Connection = Connection(id: nat, refusals: map<ConsumerConfiguration, Exception>)

  datatype Message = Message(body: string)

  datatype Transaction = Transaction(id: nat)

  /** The connection's consumer factory: either a fresh consumer attached to
      this connection for exactly the requested configuration, or the
      broker's refusal. */
  function CreateConsumer(connection: Connection, config: ConsumerConfiguration): Result<LiveConsumer>
  {
    if config in connection.refusals then Failure(connection.refusals[config])
    else Success(LiveConsumer(connection.id, config))
  }
}
