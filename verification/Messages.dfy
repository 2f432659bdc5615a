/** Messages and control signals, as immutable values, and the queues they wait in. */
module Messages {
  datatype Option<T> = None | Some(value: T)

  /** A queue takes one more while it holds fewer than its size; zero or less is unbounded. */
  predicate HasRoom<T>(maxsize: int, q: seq<T>)
  {
    maxsize <= 0 || |q| < maxsize
  }

  datatype Signal = StopPropagate | Stop | Start | StartPropagate | Warmup | Suspend | Resume

  function Value(signal: Signal): int
  {
    match signal
    case StopPropagate => -2
    case Stop => -1
    case Start => 0
    case StartPropagate => 1
    case Warmup => 2
    case Suspend => 3
    case Resume => 4
  }

  datatype Payload =
    | Object(topic: string, body: string)
    | Batch(messages: seq<Message>)
    | Control(signal: Signal)

  /** `dataSource` is the stamp a node puts on what it transmits: the id of the message it is working on. */
  datatype Message = Message(id: int, creator: string, payload: Payload, dataSource: Option<int>)

  predicate IsControl(m: Message)
  {
    m.payload.Control?
  }

  /** Any control signal below zero is a stop. */
  predicate Stops(m: Message)
  {
    m.payload.Control? && Value(m.payload.signal) < 0
  }

  predicate Propagates(m: Message)
  {
    m.payload == Control(StopPropagate)
  }
}
