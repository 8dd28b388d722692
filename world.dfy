/** What the scraper talks to: the feed's HTTP server, the message broker and the clock.
    Their answers are fixed in advance as oracles indexed by how many requests or deliveries
    came before, so that a run is a function of its inputs; the effects a run has on them
    are counted and recorded in a trace. */
module Environment {
  import opened Py

  /** What one GET of the feed produced: a response with its status and its body parsed as
      JSON (None when the body is not valid JSON), a timeout, a client error (connection
      refused, DNS failure, ...), or any other exception. */
  datatype HttpOutcome =
    | Response(status: int, body: Option<Json>)
    | Timeout
    | ClientError
    | OtherError

  /** A message handed to the topic exchange. */
  datatype Message = Message(routingKey: string, body: Json, persistent: bool, contentType: string)

  datatype Event =
    | Request(url: string)
    | Deliver(message: Message, accepted: bool)
    | Sleep(seconds: int)

  /** The observable state of the outside world as a value: how many requests reached the
      feed, how many messages reached the broker, and everything that happened in order. */
  datatype Log = Log(requests: nat, deliveries: nat, trace: seq<Event>)

  function AfterRequest(l: Log, url: string): (r: Log)
    ensures r.requests == l.requests + 1 && r.deliveries == l.deliveries
    ensures r.trace == l.trace + [Request(url)]
  {
    Log(l.requests + 1, l.deliveries, l.trace + [Request(url)])
  }

  function AfterDeliver(l: Log, m: Message, accepted: bool): (r: Log)
    ensures r.requests == l.requests && r.deliveries == l.deliveries + 1
    ensures r.trace == l.trace + [Deliver(m, accepted)]
  {
    Log(l.requests, l.deliveries + 1, l.trace + [Deliver(m, accepted)])
  }

  function AfterSleep(l: Log, seconds: int): (r: Log)
    ensures r.requests == l.requests && r.deliveries == l.deliveries
    ensures r.trace == l.trace + [Sleep(seconds)]
  {
    Log(l.requests, l.deliveries, l.trace + [Sleep(seconds)])
  }

  class World {
    /** The outcome of the k-th request to the feed. */
    const respond: nat -> HttpOutcome
    /** Whether the broker confirms the k-th message handed to it. */
    const accept: nat -> bool
    /** Whether the broker accepts a connection. */
    const brokerUp: bool

    var requests: nat
    var deliveries: nat
    ghost var trace: seq<Event>

    ghost function State(): Log
      reads this
    {
      Log(requests, deliveries, trace)
    }

    constructor(respond: nat -> HttpOutcome, accept: nat -> bool, brokerUp: bool)
      ensures this.respond == respond && this.accept == accept && this.brokerUp == brokerUp
      ensures State() == Log(0, 0, [])
    {
      this.respond := respond;
      this.accept := accept;
      this.brokerUp := brokerUp;
      requests := 0;
      deliveries := 0;
      trace := [];
    }

    /** One GET of `url`. */
    method Get(url: string) returns (outcome: HttpOutcome)
      modifies this
      ensures outcome == respond(old(requests))
      ensures State() == AfterRequest(old(State()), url)
    {
      outcome := respond(requests);
      requests := requests + 1;
      trace := trace + [Request(url)];
    }

    /** Hands `m` to the exchange; true when the broker takes it. */
    method Publish(m: Message) returns (accepted: bool)
      modifies this
      ensures accepted == accept(old(deliveries))
      ensures State() == AfterDeliver(old(State()), m, accepted)
    {
      accepted := accept(deliveries);
      deliveries := deliveries + 1;
      trace := trace + [Deliver(m, accepted)];
    }

    /** asyncio.sleep(seconds) */
    method Sleep(seconds: int)
      modifies this
      ensures State() == AfterSleep(old(State()), seconds)
    {
      trace := trace + [Event.Sleep(seconds)];
    }
  }
}
