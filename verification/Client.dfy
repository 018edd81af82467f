/**
 * The client's own variables and what each atomic section of its code does to them. It is
 * parametric in the message: the heap session uses it with wire messages, the delivery
 * protocol with packets.
 */
module Client {
  import opened Wrappers
  import opened PacketIds
  import opened Ledger

  /** The source also declares DISCONNECTING and never uses it. */
  datatype Status = Initial | Connected | Disconnected

  datatype Client<M> = Client(
    ledger: Ledger<M>, status: Status, ignorePubAck: bool, ignorePubComp: bool, open: bool, queue: seq<M>)

  const QUEUE_CAPACITY: nat := 100

  datatype AckKind = PubAck | PubRec | PubComp

  /** How the program dies. LostList is not a panic: releasing twice empties the list. */
  datatype Failure = NoFreeID | UnknownID | LostList | SendOnClosed

  /** What the handler still has to do after its first atomic section on an answer. */
  datatype Pending<M> = Nothing | Clear(id: int) | Send(msg: M) | Fail(failure: Failure)

  /** The client does not ignore answers of this kind. */
  predicate Heeded<M>(c: Client<M>, kind: AckKind) {
    if kind.PubComp? then !c.ignorePubComp else !c.ignorePubAck
  }

  function NewClient<M>(): Client<M> {
    Client(Fresh(), Initial, false, false, false, [])
  }

  /** The first half of a connect: the ledger and the ignore flags are set before CONNACK. */
  function Prepare<M>(c: Client<M>, clean: bool, ignorePubAck: bool, ignorePubComp: bool): Client<M> {
    c.(ledger := if clean then Fresh() else c.ledger,
       ignorePubAck := ignorePubAck, ignorePubComp := ignorePubComp)
  }

  /** The second half, once the connection is accepted: a new, empty queue. */
  function Accept<M>(c: Client<M>): Client<M> {
    c.(status := Connected, open := true, queue := [])
  }

  function Failed<M>(found: Lookup): Pending<M>
    requires found != Found
  {
    Fail(if found.Detached? then LostList else UnknownID)
  }

  /** Releasing the packet and unsetting the bit are two separate sections. */
  function TakeRelease<M>(c: Client<M>, id: int): (Client<M>, Pending<M>) {
    var found := Find(c.ledger, id);
    if found != Found then (c, Failed(found))
    else (c.(ledger := Release(c.ledger, id)), Clear(id))
  }

  /** Replacing the packet and queueing its PUBREL are two separate sections. */
  function TakeReplace<M>(c: Client<M>, id: int, release: M): (Client<M>, Pending<M>) {
    if c.ledger.Panics(id) then (c, Fail(UnknownID))
    else (c.(ledger := Replace(c.ledger, id, release)), Send(release))
  }

  /** The first section of handling an answer; `release` is the PUBREL for that identifier. */
  function Take<M>(c: Client<M>, kind: AckKind, id: int, release: M): (Client<M>, Pending<M>) {
    match kind
    case PubAck => if c.ignorePubAck then (c, Nothing) else TakeRelease(c, id)
    case PubRec => if c.ignorePubAck then (c, Nothing) else TakeReplace(c, id, release)
    case PubComp => if c.ignorePubComp then (c, Nothing) else TakeRelease(c, id)
  }

  function Enqueue<M>(c: Client<M>, msg: M): (Client<M>, Option<Failure>) {
    if c.open then (c.(queue := c.queue + [msg]), None) else (c, Some(SendOnClosed))
  }

  /** Sending on a full queue waits until the sender has taken its oldest message. */
  function Room<M>(c: Client<M>): Client<M> {
    if c.open && |c.queue| >= QUEUE_CAPACITY then c.(queue := c.queue[1..]) else c
  }

  /** The second section. */
  function Finish<M>(c: Client<M>, p: Pending<M>): (Client<M>, Option<Failure>) {
    match p
    case Nothing => (c, None)
    case Clear(id) => (c.(ledger := Unset(c.ledger, id)), None)
    case Send(msg) => Enqueue(c, msg)
    case Fail(failure) => (c, Some(failure))
  }

  /** Handling one answer with nothing in between. */
  function Handle<M>(c: Client<M>, kind: AckKind, id: int, release: M): (Client<M>, Option<Failure>) {
    var (c1, pending) := Take(c, kind, id, release);
    Finish(c1, pending)
  }

  /** Publishing with an identifier, with nothing in between. */
  function PublishWithID<M>(c: Client<M>, message: int -> M): (Client<M>, Option<Failure>)
    requires 0 <= c.ledger.next <= MAX_ID
  {
    match Claim(c.ledger)
    case None => (c, Some(NoFreeID))
    case Some((ledger, id)) =>
      var msg := message(id);
      Enqueue(Room(c.(ledger := Register(ledger, id, msg))), msg)
  }
}
