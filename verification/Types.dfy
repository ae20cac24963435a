/** The value types shared by the broker's components: messages, deliveries,
    subscriptions and durable session state. */
module Types {

  datatype Option<+T> = None | Some(value: T)
  {
    predicate IsFailure() {
      None?
    }

    function PropagateFailure<U>(): Option<U>
      requires None?
    {
      None
    }

    function Extract(): T
      requires Some?
    {
      value
    }
  }

  type byte = x: nat | x < 0x100
  type u16 = x: nat | x < 0x1_0000
  type u32 = x: nat | x < 0x1_0000_0000

  type Bytes = seq<byte>

  /** How many numbers `k` bytes hold. */
  function Pow256(k: nat): nat {
    if k == 0 then 1 else 256 * Pow256(k - 1)
  }

  type ClientId = string

  datatype QoS = AtMostOnce | AtLeastOnce | ExactlyOnce
  {
    function Rank(): (r: nat)
      ensures r < 3
    {
      match this
      case AtMostOnce => 0
      case AtLeastOnce => 1
      case ExactlyOnce => 2
    }
  }

  /** The lower of two QoS levels. */
  function MinQos(a: QoS, b: QoS): (r: QoS)
    ensures r == a || r == b
    ensures r.Rank() <= a.Rank() && r.Rank() <= b.Rank()
  {
    if a.Rank() <= b.Rank() then a else b
  }

  /** The v5 properties of a PUBLISH. Those the broker never reads are `other`. */
  datatype Properties = Properties(topicAlias: Option<u16>, subscriptionIds: seq<nat>, other: seq<byte>)

  const NO_PROPERTIES := Properties(None, [], [])

  datatype Publish = Publish(
    topic: string,
    payload: seq<byte>,
    qos: QoS,
    retain: bool,
    dup: bool,
    pkid: u16,
    properties: Option<Properties>)

  /** One message on its way to one client, at that client's effective QoS. */
  datatype Delivery = Delivery(publish: Publish, qos: QoS, retain: bool, subIds: seq<nat>)

  /** The deliveries of QoS 0, or those above. */
  function OfClass(ds: seq<Delivery>, zero: bool): seq<Delivery> {
    if ds == [] then [] else (if (ds[0].qos == AtMostOnce) == zero then [ds[0]] else []) + OfClass(ds[1..], zero)
  }

  datatype InflightState = Qos1 | Qos2Pending | Qos2Released

  datatype InflightMessage = InflightMessage(publish: Publish, state: InflightState)

  /** The durable QoS state a connection hands to its session. */
  datatype SessionSnapshot = SessionSnapshot(
    inflight: map<u16, InflightMessage>,
    incomingQos2: map<u16, Publish>,
    nextPkid: u16)

  const EMPTY_SNAPSHOT := SessionSnapshot(map[], map[], 0)

  /** What a CONNECT gets back from the session table. */
  datatype SessionHandle = SessionHandle(
    resumed: bool, generation: nat, snapshot: SessionSnapshot, offlineQueue: seq<Delivery>)

  /** A subscription as the topic index stores it; its filter is its place in the index. */
  datatype Subscription = Subscription(
    client: ClientId,
    qos: QoS,
    noLocal: bool,
    retainAsPublished: bool,
    group: Option<string>,
    subId: Option<nat>)

  /** A stored subscription together with its topic filter. */
  datatype Entry = Entry(filter: string, sub: Subscription)
}
