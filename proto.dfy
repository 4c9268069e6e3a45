/** The decoded wire descriptor of a slot: optional timestamps, optional
    resource block, a supplier rating, the network tier and the order kind. */
module Proto {
  import opened Wrappers

  /** Network-access tier; its wire values are 0, 1 and 2 in this order. */
  datatype NetworkType = NoNetwork | Outbound | Incoming

  /** The wire value of a tier, which orders the tiers. */
  function Ordinal(n: NetworkType): nat {
    match n
    case NoNetwork => 0
    case Outbound => 1
    case Incoming => 2
  }

  /** Capability reading of the tiers: a host with tier `have` can serve a
      requirement of tier `want`; Incoming access implies outbound access,
      and every host can serve a requirement of no network. */
  predicate Grants(have: NetworkType, want: NetworkType) {
    want == NoNetwork || have == Incoming || have == want
  }

  /** A timestamp; only its whole seconds are used by the slot logic. */
  datatype Timestamp = Timestamp(seconds: int)

  /** The resource block. The numeric fields are unsigned on the wire. */
  datatype Resources = Resources(
    cpuCores: nat,
    ramBytes: nat,
    gpuCount: nat,
    storage: nat,
    netTrafficIn: nat,
    netTrafficOut: nat,
    networkType: NetworkType)

  /** What an absent resource block reads as. */
  const ZeroResources := Resources(0, 0, 0, 0, 0, 0, NoNetwork)

  /** The decoded slot message; every sub-message may be missing. */
  datatype SlotDescriptor = SlotDescriptor(
    startTime: Option<Timestamp>,
    endTime: Option<Timestamp>,
    resources: Option<Resources>,
    supplierRating: int)

  /** A descriptor with every optional part absent and a zero rating. */
  const EmptyDescriptor := SlotDescriptor(None, None, None, 0)

  /** The side of the market an order is on. */
  datatype OrderType = Bid | Ask
}
