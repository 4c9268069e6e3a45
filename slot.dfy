/** The slot value, its validator and its comparison predicates. */
module Structs {
  import opened Wrappers
  import opened Proto

  /** A slot wraps an optional descriptor. An absent descriptor, or an absent
      part of one, reads as zero, so an unvalidated slot still compares. */
  datatype Slot = Slot(inner: Option<SlotDescriptor>)

  /** The slot with no descriptor at all. */
  const EmptySlot := Slot(None)

  /** The validator's errors, one per check of its pipeline. */
  datatype SlotError =
    | SlotIsNil
    | ResourcesIsNil
    | EndTimeRequired
    | StartTimeRequired
    | StartTimeAfterEnd

  // ---------------------------------------------------------------------------
  // Zero-defaulting readers

  function Descriptor(s: Slot): SlotDescriptor {
    s.inner.GetOr(EmptyDescriptor)
  }

  function StartSeconds(s: Slot): int {
    Descriptor(s).startTime.GetOr(Timestamp(0)).seconds
  }

  function EndSeconds(s: Slot): int {
    Descriptor(s).endTime.GetOr(Timestamp(0)).seconds
  }

  function SupplierRating(s: Slot): int {
    Descriptor(s).supplierRating
  }

  function ResourcesOf(s: Slot): Resources {
    Descriptor(s).resources.GetOr(ZeroResources)
  }

  function NetworkOf(s: Slot): NetworkType {
    ResourcesOf(s).networkType
  }

  // ---------------------------------------------------------------------------
  // Validation

  /** Whether check `e` of the validation pipeline fails on `d`. Each check is
      stated on its own, independently of the others. */
  predicate Violates(d: Option<SlotDescriptor>, e: SlotError) {
    match e
    case SlotIsNil => d.None?
    case ResourcesIsNil => d.Some? && d.value.resources.None?
    case EndTimeRequired => d.Some? && d.value.endTime.None?
    case StartTimeRequired => d.Some? && d.value.startTime.None?
    case StartTimeAfterEnd =>
      d.Some? && d.value.startTime.Some? && d.value.endTime.Some?
      && d.value.startTime.value.seconds >= d.value.endTime.value.seconds
  }

  /** The position of each check in the pipeline. */
  function Rank(e: SlotError): nat {
    match e
    case SlotIsNil => 0
    case ResourcesIsNil => 1
    case EndTimeRequired => 2
    case StartTimeRequired => 3
    case StartTimeAfterEnd => 4
  }

  /** The invariants a validated slot has: a descriptor with resources and
      both timestamps, the start strictly before the end. */
  predicate Valid(s: Slot) {
    s.inner.Some? && s.inner.value.resources.Some?
    && s.inner.value.startTime.Some? && s.inner.value.endTime.Some?
    && StartSeconds(s) < EndSeconds(s)
  }

  /** Validates a descriptor. The reported error is the FIRST failing check,
      in the order nil, resources, end time, start time, ordering; on success
      the slot holds the descriptor unchanged and is Valid. */
  function NewSlot(d: Option<SlotDescriptor>): (r: Result<Slot, SlotError>)
    ensures r.Ok? <==> forall e :: !Violates(d, e)
    ensures r.Ok? ==> r.value.inner == d && Valid(r.value)
    ensures r.Err? ==> Violates(d, r.error)
    ensures r.Err? ==> forall e :: Rank(e) < Rank(r.error) ==> !Violates(d, e)
  {
    var r :=
      if d.None? then Err(SlotIsNil)
      else if d.value.resources.None? then Err(ResourcesIsNil)
      else if d.value.endTime.None? then Err(EndTimeRequired)
      else if d.value.startTime.None? then Err(StartTimeRequired)
      else if d.value.startTime.value.seconds >= d.value.endTime.value.seconds then Err(StartTimeAfterEnd)
      else Ok(Slot(d));
    assert r.Err? ==> Violates(d, r.error);
    r
  }

  // ---------------------------------------------------------------------------
  // Per-dimension predicates; `s1` is the requirement, `s2` the offer

  /** The offered window `s2` contains the requested window `s1`. */
  predicate CompareTime(s1: Slot, s2: Slot) {
    StartSeconds(s2) <= StartSeconds(s1) && EndSeconds(s2) >= EndSeconds(s1)
  }

  predicate CompareSupplierRating(s1: Slot, s2: Slot) {
    SupplierRating(s1) <= SupplierRating(s2)
  }

  predicate CompareCpuCoresBid(s1: Slot, s2: Slot) {
    ResourcesOf(s1).cpuCores <= ResourcesOf(s2).cpuCores
  }

  predicate CompareRamBytesBid(s1: Slot, s2: Slot) {
    ResourcesOf(s1).ramBytes <= ResourcesOf(s2).ramBytes
  }

  predicate CompareGpuCountBid(s1: Slot, s2: Slot) {
    ResourcesOf(s1).gpuCount <= ResourcesOf(s2).gpuCount
  }

  predicate CompareStorageBid(s1: Slot, s2: Slot) {
    ResourcesOf(s1).storage <= ResourcesOf(s2).storage
  }

  predicate CompareNetTrafficInBid(s1: Slot, s2: Slot) {
    ResourcesOf(s1).netTrafficIn <= ResourcesOf(s2).netTrafficIn
  }

  predicate CompareNetTrafficOutBid(s1: Slot, s2: Slot) {
    ResourcesOf(s1).netTrafficOut <= ResourcesOf(s2).netTrafficOut
  }

  /** Tiers compare by wire value; this is exactly the capability reading:
      the offer's tier can serve the requirement's tier. */
  function CompareNetworkTypeBid(s1: Slot, s2: Slot): (r: bool)
    ensures r <==> Grants(NetworkOf(s2), NetworkOf(s1))
  {
    Ordinal(NetworkOf(s1)) <= Ordinal(NetworkOf(s2))
  }

  // ---------------------------------------------------------------------------
  // Dominance

  /** `one` starts no earlier than `two`; the same for both order kinds. */
  predicate CompareStartTime(one: Slot, two: Slot) {
    StartSeconds(one) >= StartSeconds(two)
  }

  /** Every resource of `need`, the network tier included, is at most the
      corresponding resource of `offer`. */
  predicate ResourcesWithin(need: Slot, offer: Slot) {
    CompareCpuCoresBid(need, offer)
    && CompareRamBytesBid(need, offer)
    && CompareGpuCountBid(need, offer)
    && CompareStorageBid(need, offer)
    && CompareNetTrafficInBid(need, offer)
    && CompareNetTrafficOutBid(need, offer)
    && CompareNetworkTypeBid(need, offer)
  }

  /** Whether `one` dominates `two` among orders of kind `kind`: rating and
      start time are compared the same way for both kinds; the resources are
      compared upward for a bid and downward for an ask. */
  predicate Compare(one: Slot, two: Slot, kind: OrderType) {
    CompareSupplierRating(one, two)
    && CompareStartTime(one, two)
    && match kind
       case Bid => ResourcesWithin(one, two)
       case Ask => ResourcesWithin(two, one)
  }
}
