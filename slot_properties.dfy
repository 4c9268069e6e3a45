/** General properties of the validator and of the comparison predicates. */
module SlotProperties {
  import opened Wrappers
  import opened Proto
  import opened Structs

  // ---------------------------------------------------------------------------
  // Validation

  /** Validating the descriptor of a validated slot gives that slot back. */
  lemma ValidSlotRevalidates(s: Slot)
    requires Valid(s)
    ensures NewSlot(s.inner) == Ok(s)
  {
  }

  /** When both timestamps are missing the end time is reported, because its
      check comes first in the pipeline. */
  lemma NewSlotReportsEndBeforeStart(d: SlotDescriptor)
    requires d.resources.Some? && d.startTime.None? && d.endTime.None?
    ensures NewSlot(Some(d)) == Err(EndTimeRequired)
  {
  }

  // ---------------------------------------------------------------------------
  // Time window

  /** Instant `t` lies in the half-open window of `s`. */
  predicate InWindow(s: Slot, t: int) {
    StartSeconds(s) <= t < EndSeconds(s)
  }

  /** On a non-empty requested window (every Valid slot has one), CompareTime
      is exactly containment of windows: every instant of `s1`'s window lies
      in `s2`'s. So a window that fails on either side does not match. */
  lemma CompareTimeIsContainment(s1: Slot, s2: Slot)
    requires StartSeconds(s1) < EndSeconds(s1)
    ensures CompareTime(s1, s2) <==> forall t :: InWindow(s1, t) ==> InWindow(s2, t)
  {
    if forall t :: InWindow(s1, t) ==> InWindow(s2, t) {
      assert InWindow(s1, StartSeconds(s1));
      assert InWindow(s1, EndSeconds(s1) - 1);
    }
  }

  // ---------------------------------------------------------------------------
  // Resource dimensions

  /** The seven resource dimensions the comparison flips with the order kind. */
  datatype Dimension =
    CpuCores | RamBytes | GpuCount | Storage | NetTrafficIn | NetTrafficOut | NetworkTier

  /** The amount of dimension `d` in `s`; the tier by its wire value. */
  function Amount(s: Slot, d: Dimension): int {
    var res := ResourcesOf(s);
    match d
    case CpuCores => res.cpuCores
    case RamBytes => res.ramBytes
    case GpuCount => res.gpuCount
    case Storage => res.storage
    case NetTrafficIn => res.netTrafficIn
    case NetTrafficOut => res.netTrafficOut
    case NetworkTier => Ordinal(res.networkType)
  }

  /** The seven "Bid" predicates together are the pointwise order on amounts. */
  lemma ResourcesWithinIsPointwise(need: Slot, offer: Slot)
    ensures ResourcesWithin(need, offer) <==> forall d :: Amount(need, d) <= Amount(offer, d)
  {
    if forall d :: Amount(need, d) <= Amount(offer, d) {
      assert Amount(need, CpuCores) <= Amount(offer, CpuCores);
      assert Amount(need, RamBytes) <= Amount(offer, RamBytes);
      assert Amount(need, GpuCount) <= Amount(offer, GpuCount);
      assert Amount(need, Storage) <= Amount(offer, Storage);
      assert Amount(need, NetTrafficIn) <= Amount(offer, NetTrafficIn);
      assert Amount(need, NetTrafficOut) <= Amount(offer, NetTrafficOut);
      assert Amount(need, NetworkTier) <= Amount(offer, NetworkTier);
    }
  }

  /** Monotonicity: an offer that grows in every dimension and in rating keeps
      satisfying every requirement it satisfied. */
  lemma LargerOfferStillMatches(need: Slot, offer: Slot, larger: Slot)
    requires forall d :: Amount(offer, d) <= Amount(larger, d)
    requires SupplierRating(offer) <= SupplierRating(larger)
    ensures ResourcesWithin(need, offer) ==> ResourcesWithin(need, larger)
    ensures CompareSupplierRating(need, offer) ==> CompareSupplierRating(need, larger)
  {
    ResourcesWithinIsPointwise(need, offer);
    ResourcesWithinIsPointwise(need, larger);
  }

  // ---------------------------------------------------------------------------
  // Compare as a product order

  /** The coordinates Compare orders slots by, each read "smaller is better":
      rating, later start, then the resources, negated for an ask. */
  function Profile(s: Slot, kind: OrderType): seq<int> {
    var sign := if kind == Bid then 1 else -1;
    [SupplierRating(s), -StartSeconds(s),
     sign * Amount(s, CpuCores), sign * Amount(s, RamBytes),
     sign * Amount(s, GpuCount), sign * Amount(s, Storage),
     sign * Amount(s, NetTrafficIn), sign * Amount(s, NetTrafficOut),
     sign * Amount(s, NetworkTier)]
  }

  /** Componentwise order on equally long vectors. */
  predicate Below(a: seq<int>, b: seq<int>) {
    |a| == |b| && forall i :: 0 <= i < |a| ==> a[i] <= b[i]
  }

  /** Compare is the componentwise order of the profiles. */
  lemma CompareIsProductOrder(one: Slot, two: Slot, kind: OrderType)
    ensures Compare(one, two, kind) <==> Below(Profile(one, kind), Profile(two, kind))
  {
    var p1, p2 := Profile(one, kind), Profile(two, kind);
    if Below(p1, p2) {
      assert p1[0] <= p2[0] && p1[1] <= p2[1] && p1[2] <= p2[2];
      assert p1[3] <= p2[3] && p1[4] <= p2[4] && p1[5] <= p2[5];
      assert p1[6] <= p2[6] && p1[7] <= p2[7] && p1[8] <= p2[8];
    }
  }

  /** Two slots that read the same in rating, start and resources dominate
      each other, for both kinds: a slot against itself, and also an absent
      descriptor against one whose parts are present but zero. */
  lemma CompareReflexive(one: Slot, two: Slot, kind: OrderType)
    requires SupplierRating(one) == SupplierRating(two)
    requires StartSeconds(one) == StartSeconds(two)
    requires ResourcesOf(one) == ResourcesOf(two)
    ensures Compare(one, two, kind) && Compare(two, one, kind)
  {
  }

  /** An absent descriptor, a descriptor with every part absent and one
      with an all-zero resource block compare as equals, for both kinds. */
  lemma AbsentPartsCompareAsZero(kind: OrderType)
    ensures var present := Slot(Some(EmptyDescriptor));
            var zeroed := Slot(Some(EmptyDescriptor.(resources := Some(ZeroResources))));
            Compare(EmptySlot, present, kind) && Compare(present, EmptySlot, kind)
            && Compare(present, zeroed, kind) && Compare(zeroed, present, kind)
  {
  }

  /** Dominance is transitive, so it ranks competing orders consistently.
      It is the transitivity of the product order (CompareIsProductOrder);
      the solver closes it directly from the definitions. */
  lemma CompareTransitive(a: Slot, b: Slot, c: Slot, kind: OrderType)
    requires Compare(a, b, kind) && Compare(b, c, kind)
    ensures Compare(a, c, kind)
  {
  }

  /** Rating and start time are required in the same direction whatever the
      kind; when the resources read the same, the kind does not matter. */
  lemma RatingAndStartIgnoreKind(one: Slot, two: Slot, kind: OrderType)
    ensures Compare(one, two, kind) ==> SupplierRating(one) <= SupplierRating(two)
    ensures Compare(one, two, kind) ==> StartSeconds(one) >= StartSeconds(two)
    ensures ResourcesOf(one) == ResourcesOf(two) ==>
      (Compare(one, two, Bid) <==> Compare(one, two, Ask))
    ensures ResourcesOf(one) == ResourcesOf(two) ==>
      (Compare(one, two, kind) <==>
       SupplierRating(one) <= SupplierRating(two) && StartSeconds(one) >= StartSeconds(two))
  {
  }

  /** With rating and start time tied, a bid dominance read backwards is an
      ask dominance: the resource directions are mirror images. */
  lemma KindFlipSwapsArguments(one: Slot, two: Slot)
    requires SupplierRating(one) == SupplierRating(two)
    requires StartSeconds(one) == StartSeconds(two)
    ensures Compare(one, two, Bid) <==> Compare(two, one, Ask)
  {
  }

  /** `one` and `two` agree on rating, start and every dimension but `d`. */
  predicate DiffersOnlyIn(one: Slot, two: Slot, d: Dimension) {
    SupplierRating(one) == SupplierRating(two)
    && StartSeconds(one) == StartSeconds(two)
    && Amount(one, d) != Amount(two, d)
    && forall e :: e != d ==> Amount(one, e) == Amount(two, e)
  }

  /** When two slots differ in exactly one resource dimension, the bid and ask
      comparisons give opposite answers. */
  lemma SingleDimensionFlips(one: Slot, two: Slot, d: Dimension)
    requires DiffersOnlyIn(one, two, d)
    ensures Compare(one, two, Bid) == !Compare(one, two, Ask)
  {
    ResourcesWithinIsPointwise(one, two);
    ResourcesWithinIsPointwise(two, one);
    if Amount(one, d) < Amount(two, d) {
      forall e ensures Amount(one, e) <= Amount(two, e) {
        if e != d { assert Amount(one, e) == Amount(two, e); }
      }
    } else {
      forall e ensures Amount(two, e) <= Amount(one, e) {
        if e != d { assert Amount(one, e) == Amount(two, e); }
      }
    }
  }
}
