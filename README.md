# Resource-slot validator and comparator

A model of the `structs` package's slot logic from a compute-resource
marketplace. A slot describes what a bid asks for or an ask offers: a time
window, a resource block (CPU cores, RAM bytes, GPU count, storage, inbound and
outbound traffic, network tier) and a supplier rating.

- `proto.dfy` (`Proto`): the decoded wire descriptor. Its start time, end time
  and resource block may each be missing. Network tiers are ordered by their
  wire values `NO_NETWORK = 0 < OUTBOUND = 1 < INCOMING = 2`.
- `slot.dfy` (`Structs`): the `Slot` value. It wraps an optional descriptor,
  and every absent part reads as zero. The module also holds the validator
  `NewSlot`, the per-dimension predicates and the dominance predicate `Compare`:
  - `NewSlot` reports the first failing check. The order is nil descriptor,
    missing resources, missing end time, missing start time, then start not
    strictly before end.
  - `CompareTime` is window containment.
  - The rating and the six resource predicates are "at most" checks.
  - The tier predicate compares wire values.
  - `Compare` is the conjunction that ranks two orders of the same kind.
    Rating and start time are compared the same way for bids and asks. The
    resources, tier included, flip direction with the kind.
- `slot_properties.dfy` (`SlotProperties`): general properties.
  - `CompareTime` is containment of the sets of instants.
  - The resource predicates together form the pointwise order, and they are
    monotone in the offer.
  - `Compare` is a product order on a signed profile, so it is reflexive and
    transitive.
  - Rating and start time do not depend on the kind, and the resource
    directions mirror each other between bid and ask.
- `slot_cases.dfy` (`SlotCases`): the cases of the test tables of
  `insonmnia/structs/slot_test.go`, grouped by topic. The rating and six
  resource tables share one lemma. The single table of the `Compare` test is
  split into three lemmas: kind-independent fields, numeric resources, and
  network tier.

The implementation file of the package (`insonmnia/structs/slot.go`) is not
part of this model. The tests fix the answers on their own cases only. Each
`Compare` case changes one field and leaves the rest at zero, and no case of
the validator succeeds. Where the tests leave the behaviour open, the model
reads it as follows:
- the ordering check rejects a start time that is not strictly before the
  end time, so a start equal to the end is rejected with `StartTimeAfterEnd`
  (the tests only reject a start after the end);
- the end time is checked before the start time, so when both are missing
  `EndTimeRequired` is reported (the tests only miss one time at a time);
- `Compare` is the conjunction of its per-field checks, also when several
  fields differ at once (other orders, a lexicographic one for instance,
  give the same answers on the tested cases);
- `Compare` does not look at the end time, which no `Compare` case sets;
- on success `NewSlot` returns a slot holding the descriptor unchanged.

## Model

| member | source | states |
|---|---|---|
| Structs.NewSlot | insonmnia/structs/slot_test.go:466-508 | succeeds iff no check fails; an error is a failing check and every earlier check passes (nil, resources, end, start, ordering); on success the slot holds the descriptor unchanged and is Valid |
| Structs.CompareNetworkTypeBid | insonmnia/structs/slot_test.go:391-464 | comparing tiers by wire value is exactly "the offered tier can serve the required tier": no-network is served by all, incoming serves all |
| Structs.CompareTime | insonmnia/structs/slot_test.go:13-84 | compareTime: the offer's start is at most the requirement's start and the offer's end at least the requirement's end; absent times read as zero |
| Structs.CompareSupplierRating | insonmnia/structs/slot_test.go:86-125 | the requirement's supplier rating is at most the offer's; an absent descriptor reads as rating zero |
| Structs.CompareCpuCoresBid | insonmnia/structs/slot_test.go:127-169 | the requirement's CPU cores are at most the offer's; an absent resource block reads as zero |
| Structs.CompareRamBytesBid | insonmnia/structs/slot_test.go:171-213 | the requirement's RAM bytes are at most the offer's |
| Structs.CompareGpuCountBid | insonmnia/structs/slot_test.go:215-257 | the requirement's GPU count is at most the offer's |
| Structs.CompareStorageBid | insonmnia/structs/slot_test.go:259-301 | the requirement's storage is at most the offer's |
| Structs.CompareNetTrafficInBid | insonmnia/structs/slot_test.go:303-345 | the requirement's inbound traffic is at most the offer's |
| Structs.CompareNetTrafficOutBid | insonmnia/structs/slot_test.go:347-389 | the requirement's outbound traffic is at most the offer's |
| Structs.CompareStartTime | insonmnia/structs/slot_test.go:554-578 | one's start is at least two's start, for either order kind |
| Structs.ResourcesWithin | insonmnia/structs/slot_test.go:579-840 | all six numeric "Bid" predicates and the tier predicate hold from the requirement to the offer |
| Structs.Compare | insonmnia/structs/slot_test.go:510-847 | rating one <= two and start one >= two for both kinds; the six resources and the tier one <= two for Bid, one >= two for Ask |
| SlotProperties.ValidSlotRevalidates | insonmnia/structs/slot_test.go:466-508 | validating the descriptor of a validated slot returns that same slot (the success path, which the test table has no case for) |
| SlotProperties.NewSlotReportsEndBeforeStart | insonmnia/structs/slot_test.go:479-492 | with resources present and both times missing, the error is EndTimeRequired |
| SlotProperties.CompareTimeIsContainment | insonmnia/structs/slot_test.go:13-84 | on a non-empty window, compareTime holds iff every instant of the requested window lies in the offered one (a narrower or shifted window fails) |
| SlotProperties.ResourcesWithinIsPointwise | insonmnia/structs/slot_test.go:127-464 | the seven resource predicates together hold iff every dimension of the requirement is at most the offer's |
| SlotProperties.LargerOfferStillMatches | insonmnia/structs/slot_test.go:86-464 | an offer that grows in every dimension and in rating keeps satisfying what it satisfied |
| SlotProperties.CompareIsProductOrder | insonmnia/structs/slot_test.go:510-847 | Compare holds iff the signed profile of one is componentwise below that of two |
| SlotProperties.CompareReflexive | insonmnia/structs/slot_test.go:517-528 | two slots whose rating, start and resources read the same (an absent descriptor and an all-zero one included) dominate each other for both kinds |
| SlotProperties.AbsentPartsCompareAsZero | insonmnia/structs/slot_test.go:517-528 | a slot without descriptor, one with every part absent and one with an all-zero resource block dominate each other for both kinds |
| SlotProperties.CompareTransitive | insonmnia/structs/slot_test.go:510-847 | dominance is transitive for each kind |
| SlotProperties.RatingAndStartIgnoreKind | insonmnia/structs/slot_test.go:529-578 | for both kinds Compare requires one's rating at most two's and one's start at least two's; with equal resources the kind does not change the result |
| SlotProperties.KindFlipSwapsArguments | insonmnia/structs/slot_test.go:579-840 | with rating and start tied, Compare(one, two, Bid) iff Compare(two, one, Ask) |
| SlotProperties.SingleDimensionFlips | insonmnia/structs/slot_test.go:579-840 | slots that differ in exactly one resource dimension get opposite bid and ask answers |
| SlotCases.CompareTimeTable | insonmnia/structs/slot_test.go:13-84 | the four window cases: wider matches; narrower, earlier-shifted and later-shifted do not |
| SlotCases.ScalarTables | insonmnia/structs/slot_test.go:86-389 | rating and each resource predicate: equal and smaller match, larger does not |
| SlotCases.NetworkTypeTable | insonmnia/structs/slot_test.go:391-464 | the nine tier pairs of compareNetworkTypeBid |
| SlotCases.NewSlotTable | insonmnia/structs/slot_test.go:466-508 | the five validator cases and their errors |
| SlotCases.CompareKindIndependentTable | insonmnia/structs/slot_test.go:517-578 | empty slots, rating and start time give the same answer for bid and ask |
| SlotCases.CompareResourceTable | insonmnia/structs/slot_test.go:579-728 | each numeric resource: smaller dominates for a bid, larger for an ask |
| SlotCases.CompareNetworkTypeTable | insonmnia/structs/slot_test.go:729-840 | the nine tier pairs in Compare, for each kind |

## Left out

- The generated protobuf types become plain datatypes. The timestamp's nanoseconds are not modelled; only whole seconds are compared.
- Fixture times built from the wall clock become a symbolic instant `t`.
- Integer widths are not modelled. Resources are `nat` and timestamps and ratings are `int`. Only comparisons are performed, so no overflow can arise.
- The order kind has two values, `Bid` and `Ask`. Any other wire value of the order-type enumeration is not modelled.
- `NetworkType` has the three tiers `NoNetwork`, `Outbound` and `Incoming`. The wire enumeration is an open 32-bit integer, and other values, which the tier comparison would also order by value, are not modelled.
- Errors are datatype constructors. Their message strings are not modelled.
- Order storage and matching, which call these predicates, are not part of this model.
