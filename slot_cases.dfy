/** The table-driven examples of the slot tests, each table as one lemma. */
module SlotCases {
  import opened Wrappers
  import opened Proto
  import opened Structs

  /** A slot with only a window. */
  function Window(start: int, end: int): Slot {
    Slot(Some(SlotDescriptor(Some(Timestamp(start)), Some(Timestamp(end)), None, 0)))
  }

  /** A slot with only a rating. */
  function Rated(r: int): Slot {
    Slot(Some(SlotDescriptor(None, None, None, r)))
  }

  /** A slot with only a start time. */
  function Starting(t: int): Slot {
    Slot(Some(SlotDescriptor(Some(Timestamp(t)), None, None, 0)))
  }

  /** A slot with only a resource block. */
  function Holding(res: Resources): Slot {
    Slot(Some(SlotDescriptor(None, None, Some(res), 0)))
  }

  function Cpu(n: nat): Slot { Holding(ZeroResources.(cpuCores := n)) }
  function Ram(n: nat): Slot { Holding(ZeroResources.(ramBytes := n)) }
  function Gpu(n: nat): Slot { Holding(ZeroResources.(gpuCount := n)) }
  function Disk(n: nat): Slot { Holding(ZeroResources.(storage := n)) }
  function TrafficIn(n: nat): Slot { Holding(ZeroResources.(netTrafficIn := n)) }
  function TrafficOut(n: nat): Slot { Holding(ZeroResources.(netTrafficOut := n)) }
  function Net(n: NetworkType): Slot { Holding(ZeroResources.(networkType := n)) }

  /** An hour-long window from `t` against a wider, a narrower, an earlier and
      a later window (shifts of an hour and of ten minutes). */
  lemma CompareTimeTable(t: int)
    ensures CompareTime(Window(t, t + 3600), Window(t - 3600, t + 7200))
    ensures !CompareTime(Window(t, t + 3600), Window(t + 600, t + 3000))
    ensures !CompareTime(Window(t, t + 3600), Window(t - 600, t + 3000))
    ensures !CompareTime(Window(t, t + 3600), Window(t + 600, t + 4200))
  {
  }

  /** Equal and smaller values match, larger ones do not. */
  lemma ScalarTables()
    ensures CompareSupplierRating(Rated(1), Rated(1))
    ensures CompareSupplierRating(Rated(1), Rated(2))
    ensures !CompareSupplierRating(Rated(2), Rated(1))
    ensures CompareCpuCoresBid(Cpu(1), Cpu(1)) && CompareCpuCoresBid(Cpu(1), Cpu(2))
    ensures !CompareCpuCoresBid(Cpu(2), Cpu(1))
    ensures CompareRamBytesBid(Ram(1), Ram(1)) && CompareRamBytesBid(Ram(1), Ram(2))
    ensures !CompareRamBytesBid(Ram(2), Ram(1))
    ensures CompareGpuCountBid(Gpu(1), Gpu(1)) && CompareGpuCountBid(Gpu(1), Gpu(2))
    ensures !CompareGpuCountBid(Gpu(2), Gpu(1))
    ensures CompareStorageBid(Disk(1), Disk(1)) && CompareStorageBid(Disk(1), Disk(2))
    ensures !CompareStorageBid(Disk(2), Disk(1))
    ensures CompareNetTrafficInBid(TrafficIn(1), TrafficIn(1))
    ensures CompareNetTrafficInBid(TrafficIn(1), TrafficIn(2))
    ensures !CompareNetTrafficInBid(TrafficIn(2), TrafficIn(1))
    ensures CompareNetTrafficOutBid(TrafficOut(1), TrafficOut(1))
    ensures CompareNetTrafficOutBid(TrafficOut(1), TrafficOut(2))
    ensures !CompareNetTrafficOutBid(TrafficOut(2), TrafficOut(1))
  {
  }

  /** All nine pairs of tiers: a match exactly when the first tier is not
      above the second. */
  lemma NetworkTypeTable()
    ensures CompareNetworkTypeBid(Net(NoNetwork), Net(NoNetwork))
    ensures CompareNetworkTypeBid(Net(NoNetwork), Net(Outbound))
    ensures CompareNetworkTypeBid(Net(NoNetwork), Net(Incoming))
    ensures !CompareNetworkTypeBid(Net(Outbound), Net(NoNetwork))
    ensures CompareNetworkTypeBid(Net(Outbound), Net(Outbound))
    ensures CompareNetworkTypeBid(Net(Outbound), Net(Incoming))
    ensures !CompareNetworkTypeBid(Net(Incoming), Net(NoNetwork))
    ensures !CompareNetworkTypeBid(Net(Incoming), Net(Outbound))
    ensures CompareNetworkTypeBid(Net(Incoming), Net(Incoming))
  {
  }

  /** The validator's table: nil, empty, start only, end only, start after end. */
  lemma NewSlotTable()
    ensures NewSlot(None) == Err(SlotIsNil)
    ensures NewSlot(Some(EmptyDescriptor)) == Err(ResourcesIsNil)
    ensures NewSlot(Some(SlotDescriptor(Some(Timestamp(1)), None, Some(ZeroResources), 0)))
            == Err(EndTimeRequired)
    ensures NewSlot(Some(SlotDescriptor(None, Some(Timestamp(1)), Some(ZeroResources), 0)))
            == Err(StartTimeRequired)
    ensures NewSlot(Some(SlotDescriptor(Some(Timestamp(2)), Some(Timestamp(1)), Some(ZeroResources), 0)))
            == Err(StartTimeAfterEnd)
  {
  }

  /** Empty slots, rating and start time: the same answer for both kinds. */
  lemma CompareKindIndependentTable()
    ensures Compare(EmptySlot, EmptySlot, Bid) && Compare(EmptySlot, EmptySlot, Ask)
    ensures !Compare(Rated(2), Rated(1), Bid) && !Compare(Rated(2), Rated(1), Ask)
    ensures Compare(Rated(1), Rated(2), Bid) && Compare(Rated(1), Rated(2), Ask)
    ensures Compare(Starting(200), Starting(100), Bid) && Compare(Starting(200), Starting(100), Ask)
    ensures !Compare(Starting(200), Starting(300), Bid) && !Compare(Starting(200), Starting(300), Ask)
  {
  }

  /** Each numeric resource: smaller wins for a bid, larger wins for an ask. */
  lemma CompareResourceTable()
    ensures Compare(Cpu(1), Cpu(2), Bid) && !Compare(Cpu(2), Cpu(1), Bid)
    ensures !Compare(Cpu(1), Cpu(2), Ask) && Compare(Cpu(2), Cpu(1), Ask)
    ensures !Compare(Ram(2), Ram(1), Bid) && Compare(Ram(1), Ram(2), Bid)
    ensures Compare(Ram(2), Ram(1), Ask) && !Compare(Ram(1), Ram(2), Ask)
    ensures Compare(Gpu(1), Gpu(2), Bid) && !Compare(Gpu(2), Gpu(1), Bid)
    ensures !Compare(Gpu(1), Gpu(2), Ask) && Compare(Gpu(2), Gpu(1), Ask)
    ensures !Compare(Disk(2), Disk(1), Bid) && Compare(Disk(1), Disk(2), Bid)
    ensures Compare(Disk(2), Disk(1), Ask) && !Compare(Disk(1), Disk(2), Ask)
    ensures Compare(TrafficIn(1), TrafficIn(2), Bid) && !Compare(TrafficIn(2), TrafficIn(1), Bid)
    ensures Compare(TrafficIn(2), TrafficIn(1), Ask) && !Compare(TrafficIn(1), TrafficIn(2), Ask)
    ensures Compare(TrafficOut(1), TrafficOut(2), Bid) && !Compare(TrafficOut(2), TrafficOut(1), Bid)
    ensures Compare(TrafficOut(2), TrafficOut(1), Ask) && !Compare(TrafficOut(1), TrafficOut(2), Ask)
  {
  }

  /** The network tier in Compare: all nine pairs for each kind. */
  lemma CompareNetworkTypeTable()
    ensures Compare(Net(NoNetwork), Net(NoNetwork), Bid)
    ensures Compare(Net(NoNetwork), Net(Outbound), Bid)
    ensures Compare(Net(NoNetwork), Net(Incoming), Bid)
    ensures !Compare(Net(Outbound), Net(NoNetwork), Bid)
    ensures Compare(Net(Outbound), Net(Outbound), Bid)
    ensures Compare(Net(Outbound), Net(Incoming), Bid)
    ensures !Compare(Net(Incoming), Net(NoNetwork), Bid)
    ensures !Compare(Net(Incoming), Net(Outbound), Bid)
    ensures Compare(Net(Incoming), Net(Incoming), Bid)
    ensures Compare(Net(NoNetwork), Net(NoNetwork), Ask)
    ensures Compare(Net(Outbound), Net(NoNetwork), Ask)
    ensures Compare(Net(Incoming), Net(NoNetwork), Ask)
    ensures !Compare(Net(NoNetwork), Net(Outbound), Ask)
    ensures Compare(Net(Outbound), Net(Outbound), Ask)
    ensures Compare(Net(Incoming), Net(Outbound), Ask)
    ensures !Compare(Net(NoNetwork), Net(Incoming), Ask)
    ensures !Compare(Net(Outbound), Net(Incoming), Ask)
    ensures Compare(Net(Incoming), Net(Incoming), Ask)
  {
  }
}
