/** The Milk-V Meles board: its connector-pin map onto the TH1520 layout table, its
    validGPIO check, and its setup, which installs the map in the TH1520 driver. */
module Meles {
  import opened Soc
  import Th1520

  /** The board map: connector pin -> TH1520 layout index, -1 for pins with no GPIO behind them. */
  const Map: seq<int> := [
    17, -1, 88, 87,
    85, 94, 97, 16,
    9, 8, 78, -1,
    79, 80, 77, 63,
    64, -1, -1, -1,
    -1, 86, 96, 11,
    -1, 95, 10, 98,
    -1, -1, 75, 74
  ]

  /** melesValidGPIO */
  function ValidPin(pin: int): (r: int)
    ensures r == 0 || r == -1
    ensures r == 0 <==> 0 <= pin < 32 && pin !in {1, 11, 17, 18, 19, 20, 24, 28, 29}
  {
    SentinelPins();
    ValidGPIO(Map, pin)
  }

  /** The sentinel pins are exactly 1, 11, 17, 18, 19, 20, 24, 28 and 29. */
  lemma SentinelPins()
    ensures |Map| == 32
    ensures forall pin | 0 <= pin < |Map| :: Map[pin] == Sentinel <==> pin in {1, 11, 17, 18, 19, 20, 24, 28, 29}
  {
  }

  /** Every non-sentinel entry lies in 8..98, inside the 130-entry TH1520 table, so the
      unchecked indexing of the lookup stays inside both arrays. */
  lemma EntriesInTable()
    ensures forall pin | 0 <= pin < |Map| && Map[pin] != Sentinel :: 8 <= Map[pin] <= 98
    ensures MapSafe(Map, Map, |Th1520.Table|)
  {
    Th1520.TableBanksInRange();
  }

  /** Non-sentinel entries are pairwise distinct: no two connector pins share a layout entry. */
  lemma EntriesDistinct()
    ensures forall a, b | 0 <= a < b < |Map| && Map[a] != Sentinel && Map[b] != Sentinel :: Map[a] != Map[b]
  {
  }

  /** Connector pin 15 selects entry 63, the GPIO_UNAVAILABLE placeholder GPIO1_31: its bank
      is 0, so once the map is installed and /dev/mem is open the lookup accepts it. */
  lemma Pin15IsPlaceholder(devFd: int)
    requires devFd > 0
    ensures Map[15] == 63 && Th1520.Table[63] == Th1520.Unavailable("GPIO1_31")
    ensures Th1520.GetLayout(Th1520.Table, Map, devFd, Some(Map), 15) == Some(63)
  {
    Th1520.TableBanksFollowIndex();
    EntriesInTable();
  }

  /** The entries follow the table, not the pin names next to them in the board file: for
      bank 2 and 3 pins the selected entry is named one below the comment
      (pin 2 selects 88, GPIO2_24; pin 3 selects 87, GPIO2_23; pin 4 selects 85, GPIO2_21). */
  lemma NamesFollowIndices()
    ensures Map[2] == 88 && Th1520.GetPinName(88) == "GPIO2_24"
    ensures Map[3] == 87 && Th1520.GetPinName(87) == "GPIO2_23"
  {
    assert Th1520.GetPinName(88) == "GPIO2_24" by { Th1520.TableAt(88); }
    assert Th1520.GetPinName(87) == "GPIO2_23" by { Th1520.TableAt(87); }
  }

  /** The same for pins 4 and 21, whose entries 85 and 86 are GPIO2_21 and GPIO2_22. */
  lemma MoreNamesFollowIndices()
    ensures Map[4] == 85 && Th1520.GetPinName(85) == "GPIO2_21"
    ensures Map[21] == 86 && Th1520.GetPinName(86) == "GPIO2_22"
  {
    assert Th1520.GetPinName(85) == "GPIO2_21" by { Th1520.TableAt(85); }
    assert Th1520.GetPinName(86) == "GPIO2_22" by { Th1520.TableAt(86); }
  }

  /** Connector pins 3 and 21 drive the same output bit (bit 22 of the bank 2 data register)
      but different direction bits. */
  lemma Pins3And21ShareOutputBit()
    ensures Map[3] == 87 && Map[21] == 86
    ensures Th1520.Table[87].bank == Th1520.Table[86].bank == 2
    ensures Th1520.Table[87].out == Th1520.Table[86].out
    ensures Th1520.Table[87].direction != Th1520.Table[86].direction
  {
    Th1520.SharedRegisterBits();
    Th1520.TableAt(86);
  }

  /** melesSetup: run the SoC setup, ignore its result, install the map as pin map and as
      interrupt map (32 entries each), and return 0. The TH1520 interrupt bridge then uses
      irq[i] = Map[i], a layout index, as the kernel line of connector pin i. */
  method Setup(d: Th1520.Driver, devFd: int, gpioMapped: seq<bool>, padMapped: seq<bool>) returns (r: int)
    requires d.Valid() && d.layout == Th1520.Table && d.platformMap == Map
    requires |gpioMapped| == GroupCount && |padMapped| == Th1520.PadGroupCount
    modifies d
    ensures d.Valid() && r == 0
    ensures d.pinMap == Some(Map) && d.irqMap == Some(Map) && |Map| == 32
    ensures d.fd == devFd && d.pins == old(d.pins) && d.exported == old(d.exported)
    ensures forall i | ValidGPIO(Map, i) == 0 :: 8 <= d.irqMap.value[i] < |d.layout|
    ensures devFd < 0 ==> d.gpio == old(d.gpio) && d.pads == old(d.pads)
    ensures devFd >= 0 ==> MappedUpTo(old(d.gpio), d.gpio, FirstFailure(gpioMapped), Th1520.PageWords)
    ensures devFd >= 0 && FirstFailure(gpioMapped) < GroupCount ==> d.pads == old(d.pads)
    ensures devFd >= 0 && FirstFailure(gpioMapped) == GroupCount ==>
              MappedUpTo(old(d.pads), d.pads, FirstFailure(padMapped), Th1520.PageWords)
  {
    var _ := d.Setup(devFd, gpioMapped, padMapped);
    EntriesInTable();
    d.SetMap(Map);
    d.SetIRQ(Map);
    return 0;
  }

  /** gc after melesSetup reads layout[map[1]] = layout[-1]: connector pin 1 is a sentinel and
      the loop of th1520GC does not skip it. */
  method GCAfterSetup(d: Th1520.Driver, unexportOk: seq<bool>) returns (r: Outcome)
    requires d.Valid() && d.layout == Th1520.Table && d.pinMap == Some(Map) && |unexportOk| == |Map|
    modifies d, d.Windows()
    ensures r.Undefined?
  {
    SentinelReached(d.pinMap.value, |d.layout|);
    r := d.GC(unexportOk);
  }

  /** The map holds an entry outside any layout table: the sentinel of connector pin 1. */
  lemma SentinelReached(m: seq<int>, size: nat)
    requires m == Map
    ensures exists j | 0 <= j < |m| :: !(0 <= m[j] < size)
  {
    assert m[1] == Sentinel;
  }
}
