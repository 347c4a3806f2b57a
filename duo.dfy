/** The Milk-V Duo board: its connector-pin map onto the CV180 layout table, its
    validGPIO check, and its setup, which installs the map in the CV180 driver. */
module Duo {
  import opened Soc
  import Cv180

  /** The board map: connector pin -> CV180 layout index, -1 for GND, VCC and unconnected pins. */
  const Map: seq<int> := [
    -1, 0, 1, -1,
    2, 3, 5, 4,
    -1, 6, 7, 8,
    9, -1, 10, 11,
    12, 13, -1, 14,
    15, 16, 17, -1,
    18, 19, 20, 21,
    -1, 22, -1, 23
  ]

  /** duoValidGPIO */
  function ValidPin(pin: int): (r: int)
    ensures r == 0 || r == -1
    ensures r == 0 <==> 0 <= pin < 32 && pin !in {0, 3, 8, 13, 18, 23, 28, 30}
  {
    SentinelPins();
    ValidGPIO(Map, pin)
  }

  /** The sentinel pins are exactly 0, 3, 8, 13, 18, 23, 28 and 30. */
  lemma SentinelPins()
    ensures |Map| == 32
    ensures forall pin | 0 <= pin < |Map| :: Map[pin] == Sentinel <==> pin in {0, 3, 8, 13, 18, 23, 28, 30}
  {
  }

  /** Connector pin 1 is valid and selects layout entry 0, XGPIOA_28. */
  lemma Pin1IsXgpioA28()
    ensures ValidPin(1) == 0 && Map[1] == 0 && Cv180.GetPinName(Map[1]) == "XGPIOA_28"
  {
  }

  /** Every non-sentinel entry lies in 0..23, inside the 25-entry CV180 table, so the
      unchecked indexing of the lookup stays inside both arrays. */
  lemma EntriesInTable()
    ensures forall pin | 0 <= pin < |Map| && Map[pin] != Sentinel :: 0 <= Map[pin] <= 23
    ensures MapSafe(Map, Map, |Cv180.Table|)
  {
    Cv180.TableGroupsInRange();
  }

  /** Non-sentinel entries are pairwise distinct: no two connector pins share a layout entry. */
  lemma EntriesDistinct()
    ensures forall a, b | 0 <= a < b < |Map| && Map[a] != Sentinel && Map[b] != Sentinel :: Map[a] != Map[b]
  {
  }

  /** duoSetup: run the SoC setup, ignore its result, install the map as pin map and as
      interrupt map (32 entries each), and return 0. */
  method Setup(d: Cv180.Driver, devFd: int, gpioMapped: seq<bool>, pinmuxMapped: bool) returns (r: int)
    requires d.Valid() && d.layout == Cv180.Table && d.platformMap == Map && |gpioMapped| == GroupCount
    modifies d
    ensures d.Valid() && r == 0
    ensures d.pinMap == Some(Map) && d.irqMap == Some(Map) && |Map| == 32
    ensures d.fd == devFd && d.pins == old(d.pins) && d.exported == old(d.exported)
    ensures devFd < 0 ==> d.gpio == old(d.gpio) && d.pinmux == old(d.pinmux)
    ensures devFd >= 0 ==> MappedUpTo(old(d.gpio), d.gpio, FirstFailure(gpioMapped), Cv180.PageWords)
    ensures devFd >= 0 && FirstFailure(gpioMapped) < GroupCount ==> d.pinmux == old(d.pinmux)
    ensures devFd >= 0 && FirstFailure(gpioMapped) == GroupCount ==>
              if pinmuxMapped then d.pinmux != null && fresh(d.pinmux) && d.pinmux.Length == d.pinmuxWords
              else d.pinmux == null
  {
    var _ := d.Setup(devFd, gpioMapped, pinmuxMapped);
    EntriesInTable();
    d.SetMap(Map);
    d.SetIRQ(Map);
    return 0;
  }

  /** duoSetup with /dev/mem open and every mapping succeeding, then pinMode(1, OUTPUT) on
      XGPIOA_28: with the one-page pinmux mapping of the driver as written, the pinmux store
      falls past the end of the window. */
  method SetupThenPinModeOnPin1(d: Cv180.Driver, devFd: int) returns (r: Outcome)
    requires d.Valid() && d.layout == Cv180.Table && d.platformMap == Map
    requires d.pinmuxWords == Cv180.AsWrittenPinmuxWords && devFd > 0
    modifies d, d.Windows()
    ensures r == Undefined(OutsideWindow)
  {
    var _ := Setup(d, devFd, [true, true, true, true], true);
    assert FirstFailure([true, true, true, true]) == GroupCount;
    r := Cv180.PinModeOnAsWrittenWindow(d, 1, Output);
  }

  /** The map holds an entry outside any layout table: the sentinel of connector pin 0. */
  lemma SentinelReached(m: seq<int>, size: nat)
    requires m == Map
    ensures exists j | 0 <= j < |m| :: !(0 <= m[j] < size)
  {
    assert m[0] == Sentinel;
  }

  /** gc after duoSetup reads layout[map[0]] = layout[-1]: connector pin 0 is a sentinel and
      the loop of cv180GC does not skip it. */
  method GCAfterSetup(d: Cv180.Driver, unexportOk: seq<bool>) returns (r: Outcome)
    requires d.Valid() && d.layout == Cv180.Table && d.pinMap == Some(Map) && |unexportOk| == |Map|
    modifies d, d.Windows()
    ensures r.Undefined?
  {
    SentinelReached(d.pinMap.value, |d.layout|);
    r := d.GC(unexportOk);
  }
}
