/** The Sophgo CV180 GPIO driver: its literal layout table, the lookup from a
    logical pin to a layout entry, the register operations on the four GPIO
    windows and the pinmux window, the sysfs interrupt bridge and the teardown. */
module Cv180 {
  import opened Soc

  /** cv180->page_size: each window maps 4 KiB of /dev/mem. */
  const PageBytes: nat := 1024 * 4
  const PageWords: nat := PageBytes / 4

  /** The pinmux window as the driver maps it: one page from PINMUX_BASE. */
  const AsWrittenPinmuxWords: nat := PageWords

  /** A pinmux window of two pages from PINMUX_BASE, which reaches every pinmux offset of the table. */
  const CorrectedPinmuxWords: nat := 2 * PageWords

  /** A GPIO register offset of the table: word aligned, and the input register at
      offset + GPIO_EXT_PORTA still inside the window. */
  type GpioOffset = o: nat | o % 4 == 0 && o + GPIO_EXT_PORTA < PageBytes

  /** A pinmux register offset from PINMUX_BASE: word aligned. */
  type PinmuxOffset = o: nat | o % 4 == 0

  datatype Field = Field(offset: GpioOffset, bit: BitIndex)
  datatype Pinmux = Pinmux(offset: PinmuxOffset, value: bv32)

  /** struct layout_t without its mutable mode and fd (kept in Driver.pins) and without
      its `support` field, which no operation reads. `num` is the kernel line number. */
  datatype Layout = Layout(name: string, group: int, num: int, pinmux: Pinmux, direction: Field, data: Field)

  /** The layout table (cv180->layout), entry by entry as the driver declares it (index in the comment). */
  const Table: seq<Layout> := [
    Layout("XGPIOA_28", 0, 508, Pinmux(0x104c, 0x3), Field(GPIO_SWPORTA_DDR, 28), Field(GPIO_SWPORTA_DR, 28)),  // 0
    Layout("XGPIOA_29", 0, 509, Pinmux(0x1050, 0x3), Field(GPIO_SWPORTA_DDR, 29), Field(GPIO_SWPORTA_DR, 29)),  // 1
    Layout("PWR_GPIO_26", 3, 406, Pinmux(0x1084, 0x3), Field(GPIO_SWPORTA_DDR, 26), Field(GPIO_SWPORTA_DR, 26)),  // 2
    Layout("PWR_GPIO_25", 3, 405, Pinmux(0x1088, 0x3), Field(GPIO_SWPORTA_DDR, 25), Field(GPIO_SWPORTA_DR, 25)),  // 3
    Layout("PWR_GPIO_20", 3, 500, Pinmux(0x1094, 0x3), Field(GPIO_SWPORTA_DDR, 20), Field(GPIO_SWPORTA_DR, 20)),  // 4
    Layout("PWR_GPIO_19", 3, 499, Pinmux(0x1090, 0x3), Field(GPIO_SWPORTA_DDR, 19), Field(GPIO_SWPORTA_DR, 19)),  // 5
    Layout("PWR_GPIO_23", 3, 403, Pinmux(0x10a0, 0x3), Field(GPIO_SWPORTA_DDR, 23), Field(GPIO_SWPORTA_DR, 23)),  // 6
    Layout("PWR_GPIO_22", 3, 402, Pinmux(0x109c, 0x3), Field(GPIO_SWPORTA_DDR, 22), Field(GPIO_SWPORTA_DR, 22)),  // 7
    Layout("PWR_GPIO_21", 3, 401, Pinmux(0x1098, 0x3), Field(GPIO_SWPORTA_DDR, 21), Field(GPIO_SWPORTA_DR, 21)),  // 8
    Layout("PWR_GPIO_18", 3, 398, Pinmux(0x108c, 0x3), Field(GPIO_SWPORTA_DDR, 18), Field(GPIO_SWPORTA_DR, 18)),  // 9
    Layout("XGPIOC_9", 2, 425, Pinmux(0x10f0, 0x3), Field(GPIO_SWPORTA_DDR, 9), Field(GPIO_SWPORTA_DR, 9)),  // 10
    Layout("XGPIOC_10", 2, 426, Pinmux(0x10f4, 0x3), Field(GPIO_SWPORTA_DDR, 22), Field(GPIO_SWPORTA_DR, 22)),  // 11
    Layout("XGPIOA_16", 0, 496, Pinmux(0x1024, 0x3), Field(GPIO_SWPORTA_DDR, 16), Field(GPIO_SWPORTA_DR, 16)),  // 12
    Layout("XGPIOA_17", 0, 497, Pinmux(0x1028, 0x3), Field(GPIO_SWPORTA_DDR, 17), Field(GPIO_SWPORTA_DR, 17)),  // 13
    Layout("XGPIOA_14", 0, 494, Pinmux(0x101c, 0x1), Field(GPIO_SWPORTA_DDR, 14), Field(GPIO_SWPORTA_DR, 14)),  // 14
    Layout("XGPIOA_15", 0, 495, Pinmux(0x1020, 0x3), Field(GPIO_SWPORTA_DDR, 15), Field(GPIO_SWPORTA_DR, 15)),  // 15
    Layout("XGPIOA_23", 0, 503, Pinmux(0x103c, 0x3), Field(GPIO_SWPORTA_DDR, 23), Field(GPIO_SWPORTA_DR, 23)),  // 16
    Layout("XGPIOA_24", 0, 504, Pinmux(0x1040, 0x3), Field(GPIO_SWPORTA_DDR, 24), Field(GPIO_SWPORTA_DR, 24)),  // 17
    Layout("XGPIOA_22", 0, 502, Pinmux(0x1030, 0x3), Field(GPIO_SWPORTA_DDR, 22), Field(GPIO_SWPORTA_DR, 22)),  // 18
    Layout("XGPIOA_25", 0, 505, Pinmux(0x1034, 0x3), Field(GPIO_SWPORTA_DDR, 25), Field(GPIO_SWPORTA_DR, 25)),  // 19
    Layout("XGPIOA_27", 0, 507, Pinmux(0x1038, 0x3), Field(GPIO_SWPORTA_DDR, 27), Field(GPIO_SWPORTA_DR, 27)),  // 20
    Layout("XGPIOA_26", 0, 506, Pinmux(0x102c, 0x3), Field(GPIO_SWPORTA_DDR, 26), Field(GPIO_SWPORTA_DR, 26)),  // 21
    Layout("PWR_GPIO_4", 3, 384, Pinmux(0x1068, 0x3), Field(GPIO_SWPORTA_DDR, 4), Field(GPIO_SWPORTA_DR, 4)),  // 22
    Layout("XGPIOB_3", 2, 454, Pinmux(0x10a8, 0x3), Field(GPIO_SWPORTA_DDR, 3), Field(GPIO_SWPORTA_DR, 3)),  // 23
    Layout("XGPIOB_6", 2, 451, Pinmux(0x10ac, 0x3), Field(GPIO_SWPORTA_DDR, 6), Field(GPIO_SWPORTA_DR, 6))  // 24
  ]

  // ---------------------------------------------------------------------------
  // Facts about the layout table

  /** Every entry names group 0..3, so the group test of the lookup never rejects an entry. */
  lemma TableGroupsInRange()
    ensures |Table| == 25
    ensures forall k | 0 <= k < |Table| :: 0 <= Table[k].group < GroupCount
  {
  }

  /** Every entry drives the data bit it configures as direction bit, in DR and DDR of its group. */
  lemma DirectionMatchesData()
    ensures forall k | 0 <= k < |Table| ::
              Table[k].direction.offset == GPIO_SWPORTA_DDR && Table[k].data.offset == GPIO_SWPORTA_DR &&
              Table[k].direction.bit == Table[k].data.bit
  {
  }

  /** XGPIOC_10 (entry 11) uses bit 22 of group 2, not bit 10. */
  lemma XgpioC10UsesBit22()
    ensures Table[11].name == "XGPIOC_10" && Table[11].group == 2
    ensures Table[11].data.bit == 22 && Table[11].direction.bit == 22
  {
  }

  /** The kernel line numbers of the entries are pairwise distinct, so two entries never
      share a sysfs GPIO. */
  lemma LineNumbersDistinct()
    ensures forall a, b | 0 <= a < b < |Table| :: Table[a].num != Table[b].num
  {
  }

  /** Where the driver writes the pinmux word of `offset` in a window of `words` words:
      the word index, or None when the store falls past the end of the window. */
  function PinmuxWord(offset: PinmuxOffset, words: nat): (r: Option<nat>)
    ensures r.Some? <==> offset / 4 < words
    ensures r.Some? ==> r.value == offset / 4
  {
    if offset / 4 < words then Some(offset / 4) else None
  }

  /** Every pinmux offset of the table is at 0x101c or above, past the single page the
      driver maps from PINMUX_BASE: every pinmux store of cv180PinMode leaves the window. */
  lemma PinmuxOutsideAsWrittenWindow()
    ensures forall k | 0 <= k < |Table| :: Table[k].pinmux.offset >= 0x101c
    ensures forall k | 0 <= k < |Table| :: PinmuxWord(Table[k].pinmux.offset, AsWrittenPinmuxWords).None?
  {
  }

  /** With two pages mapped from PINMUX_BASE every pinmux store of the table lands inside the window. */
  lemma PinmuxInsideCorrectedWindow()
    ensures forall k | 0 <= k < |Table| :: Table[k].pinmux.offset <= 0x10f4
    ensures forall k | 0 <= k < |Table| ::
              PinmuxWord(Table[k].pinmux.offset, CorrectedPinmuxWords) == Some(Table[k].pinmux.offset / 4)
  {
  }

  /** cv180GetPinName: the name of layout entry `pin`; the C code does not bound `pin`. */
  function GetPinName(pin: int): (name: string)
    requires 0 <= pin < |Table|
    ensures name == Table[pin].name
  {
    Table[pin].name
  }

  /** cv180GetLayout: the index of the layout entry that logical pin `i` selects through
      `mapping`, or None where the C code returns NULL: no mapping installed, a pin the
      board rejects, no /dev/mem descriptor, or a group outside 0..3. */
  function GetLayout(layout: seq<Layout>, platformMap: seq<int>, devFd: int, mapping: Option<seq<int>>, i: int): (r: Option<nat>)
    requires mapping.Some? ==> MapSafe(platformMap, mapping.value, |layout|)
    ensures r.Some? ==> r.value < |layout| && 0 <= layout[r.value].group < GroupCount
    ensures r.Some? <==>
              mapping.Some? && ValidGPIO(platformMap, i) == 0 && devFd > 0 &&
              0 <= layout[mapping.value[i]].group < GroupCount
    ensures r.Some? ==> r.value == mapping.value[i]
  {
    if mapping.None? then None
    else if ValidGPIO(platformMap, i) != 0 then None
    // cv180->gpio is an array member and never NULL: only the descriptor is tested
    else if devFd <= 0 then None
    else if layout[mapping.value[i]].group < 0 || layout[mapping.value[i]].group >= GroupCount then None
    else Some(mapping.value[i])
  }

  /** With this table the lookup succeeds exactly when a map is installed, the board accepts
      the pin and /dev/mem is open. */
  lemma {:induction false} LookupNeedsNoGroupCheck(platformMap: seq<int>, devFd: int, mapping: Option<seq<int>>, i: int)
    requires mapping.Some? ==> MapSafe(platformMap, mapping.value, |Table|)
    ensures GetLayout(Table, platformMap, devFd, mapping, i).Some? <==>
              mapping.Some? && ValidGPIO(platformMap, i) == 0 && devFd > 0
  {
    TableGroupsInRange();
  }

  /** The driver state gc starts from: modes and fds, exported lines, window pointers, and
      the contents of every mapped window. */
  datatype Snapshot = Snapshot(pins: seq<PinState>, exported: set<int>, gpio: seq<Window>,
                               pinmux: Window, contents: map<array<bv32>, seq<bv32>>)

  class Driver {
    /** The layout table the driver points at (cv180->layout). */
    const layout: seq<Layout>
    /** The number of words of the pinmux mapping. */
    const pinmuxWords: nat
    /** The board map behind wiringXValidGPIO (the platform's validGPIO). */
    const platformMap: seq<int>
    /** The /dev/mem descriptor. */
    var fd: int
    /** The four GPIO windows (cv180->gpio) and the pinmux window (pinmux_register_virtual_address). */
    var gpio: seq<Window>
    var pinmux: Window
    /** The pin map and interrupt map installed by setMap and setIRQ; None is NULL. */
    var pinMap: Option<seq<int>>
    var irqMap: Option<seq<int>>
    /** The mode and fd fields of every layout entry, indexed like layout. */
    var pins: seq<PinState>
    /** The kernel GPIO lines currently exported under /sys/class/gpio. */
    var exported: set<int>

    ghost predicate Valid()
      reads this
    {
      |pins| == |layout| && |gpio| == GroupCount &&
      (forall k | 0 <= k < |gpio| && gpio[k] != null :: gpio[k].Length == PageWords) &&
      (pinmux != null ==> pinmux.Length == pinmuxWords) &&
      (forall a, b | 0 <= a < b < |gpio| :: gpio[a] == null || gpio[a] != gpio[b]) &&
      (forall a | 0 <= a < |gpio| :: gpio[a] == null || gpio[a] != pinmux) &&
      (pinMap.Some? ==> MapSafe(platformMap, pinMap.value, |layout|)) &&
      (irqMap.Some? ==> MapSafe(platformMap, irqMap.value, |layout|))
    }

    /** The mapped windows. */
    ghost function Windows(): set<array<bv32>>
      reads this
    {
      (set k | 0 <= k < |gpio| && gpio[k] != null :: gpio[k] as array<bv32>) +
      (if pinmux == null then {} else {pinmux as array<bv32>})
    }

    /** cv180GetPinLayout(i) and cv180GetIrqLayout(i). */
    function PinLayout(i: int): Option<nat>
      reads this
      requires Valid()
    {
      GetLayout(layout, platformMap, fd, pinMap, i)
    }

    function IrqLayout(i: int): Option<nat>
      reads this
      requires Valid()
    {
      GetLayout(layout, platformMap, fd, irqMap, i)
    }

    /** The driver before setup: nothing mapped, no maps installed, every entry NOT_SET with fd 0.
        `pinmuxWords` is the size of the pinmux mapping setup will make (AsWrittenPinmuxWords
        in the driver as written); `exported` is whatever the kernel has exported already. */
    constructor (pinmuxWords: nat, platformMap: seq<int>, exported: set<int>)
      ensures Valid()
      ensures layout == Table && this.pinmuxWords == pinmuxWords
      ensures this.platformMap == platformMap && this.exported == exported
      ensures fd == 0 && pinMap == None && irqMap == None
      ensures gpio == [null, null, null, null] && pinmux == null
      ensures forall k | 0 <= k < |pins| :: pins[k] == PinState(NotSet, 0)
    {
      layout := Table;
      this.pinmuxWords := pinmuxWords;
      this.platformMap := platformMap;
      this.exported := exported;
      fd := 0;
      pinMap := None;
      irqMap := None;
      gpio := [null, null, null, null];
      pinmux := null;
      pins := seq(|Table|, _ => PinState(NotSet, 0));
    }

    /** cv180Setup: `devFd` is what open("/dev/mem") returns, `gpioMapped[k]` whether the k-th
        GPIO mmap succeeds and `pinmuxMapped` whether the pinmux mmap does. Setup stops at the
        first failure. */
    method Setup(devFd: int, gpioMapped: seq<bool>, pinmuxMapped: bool) returns (r: int)
      requires Valid()
      requires |gpioMapped| == GroupCount
      modifies this`fd, this`gpio, this`pinmux
      ensures Valid() && fd == devFd
      ensures r == 0 <==> devFd >= 0 && FirstFailure(gpioMapped) == GroupCount && pinmuxMapped
      ensures r != 0 ==> r == -1
      ensures devFd < 0 ==> gpio == old(gpio) && pinmux == old(pinmux)
      ensures devFd >= 0 ==> MappedUpTo(old(gpio), gpio, FirstFailure(gpioMapped), PageWords)
      ensures devFd >= 0 && FirstFailure(gpioMapped) < GroupCount ==> pinmux == old(pinmux)
      ensures devFd >= 0 && FirstFailure(gpioMapped) == GroupCount ==>
                if pinmuxMapped then pinmux != null && fresh(pinmux) && pinmux.Length == pinmuxWords
                else pinmux == null
    {
      fd := devFd;
      if fd < 0 {
        return -1;
      }
      gpio := MapWindows(gpio, gpioMapped, PageWords);
      if FirstFailure(gpioMapped) < GroupCount {
        return -1;
      }
      if !pinmuxMapped {
        pinmux := null;
        return -1;
      }
      pinmux := new bv32[pinmuxWords];
      return 0;
    }

    /** cv180SetMap: install the pin map. Later lookups index it without a bounds check. */
    method SetMap(m: seq<int>)
      requires Valid() && MapSafe(platformMap, m, |layout|)
      modifies this`pinMap
      ensures Valid() && pinMap == Some(m)
    {
      pinMap := Some(m);
    }

    /** cv180SetIRQ: install the interrupt map. */
    method SetIRQ(m: seq<int>)
      requires Valid() && MapSafe(platformMap, m, |layout|)
      modifies this`irqMap
      ensures Valid() && irqMap == Some(m)
    {
      irqMap := Some(m);
    }

    /** cv180DigitalWrite: on an OUTPUT pin, HIGH sets and LOW clears bit data.bit of the word
        at gpio[group] + data.offset + GPIO_SWPORTA_DR; any other value returns -1. */
    method DigitalWrite(i: int, value: int) returns (r: Outcome)
      requires Valid()
      modifies Windows()
      ensures PinLayout(i).None? ==> r == Returns(-1) && OnlyWritten(Windows(), {})
      ensures PinLayout(i).Some? && pins[PinLayout(i).value].mode != Output ==>
                r == Returns(-1) && OnlyWritten(Windows(), {})
      ensures PinLayout(i).Some? && pins[PinLayout(i).value].mode == Output && value != HIGH && value != LOW ==>
                r == Returns(-1) && OnlyWritten(Windows(), {})
      ensures PinLayout(i).Some? && pins[PinLayout(i).value].mode == Output && (value == HIGH || value == LOW) ==>
                var d := layout[PinLayout(i).value];
                var w := gpio[d.group];
                var x := (d.data.offset + GPIO_SWPORTA_DR) / 4;
                if w == null then r == Undefined(NullWindow) && OnlyWritten(Windows(), {})
                else
                  r == Returns(0) && OnlyWritten(Windows(), {w}) &&
                  w[..] == old(w[..])[x := if value == HIGH then SetBit(old(w[x]), d.data.bit)
                                           else ClearBit(old(w[x]), d.data.bit)]
    {
      var p := PinLayout(i);
      if p.None? {
        return Returns(-1);
      }
      var d := layout[p.value];
      if pins[p.value].mode != Output {
        return Returns(-1);
      }
      var w := gpio[d.group];
      var x := (d.data.offset + GPIO_SWPORTA_DR) / 4;
      if value == HIGH {
        if w == null {
          return Undefined(NullWindow);
        }
        WriteWord(w, x, SetBit(w[x], d.data.bit));
      } else if value == LOW {
        if w == null {
          return Undefined(NullWindow);
        }
        WriteWord(w, x, ClearBit(w[x], d.data.bit));
      } else {
        return Returns(-1);
      }
      return Returns(0);
    }

    /** cv180DigitalRead: on an INPUT pin, bit data.bit of the word at
        gpio[group] + data.offset + GPIO_EXT_PORTA. */
    method DigitalRead(i: int) returns (r: Outcome)
      requires Valid()
      ensures PinLayout(i).None? ==> r == Returns(-1)
      ensures PinLayout(i).Some? && pins[PinLayout(i).value].mode != Input ==> r == Returns(-1)
      ensures PinLayout(i).Some? && pins[PinLayout(i).value].mode == Input ==>
                var d := layout[PinLayout(i).value];
                var w := gpio[d.group];
                if w == null then r == Undefined(NullWindow)
                else r.Returns? && (r.code == 0 || r.code == 1) &&
                     (r.code == 1 <==> IsSet(w[(d.data.offset + GPIO_EXT_PORTA) / 4], d.data.bit))
    {
      var p := PinLayout(i);
      if p.None? {
        return Returns(-1);
      }
      var d := layout[p.value];
      if pins[p.value].mode != Input {
        return Returns(-1);
      }
      var w := gpio[d.group];
      if w == null {
        return Undefined(NullWindow);
      }
      var val := w[(d.data.offset + GPIO_EXT_PORTA) / 4];
      return Returns(ReadBit(val, d.data.bit));
    }

    /** cv180PinMode: overwrite the whole pinmux word at pinmux.offset with pinmux.value, then
        clear (INPUT) or set (OUTPUT) the direction bit and record the mode. Any other mode
        returns -1 after the pinmux word has been written. */
    method PinMode(i: int, mode: PinMode) returns (r: Outcome)
      requires Valid()
      modifies this`pins, Windows()
      ensures Valid()
      ensures PinLayout(i).None? ==> r == Returns(-1) && pins == old(pins) && OnlyWritten(Windows(), {})
      ensures PinLayout(i).Some? ==>
                var k := PinLayout(i).value;
                var d := layout[k];
                var pw := pinmux;
                var w := gpio[d.group];
                var px := d.pinmux.offset / 4;
                var x := d.direction.offset / 4;
                if pw == null then r == Undefined(NullWindow) && pins == old(pins) && OnlyWritten(Windows(), {})
                else if PinmuxWord(d.pinmux.offset, pw.Length).None? then
                  r == Undefined(OutsideWindow) && pins == old(pins) && OnlyWritten(Windows(), {})
                else
                  pw[..] == old(pw[..])[px := d.pinmux.value] &&
                  if mode != Input && mode != Output then
                    r == Returns(-1) && pins == old(pins) && OnlyWritten(Windows(), {pw})
                  else if w == null then
                    r == Undefined(NullWindow) && pins == old(pins) && OnlyWritten(Windows(), {pw})
                  else
                    r == Returns(0) && pins == old(pins)[k := old(pins[k]).(mode := mode)] &&
                    OnlyWritten(Windows(), {pw, w}) &&
                    w[..] == old(w[..])[x := if mode == Input then ClearBit(old(w[x]), d.direction.bit)
                                             else SetBit(old(w[x]), d.direction.bit)]
    {
      var p := PinLayout(i);
      if p.None? {
        return Returns(-1);
      }
      var k := p.value;
      var d := layout[k];
      var pw := pinmux;
      if pw == null {
        return Undefined(NullWindow);
      }
      var px := d.pinmux.offset / 4;
      if px >= pw.Length {
        return Undefined(OutsideWindow);
      }
      WriteWord(pw, px, d.pinmux.value);
      var w := gpio[d.group];
      var x := d.direction.offset / 4;
      if mode == Input {
        if w == null {
          return Undefined(NullWindow);
        }
        WriteWord(w, x, ClearBit(w[x], d.direction.bit));
      } else if mode == Output {
        if w == null {
          return Undefined(NullWindow);
        }
        WriteWord(w, x, SetBit(w[x], d.direction.bit));
      } else {
        return Returns(-1);
      }
      pins := pins[k := pins[k].(mode := mode)];
      return Returns(0);
    }

    /** cv180ISR: resolve pin `i` through the interrupt map and use the entry's `num` as the
        kernel line. The sysfs steps are abstract: `exportOk`, `directionOk` and `edgeOk` say
        whether the export, the direction write and the edge write succeed, `valueFd` is what
        opening the value file returns. The entry's fd takes `valueFd` even when that is -1. */
    method Isr(i: int, exportOk: bool, directionOk: bool, edgeOk: bool, valueFd: int) returns (r: int)
      requires Valid()
      modifies this`pins, this`exported
      ensures Valid()
      ensures IrqLayout(i).None? ==> r == -1 && pins == old(pins) && exported == old(exported)
      ensures IrqLayout(i).Some? ==>
                var k := IrqLayout(i).value;
                var line := layout[k].num;
                var present := line in old(exported) || exportOk;
                exported == (if present then old(exported) + {line} else old(exported)) &&
                (!present || !directionOk || !edgeOk ==> r == -1 && pins == old(pins)) &&
                (present && directionOk && edgeOk && valueFd == -1 ==>
                   r == -1 && pins == old(pins)[k := old(pins[k]).(fd := -1)]) &&
                (present && directionOk && edgeOk && valueFd != -1 ==>
                   r == 0 && pins == old(pins)[k := PinState(Interrupt, valueFd)])
    {
      var p := IrqLayout(i);
      if p.None? {
        return -1;
      }
      var k := p.value;
      var line := layout[k].num;
      if line !in exported {
        if !exportOk {
          return -1;
        }
        exported := exported + {line};
      }
      if !directionOk {
        return -1;
      }
      if !edgeOk {
        return -1;
      }
      pins := pins[k := pins[k].(fd := valueFd)];
      if valueFd == -1 {
        return -1;
      }
      pins := pins[k := pins[k].(mode := Interrupt)];
      return 0;
    }

    /** cv180WaitForInterrupt: only an INTERRUPT pin reaches soc_wait_for_interrupt, whose
        result is `waited`. */
    method WaitForInterrupt(i: int, waited: int) returns (r: int)
      requires Valid()
      ensures IrqLayout(i).None? ==> r == -1
      ensures IrqLayout(i).Some? && pins[IrqLayout(i).value].mode != Interrupt ==> r == -1
      ensures IrqLayout(i).Some? && pins[IrqLayout(i).value].mode == Interrupt ==> r == waited
    {
      var p := IrqLayout(i);
      if p.None? {
        return -1;
      }
      if pins[p.value].mode != Interrupt {
        return -1;
      }
      return waited;
    }

    /** cv180SelectableFd: the entry's fd, whatever its mode. */
    method SelectableFd(i: int) returns (r: int)
      requires Valid()
      ensures IrqLayout(i).None? ==> r == -1
      ensures IrqLayout(i).Some? ==> r == pins[IrqLayout(i).value].fd
    {
      var p := IrqLayout(i);
      if p.None? {
        return -1;
      }
      return pins[p.value].fd;
    }

    /** What gc leaves behind for map entry j: the entry is inside the table, its fd is closed,
        and it is OUTPUT only if pinMode could not look it up. */
    ghost predicate ReleasedAt(m: seq<int>, j: int)
      reads this
      requires Valid() && pinMap == Some(m) && 0 <= j < |m|
    {
      0 <= m[j] < |layout| && pins[m[j]].fd <= 0 &&
      (pins[m[j]].mode == Output ==> PinLayout(j).None?)
    }

    /** Every map entry released (see ReleasedAt). */
    ghost predicate EntriesReleased()
      reads this
      requires Valid()
    {
      pinMap.Some? ==> forall j | 0 <= j < |pinMap.value| :: ReleasedAt(pinMap.value, j)
    }

    /** The state a successful gc leaves: every window unmapped and every map entry released. */
    ghost predicate Released()
      reads this
      requires Valid()
    {
      pinmux == null && gpio == [null, null, null, null] && EntriesReleased()
    }

    /** gc visits map entry j without undefined behaviour: the entry is inside the table, and
        an OUTPUT entry that pinMode looks up has its pinmux word inside the pinmux window and
        its GPIO window mapped. */
    ghost predicate SafeEntry(m: seq<int>, j: int)
      reads this
      requires Valid() && pinMap == Some(m) && 0 <= j < |m|
    {
      0 <= m[j] < |layout| &&
      (pins[m[j]].mode == Output && PinLayout(j).Some? ==>
         pinmux != null && PinmuxWord(layout[m[j]].pinmux.offset, pinmux.Length).Some? &&
         gpio[layout[m[j]].group] != null)
    }

    /** Map entry j is INTERRUPT and `line` is its `num`: the line gc unexports for it. */
    ghost predicate Unexports(m: seq<int>, j: int, line: int)
      reads this`pins
    {
      0 <= j < |m| && 0 <= m[j] < |layout| && m[j] < |pins| && pins[m[j]].mode == Interrupt &&
      layout[m[j]].num == line
    }

    /** With modes `p` and windows `g` and `pw`, word x of window a is the pinmux word or the
        direction word of the OUTPUT layout entry k: a word gc's pinMode(i, PINMODE_INPUT)
        may write for it. */
    ghost predicate ResetWord(p: seq<PinState>, g: seq<Window>, pw: Window, k: int, a: array<bv32>, x: int)
    {
      0 <= k < |layout| && k < |p| && p[k].mode == Output &&
      ((a == pw && x == layout[k].pinmux.offset / 4) ||
       (0 <= layout[k].group < |g| && a == g[layout[k].group] && x == layout[k].direction.offset / 4))
    }

    /** The driver state gc starts from. */
    ghost function Snap(): Snapshot
      reads this, Windows()
    {
      Snapshot(pins, exported, gpio, pinmux, map a | a in Windows() :: a[..])
    }

    /** What the first n passes of gc's loop over map `m` changed since `s`, when `ok[j]`
        says whether the unexport of entry j succeeds: a line is only unexported, and only as
        the line of an INTERRUPT entry whose unexport succeeds; an entry no pass reached keeps
        its mode and fd; a mode only goes from OUTPUT to INPUT and an fd only from positive
        to 0; in the windows of `s` only the pinmux and direction words of reached OUTPUT
        entries change. */
    ghost predicate ChangedSince(s: Snapshot, m: seq<int>, ok: seq<bool>, n: nat)
      reads this`pins, this`exported, s.contents.Keys
    {
      n <= |m| &&
      exported <= s.exported &&
      (forall line | line in s.exported && line !in exported ::
         exists j | 0 <= j < n && j < |ok| && ok[j] :: Unexports(m, j, line)) &&
      |pins| == |s.pins| &&
      (forall k | 0 <= k < |pins| && k !in m[..n] :: pins[k] == s.pins[k]) &&
      (forall k | 0 <= k < |pins| ::
         pins[k].mode == s.pins[k].mode || (s.pins[k].mode == Output && pins[k].mode == Input)) &&
      (forall k | 0 <= k < |pins| :: pins[k].fd == s.pins[k].fd || (s.pins[k].fd > 0 && pins[k].fd == 0)) &&
      (forall a, x | a in s.contents && 0 <= x < a.Length && x < |s.contents[a]| && a[x] != s.contents[a][x] ::
         exists j | 0 <= j < n :: ResetWord(s.pins, s.gpio, s.pinmux, m[j], a, x))
    }

    /** The first n passes of gc's loop unexported the line of every INTERRUPT entry whose
        unexport succeeds. */
    ghost predicate UnexportedUpTo(m: seq<int>, ok: seq<bool>, n: nat)
      reads this`pins, this`exported
    {
      forall j, line | 0 <= j < n && j < |ok| && ok[j] && Unexports(m, j, line) :: line !in exported
    }

    /** What one pass of gc's loop, for map entry i, changes (see ChangedSince). */
    twostate predicate EntryStep(m: seq<int>, i: nat, ok: bool)
      reads this, Windows()
    {
      i < |m| && old(Windows()) == Windows() &&
      exported <= old(exported) &&
      (forall line | line in old(exported) && line !in exported :: ok && Unexports(m, i, line)) &&
      (ok ==> forall line | Unexports(m, i, line) :: line !in exported) &&
      |pins| == |old(pins)| &&
      (forall k | 0 <= k < |pins| && k != m[i] :: pins[k] == old(pins[k])) &&
      (forall k | 0 <= k < |pins| ::
         pins[k].mode == old(pins[k].mode) || (old(pins[k].mode) == Output && pins[k].mode == Input)) &&
      (forall k | 0 <= k < |pins| :: pins[k].fd == old(pins[k].fd) || (old(pins[k].fd) > 0 && pins[k].fd == 0)) &&
      (forall a, x | a in old(Windows()) && 0 <= x < a.Length && a[x] != old(a[x]) ::
         old(ResetWord(pins, gpio, pinmux, m[i], a, x)))
    }

    /** Nothing has changed after no pass. */
    lemma ChangedSinceStart(m: seq<int>, ok: seq<bool>)
      ensures ChangedSince(Snap(), m, ok, 0)
    {
      forall a, x | a in Snap().contents && 0 <= x < a.Length && x < |Snap().contents[a]|
        ensures a[x] == Snap().contents[a][x]
      {
        assert Snap().contents[a] == a[..];
      }
    }

    /** Passes of gc's loop that reached n entries also reached any fewer. */
    lemma ChangedSinceWiden(s: Snapshot, m: seq<int>, ok: seq<bool>, n: nat, n': nat)
      requires ChangedSince(s, m, ok, n) && n <= n' <= |m|
      ensures ChangedSince(s, m, ok, n')
    {
      forall k | 0 <= k < |pins| && k !in m[..n']
        ensures pins[k] == s.pins[k]
      {
        assert m[..n] == m[..n'][..n];
      }
    }

    /** The munmap of the pinmux window and the munmap loop over the GPIO windows. */
    method UnmapWindows()
      requires Valid()
      modifies this`gpio, this`pinmux
      ensures Valid() && pinmux == null && gpio == [null, null, null, null]
    {
      if pinmux != null {
        pinmux := null;
      }
      var i := 0;
      while i < GroupCount
        invariant 0 <= i <= GroupCount
        invariant Valid() && pinmux == null
        invariant forall k | 0 <= k < i :: gpio[k] == null
      {
        if gpio[i] != null {
          gpio := gpio[i := null];
        }
        i := i + 1;
      }
    }

    /** The pinMode(i, PINMODE_INPUT) call of cv180GC on an OUTPUT entry, seen from gc:
        the entry either switches to INPUT, or lookup refuses it and nothing changes; only
        the entry's pinmux word and direction word can change. */
    method ResetToInput(m: seq<int>, i: nat) returns (r: Outcome)
      requires Valid() && pinMap == Some(m) && i < |m| && 0 <= m[i] < |layout| && pins[m[i]].mode == Output
      modifies this`pins, Windows()
      ensures Valid()
      ensures r.Returns? ==>
                (PinLayout(i).None? && r.code == -1 && pins == old(pins)) ||
                (r.code == 0 && pins == old(pins)[m[i] := old(pins[m[i]]).(mode := Input)])
      ensures r.Undefined? ==> pins == old(pins)
      ensures PinLayout(i).None? ==> r == Returns(-1) && OnlyWritten(Windows(), {})
      ensures old(SafeEntry(m, i)) ==> r.Returns?
      ensures forall a, x | a in Windows() && 0 <= x < a.Length && a[x] != old(a[x]) ::
                old(ResetWord(pins, gpio, pinmux, m[i], a, x))
    {
      r := PinMode(i, Input);
      forall a, x | a in Windows() && 0 <= x < a.Length && a[x] != old(a[x])
        ensures old(ResetWord(pins, gpio, pinmux, m[i], a, x))
      {
        assert a[..][x] != old(a[..])[x];
      }
    }

    /** One pass of the loop of cv180GC, for map entry i: reset an OUTPUT pin to INPUT through
        pinMode, unexport the line `num` of an INTERRUPT pin if it is exported (`unexportOk`
        says whether the unexport succeeds), and close a positive fd. An entry outside the
        table (the -1 sentinel) is undefined behaviour. */
    method ReleaseEntry(m: seq<int>, i: nat, unexportOk: bool) returns (r: Outcome)
      requires Valid() && pinMap == Some(m) && i < |m|
      modifies this`pins, this`exported, Windows()
      ensures Valid()
      ensures r.Returns? ==> r.code == 0
      ensures !(0 <= m[i] < |layout|) ==> r == Undefined(IndexOutsideTable)
      ensures old(SafeEntry(m, i)) ==> r == Returns(0)
      ensures r == Returns(0) ==> ReleasedAt(m, i)
      ensures old(ReleasedAt(m, i)) ==> r == Returns(0) && pins == old(pins) && OnlyWritten(Windows(), {})
      ensures EntryStep(m, i, unexportOk)
    {
      if m[i] < 0 || m[i] >= |layout| {
        return Undefined(IndexOutsideTable);
      }
      var k := m[i];
      if pins[k].mode == Output {
        var pr := ResetToInput(m, i);
        if pr.Undefined? {
          return pr;
        }
      } else if pins[k].mode == Interrupt {
        var line := layout[k].num;
        if line in exported && unexportOk {
          exported := exported - {line};
        }
      }
      if pins[k].fd > 0 {
        pins := pins[k := pins[k].(fd := 0)];
      }
      return Returns(0);
    }

    /** The windows of `s` still hold the contents recorded in `s`. */
    ghost predicate Unwritten(s: Snapshot)
      reads s.contents.Keys
    {
      forall a | a in s.contents :: a[..] == s.contents[a]
    }

    /** One pass of the loop of cv180GC, seen from the loop: ReleaseEntry for map entry i,
        carrying what the passes before it established (from the snapshot `s` taken before
        the loop) one entry further. `safe` says every entry was SafeEntry before the loop,
        `released` that every entry was already released. */
    method ReleasePass(m: seq<int>, ok: seq<bool>, i: nat, ghost s: Snapshot, ghost safe: bool, ghost released: bool)
      returns (r: Outcome)
      requires Valid() && pinMap == Some(m) && i < |m| == |ok|
      requires s.contents.Keys == Windows() && s.gpio == gpio && s.pinmux == pinmux
      requires forall j | 0 <= j < i :: ReleasedAt(m, j)
      requires safe ==> forall j | i <= j < |m| :: SafeEntry(m, j)
      requires released ==> EntriesReleased() && pins == s.pins && Unwritten(s)
      requires ChangedSince(s, m, ok, i) && UnexportedUpTo(m, ok, i)
      modifies this`pins, this`exported, Windows()
      ensures Valid()
      ensures r.Returns? ==> r.code == 0 && forall j | 0 <= j < i + 1 :: ReleasedAt(m, j)
      ensures safe ==> r == Returns(0) && forall j | i + 1 <= j < |m| :: SafeEntry(m, j)
      ensures released ==> r == Returns(0) && EntriesReleased() && pins == s.pins && Unwritten(s)
      ensures ChangedSince(s, m, ok, i + 1) && UnexportedUpTo(m, ok, i + 1)
    {
      r := ReleaseEntry(m, i, ok[i]);
      forall j | 0 <= j < |m| && old(ReleasedAt(m, j))
        ensures ReleasedAt(m, j)
      {
      }
      if safe {
        forall j | 0 <= j < |m| && old(SafeEntry(m, j))
          ensures SafeEntry(m, j)
        {
        }
      }
      assert m[..i + 1] == m[..i] + [m[i]];
      forall j, line | 0 <= j < i + 1 && j < |ok| && ok[j] && Unexports(m, j, line)
        ensures line !in exported
      {
        if j < i {
          assert old(Unexports(m, j, line));
        }
      }
      forall line | line in s.exported && line !in exported
        ensures exists j | 0 <= j < i + 1 && j < |ok| && ok[j] :: Unexports(m, j, line)
      {
        if line in old(exported) {
          assert ok[i] && Unexports(m, i, line);
        } else {
          var j :| 0 <= j < i && j < |ok| && ok[j] && old(Unexports(m, j, line));
          assert Unexports(m, j, line);
        }
      }
      forall a, x | a in s.contents && 0 <= x < a.Length && x < |s.contents[a]| && a[x] != s.contents[a][x]
        ensures exists j | 0 <= j < i + 1 :: ResetWord(s.pins, s.gpio, s.pinmux, m[j], a, x)
      {
        if a[x] != old(a[x]) {
          assert ResetWord(s.pins, s.gpio, s.pinmux, m[i], a, x);
        }
      }
      if released {
        forall a | a in s.contents
          ensures a[..] == s.contents[a]
        {
          assert a[..] == old(a[..]);
        }
      }
    }

    /** The loop of cv180GC over the pin map: ReleaseEntry for every entry in order, stopping
        at the first undefined behaviour. `unexportOk[j]` says whether the unexport of entry j
        succeeds. */
    method ReleaseEntries(unexportOk: seq<bool>) returns (r: Outcome)
      requires Valid()
      requires pinMap.Some? ==> |unexportOk| == |pinMap.value|
      modifies this`pins, this`exported, Windows()
      ensures Valid()
      ensures r.Returns? ==> r.code == 0
      ensures r == Returns(0) ==> EntriesReleased()
      ensures pinMap.None? ==> r == Returns(0) && pins == old(pins) && exported == old(exported) &&
                               OnlyWritten(Windows(), {})
      ensures pinMap.Some? && (forall j | 0 <= j < |pinMap.value| :: old(SafeEntry(pinMap.value, j))) ==>
                r == Returns(0)
      ensures old(EntriesReleased()) ==> r == Returns(0) && pins == old(pins) && OnlyWritten(Windows(), {})
      ensures pinMap.Some? && (exists j | 0 <= j < |pinMap.value| :: !(0 <= pinMap.value[j] < |layout|)) ==>
                r.Undefined?
      ensures pinMap.Some? ==> ChangedSince(old(Snap()), pinMap.value, unexportOk, |pinMap.value|)
      ensures pinMap.Some? ==> UnexportedUpTo(pinMap.value, unexportOk, |pinMap.value|) || r.Undefined?
    {
      if pinMap.None? {
        return Returns(0);
      }
      var m := pinMap.value;
      ghost var s := Snap();
      ghost var safe := forall j | 0 <= j < |m| :: SafeEntry(m, j);
      ghost var released := EntriesReleased();
      ChangedSinceStart(m, unexportOk);
      var i := 0;
      while i < |m|
        invariant 0 <= i <= |m|
        invariant Valid()
        invariant forall j | 0 <= j < i :: ReleasedAt(m, j)
        invariant safe ==> forall j | i <= j < |m| :: SafeEntry(m, j)
        invariant released ==> EntriesReleased() && pins == s.pins && Unwritten(s)
        invariant ChangedSince(s, m, unexportOk, i) && UnexportedUpTo(m, unexportOk, i)
      {
        r := ReleasePass(m, unexportOk, i, s, safe, released);
        if r.Undefined? {
          ChangedSinceWiden(s, m, unexportOk, i + 1, |m|);
          return;
        }
        i := i + 1;
      }
      forall j | 0 <= j < |m|
        ensures 0 <= m[j] < |layout|
      {
        assert ReleasedAt(m, j);
      }
      if released {
        forall a | a in old(Windows())
          ensures a[..] == old(a[..])
        {
          assert a in s.contents;
        }
      }
      return Returns(0);
    }

    /** cv180GC: release the map entries, then unmap the pinmux window and the GPIO windows.
        The /dev/mem descriptor stays open. `unexportOk[j]` says whether the unexport of map
        entry j succeeds. */
    method GC(unexportOk: seq<bool>) returns (r: Outcome)
      requires Valid()
      requires pinMap.Some? ==> |unexportOk| == |pinMap.value|
      modifies this`pins, this`exported, this`gpio, this`pinmux, Windows()
      ensures Valid()
      ensures r.Returns? ==> r.code == 0
      ensures r == Returns(0) ==> Released()
      ensures pinMap.None? ==> r == Returns(0) && pins == old(pins) && exported == old(exported) &&
                               OnlyWritten(old(Windows()), {})
      ensures pinMap.Some? && (forall j | 0 <= j < |pinMap.value| :: old(SafeEntry(pinMap.value, j))) ==>
                r == Returns(0)
      ensures old(Released()) ==>
                r == Returns(0) && pins == old(pins) && gpio == old(gpio) && pinmux == old(pinmux) &&
                OnlyWritten(old(Windows()), {})
      ensures pinMap.Some? && (exists j | 0 <= j < |pinMap.value| :: !(0 <= pinMap.value[j] < |layout|)) ==>
                r.Undefined?
      ensures pinMap.Some? ==> ChangedSince(old(Snap()), pinMap.value, unexportOk, |pinMap.value|)
      ensures pinMap.Some? && r == Returns(0) ==> UnexportedUpTo(pinMap.value, unexportOk, |pinMap.value|)
    {
      r := ReleaseEntries(unexportOk);
      if r.Undefined? {
        return;
      }
      label BeforeUnmap:
      UnmapWindows();
      assert old@BeforeUnmap(EntriesReleased());
      if pinMap.Some? {
        forall j | 0 <= j < |pinMap.value|
          ensures ReleasedAt(pinMap.value, j)
        {
          assert old@BeforeUnmap(ReleasedAt(pinMap.value, j));
        }
      }
    }
  }

  /** cv180PinMode on a looked-up pin with the pinmux window as the driver maps it (one page):
      the pinmux store falls past the end of the window, whatever the mode. */
  method PinModeOnAsWrittenWindow(d: Driver, i: int, mode: PinMode) returns (r: Outcome)
    requires d.Valid() && d.layout == Table && d.pinmuxWords == AsWrittenPinmuxWords
    requires d.pinmux != null && d.PinLayout(i).Some?
    modifies d, d.Windows()
    ensures r == Undefined(OutsideWindow)
  {
    PinmuxOutsideAsWrittenWindow();
    r := d.PinMode(i, mode);
  }

  /** cv180PinMode on a looked-up pin with a two-page pinmux window: the pinmux word is
      written and the call returns 0 for INPUT and OUTPUT once the GPIO window is mapped. */
  method PinModeOnCorrectedWindow(d: Driver, i: int, mode: PinMode) returns (r: Outcome)
    requires d.Valid() && d.layout == Table && d.pinmuxWords == CorrectedPinmuxWords
    requires d.pinmux != null && d.PinLayout(i).Some?
    modifies d, d.Windows()
    ensures d.Valid() && r != Undefined(OutsideWindow)
    ensures (mode == Input || mode == Output) && d.gpio[Table[old(d.PinLayout(i).value)].group] != null ==>
              r == Returns(0)
  {
    PinmuxInsideCorrectedWindow();
    r := d.PinMode(i, mode);
  }
}
