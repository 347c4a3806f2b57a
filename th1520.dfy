/** The T-Head TH1520 GPIO driver: its literal layout table, the lookup from a
    logical pin to a layout entry, the register operations on the four GPIO
    windows and four pad windows, the sysfs interrupt bridge and the teardown. */
module Th1520 {
  import opened Soc

  const PadGroupCount: nat := 4

  /** th1520->page_size: each window maps 64 KiB of /dev/mem. */
  const PageBytes: nat := 1024 * 64
  const PageWords: nat := PageBytes / 4

  // pad group 2
  const G2_MUXCFG_001: nat := 0x400
  const G2_MUXCFG_002: nat := 0x404
  const G2_MUXCFG_003: nat := 0x408
  const G2_MUXCFG_004: nat := 0x40c
  const G2_MUXCFG_005: nat := 0x410
  const G2_MUXCFG_006: nat := 0x414
  const G2_MUXCFG_007: nat := 0x418
  const G2_MUXCFG_008: nat := 0x41c

  // pad group 3
  const G3_MUXCFG_001: nat := 0x400
  const G3_MUXCFG_002: nat := 0x404
  const G3_MUXCFG_003: nat := 0x408
  const G3_MUXCFG_004: nat := 0x40c
  const G3_MUXCFG_005: nat := 0x410
  const G3_MUXCFG_006: nat := 0x414
  const G3_MUXCFG_007: nat := 0x418

  /** Every register offset in the table is word aligned and inside one window. */
  type RegOffset = o: nat | o % 4 == 0 && o < 1024 * 64

  /** pad_num selects one of the pad windows. */
  type PadIndex = n: nat | n < 4

  datatype Field = Field(offset: RegOffset, bit: BitIndex)
  datatype Pad = Pad(offset: RegOffset, bit: FieldBit, value: Nibble)

  /** struct layout_t without its mutable mode and fd (kept in Driver.pins). */
  datatype Layout = Layout(name: string, padNum: PadIndex, bank: int, pad: Pad,
                           direction: Field, out: Field, input: Field)

  /** GPIO_UNAVAILABLE(name): a placeholder whose pad, bank and register fields are all 0. */
  function Unavailable(name: string): Layout
  {
    Layout(name, 0, 0, Pad(0, 0, 0), Field(0, 0), Field(0, 0), Field(0, 0))
  }

  /** Layout entries 0..31: GPIO0_0 .. GPIO0_31 */
  const Bank0: seq<Layout> := [
    Layout("GPIO0_0", 1, 0, Pad(G2_MUXCFG_001, 0, 0x03), Field(GPIO_SWPORTA_DDR, 0), Field(GPIO_SWPORTA_DR, 0), Field(GPIO_EXT_PORTA, 0)),  // 0
    Layout("GPIO0_1", 1, 0, Pad(G2_MUXCFG_001, 4, 0x03), Field(GPIO_SWPORTA_DDR, 1), Field(GPIO_SWPORTA_DR, 1), Field(GPIO_EXT_PORTA, 1)),  // 1
    Layout("GPIO0_2", 1, 0, Pad(G2_MUXCFG_001, 8, 0x03), Field(GPIO_SWPORTA_DDR, 2), Field(GPIO_SWPORTA_DR, 2), Field(GPIO_EXT_PORTA, 2)),  // 2
    Layout("GPIO0_3", 1, 0, Pad(G2_MUXCFG_001, 12, 0x03), Field(GPIO_SWPORTA_DDR, 3), Field(GPIO_SWPORTA_DR, 3), Field(GPIO_EXT_PORTA, 3)),  // 3
    Layout("GPIO0_4", 1, 0, Pad(G2_MUXCFG_001, 16, 0x03), Field(GPIO_SWPORTA_DDR, 4), Field(GPIO_SWPORTA_DR, 4), Field(GPIO_EXT_PORTA, 4)),  // 4
    Layout("GPIO0_5", 1, 0, Pad(G2_MUXCFG_001, 20, 0x03), Field(GPIO_SWPORTA_DDR, 5), Field(GPIO_SWPORTA_DR, 5), Field(GPIO_EXT_PORTA, 5)),  // 5
    Layout("GPIO0_6", 1, 0, Pad(G2_MUXCFG_001, 24, 0x03), Field(GPIO_SWPORTA_DDR, 6), Field(GPIO_SWPORTA_DR, 6), Field(GPIO_EXT_PORTA, 6)),  // 6
    Layout("GPIO0_7", 1, 0, Pad(G2_MUXCFG_001, 28, 0x03), Field(GPIO_SWPORTA_DDR, 7), Field(GPIO_SWPORTA_DR, 7), Field(GPIO_EXT_PORTA, 7)),  // 7
    Layout("GPIO0_8", 1, 0, Pad(G2_MUXCFG_002, 0, 0x03), Field(GPIO_SWPORTA_DDR, 8), Field(GPIO_SWPORTA_DR, 8), Field(GPIO_EXT_PORTA, 8)),  // 8
    Layout("GPIO0_9", 1, 0, Pad(G2_MUXCFG_002, 4, 0x03), Field(GPIO_SWPORTA_DDR, 9), Field(GPIO_SWPORTA_DR, 9), Field(GPIO_EXT_PORTA, 9)),  // 9
    Layout("GPIO0_10", 1, 0, Pad(G2_MUXCFG_002, 8, 0x03), Field(GPIO_SWPORTA_DDR, 10), Field(GPIO_SWPORTA_DR, 10), Field(GPIO_EXT_PORTA, 10)),  // 10
    Layout("GPIO0_11", 1, 0, Pad(G2_MUXCFG_002, 12, 0x03), Field(GPIO_SWPORTA_DDR, 11), Field(GPIO_SWPORTA_DR, 11), Field(GPIO_EXT_PORTA, 11)),  // 11
    Layout("GPIO0_12", 1, 0, Pad(G2_MUXCFG_002, 16, 0x03), Field(GPIO_SWPORTA_DDR, 12), Field(GPIO_SWPORTA_DR, 12), Field(GPIO_EXT_PORTA, 12)),  // 12
    Layout("GPIO0_13", 1, 0, Pad(G2_MUXCFG_002, 20, 0x03), Field(GPIO_SWPORTA_DDR, 13), Field(GPIO_SWPORTA_DR, 13), Field(GPIO_EXT_PORTA, 13)),  // 13
    Layout("GPIO0_14", 1, 0, Pad(G2_MUXCFG_002, 24, 0x03), Field(GPIO_SWPORTA_DDR, 14), Field(GPIO_SWPORTA_DR, 14), Field(GPIO_EXT_PORTA, 14)),  // 14
    Layout("GPIO0_15", 1, 0, Pad(G2_MUXCFG_006, 28, 0x03), Field(GPIO_SWPORTA_DDR, 15), Field(GPIO_SWPORTA_DR, 15), Field(GPIO_EXT_PORTA, 15)),  // 15
    Layout("GPIO0_16", 1, 0, Pad(G2_MUXCFG_003, 0, 0x03), Field(GPIO_SWPORTA_DDR, 16), Field(GPIO_SWPORTA_DR, 16), Field(GPIO_EXT_PORTA, 16)),  // 16
    Layout("GPIO0_17", 1, 0, Pad(G2_MUXCFG_003, 4, 0x03), Field(GPIO_SWPORTA_DDR, 17), Field(GPIO_SWPORTA_DR, 17), Field(GPIO_EXT_PORTA, 17)),  // 17
    Layout("GPIO0_18", 1, 0, Pad(G2_MUXCFG_003, 8, 0x00), Field(GPIO_SWPORTA_DDR, 18), Field(GPIO_SWPORTA_DR, 18), Field(GPIO_EXT_PORTA, 18)),  // 18
    Layout("GPIO0_19", 1, 0, Pad(G2_MUXCFG_003, 12, 0x00), Field(GPIO_SWPORTA_DDR, 19), Field(GPIO_SWPORTA_DR, 19), Field(GPIO_EXT_PORTA, 19)),  // 19
    Layout("GPIO0_20", 1, 0, Pad(G2_MUXCFG_003, 16, 0x00), Field(GPIO_SWPORTA_DDR, 20), Field(GPIO_SWPORTA_DR, 20), Field(GPIO_EXT_PORTA, 20)),  // 20
    Layout("GPIO0_21", 1, 0, Pad(G2_MUXCFG_003, 20, 0x00), Field(GPIO_SWPORTA_DDR, 21), Field(GPIO_SWPORTA_DR, 21), Field(GPIO_EXT_PORTA, 21)),  // 21
    Layout("GPIO0_22", 1, 0, Pad(G2_MUXCFG_003, 24, 0x00), Field(GPIO_SWPORTA_DDR, 22), Field(GPIO_SWPORTA_DR, 22), Field(GPIO_EXT_PORTA, 22)),  // 22
    Layout("GPIO0_23", 1, 0, Pad(G2_MUXCFG_003, 28, 0x00), Field(GPIO_SWPORTA_DDR, 23), Field(GPIO_SWPORTA_DR, 23), Field(GPIO_EXT_PORTA, 23)),  // 23
    Layout("GPIO0_24", 1, 0, Pad(G2_MUXCFG_004, 0, 0x00), Field(GPIO_SWPORTA_DDR, 24), Field(GPIO_SWPORTA_DR, 24), Field(GPIO_EXT_PORTA, 24)),  // 24
    Layout("GPIO0_25", 1, 0, Pad(G2_MUXCFG_004, 4, 0x00), Field(GPIO_SWPORTA_DDR, 25), Field(GPIO_SWPORTA_DR, 25), Field(GPIO_EXT_PORTA, 25)),  // 25
    Layout("GPIO0_26", 1, 0, Pad(G2_MUXCFG_004, 8, 0x00), Field(GPIO_SWPORTA_DDR, 26), Field(GPIO_SWPORTA_DR, 26), Field(GPIO_EXT_PORTA, 26)),  // 26
    Layout("GPIO0_27", 1, 0, Pad(G2_MUXCFG_004, 12, 0x00), Field(GPIO_SWPORTA_DDR, 27), Field(GPIO_SWPORTA_DR, 27), Field(GPIO_EXT_PORTA, 27)),  // 27
    Layout("GPIO0_28", 1, 0, Pad(G2_MUXCFG_004, 16, 0x00), Field(GPIO_SWPORTA_DDR, 28), Field(GPIO_SWPORTA_DR, 28), Field(GPIO_EXT_PORTA, 28)),  // 28
    Layout("GPIO0_29", 1, 0, Pad(G2_MUXCFG_004, 20, 0x00), Field(GPIO_SWPORTA_DDR, 29), Field(GPIO_SWPORTA_DR, 29), Field(GPIO_EXT_PORTA, 29)),  // 29
    Layout("GPIO0_30", 1, 0, Pad(G2_MUXCFG_004, 24, 0x00), Field(GPIO_SWPORTA_DDR, 30), Field(GPIO_SWPORTA_DR, 30), Field(GPIO_EXT_PORTA, 30)),  // 30
    Layout("GPIO0_31", 1, 0, Pad(G2_MUXCFG_004, 28, 0x00), Field(GPIO_SWPORTA_DDR, 31), Field(GPIO_SWPORTA_DR, 31), Field(GPIO_EXT_PORTA, 31))  // 31
  ]

  /** Layout entries 32..63: GPIO1_0 .. GPIO1_31 */
  const Bank1: seq<Layout> := [
    Layout("GPIO1_0", 1, 1, Pad(G2_MUXCFG_005, 0, 0x00), Field(GPIO_SWPORTA_DDR, 0), Field(GPIO_SWPORTA_DR, 0), Field(GPIO_EXT_PORTA, 0)),  // 32
    Layout("GPIO1_1", 1, 1, Pad(G2_MUXCFG_005, 4, 0x00), Field(GPIO_SWPORTA_DDR, 1), Field(GPIO_SWPORTA_DR, 1), Field(GPIO_EXT_PORTA, 1)),  // 33
    Layout("GPIO1_2", 1, 1, Pad(G2_MUXCFG_005, 8, 0x00), Field(GPIO_SWPORTA_DDR, 2), Field(GPIO_SWPORTA_DR, 2), Field(GPIO_EXT_PORTA, 2)),  // 34
    Layout("GPIO1_3", 1, 1, Pad(G2_MUXCFG_005, 12, 0x00), Field(GPIO_SWPORTA_DDR, 3), Field(GPIO_SWPORTA_DR, 3), Field(GPIO_EXT_PORTA, 3)),  // 35
    Layout("GPIO1_4", 1, 1, Pad(G2_MUXCFG_005, 16, 0x00), Field(GPIO_SWPORTA_DDR, 4), Field(GPIO_SWPORTA_DR, 4), Field(GPIO_EXT_PORTA, 4)),  // 36
    Layout("GPIO1_5", 1, 1, Pad(G2_MUXCFG_005, 20, 0x00), Field(GPIO_SWPORTA_DDR, 5), Field(GPIO_SWPORTA_DR, 5), Field(GPIO_EXT_PORTA, 5)),  // 37
    Layout("GPIO1_6", 1, 1, Pad(G2_MUXCFG_005, 24, 0x00), Field(GPIO_SWPORTA_DDR, 6), Field(GPIO_SWPORTA_DR, 6), Field(GPIO_EXT_PORTA, 6)),  // 38
    Layout("GPIO1_7", 1, 1, Pad(G2_MUXCFG_005, 28, 0x00), Field(GPIO_SWPORTA_DDR, 7), Field(GPIO_SWPORTA_DR, 7), Field(GPIO_EXT_PORTA, 7)),  // 39
    Layout("GPIO1_8", 1, 1, Pad(G2_MUXCFG_006, 0, 0x00), Field(GPIO_SWPORTA_DDR, 8), Field(GPIO_SWPORTA_DR, 8), Field(GPIO_EXT_PORTA, 8)),  // 40
    Layout("GPIO1_9", 1, 1, Pad(G2_MUXCFG_006, 4, 0x00), Field(GPIO_SWPORTA_DDR, 9), Field(GPIO_SWPORTA_DR, 9), Field(GPIO_EXT_PORTA, 9)),  // 41
    Layout("GPIO1_10", 1, 1, Pad(G2_MUXCFG_006, 8, 0x00), Field(GPIO_SWPORTA_DDR, 10), Field(GPIO_SWPORTA_DR, 10), Field(GPIO_EXT_PORTA, 10)),  // 42
    Layout("GPIO1_11", 1, 1, Pad(G2_MUXCFG_006, 12, 0x00), Field(GPIO_SWPORTA_DDR, 11), Field(GPIO_SWPORTA_DR, 11), Field(GPIO_EXT_PORTA, 11)),  // 43
    Layout("GPIO1_12", 1, 1, Pad(G2_MUXCFG_006, 16, 0x00), Field(GPIO_SWPORTA_DDR, 12), Field(GPIO_SWPORTA_DR, 12), Field(GPIO_EXT_PORTA, 12)),  // 44
    Layout("GPIO1_13", 1, 1, Pad(G2_MUXCFG_006, 20, 0x00), Field(GPIO_SWPORTA_DDR, 13), Field(GPIO_SWPORTA_DR, 13), Field(GPIO_EXT_PORTA, 13)),  // 45
    Layout("GPIO1_14", 1, 1, Pad(G2_MUXCFG_006, 24, 0x00), Field(GPIO_SWPORTA_DDR, 14), Field(GPIO_SWPORTA_DR, 14), Field(GPIO_EXT_PORTA, 14)),  // 46
    Layout("GPIO1_15", 1, 1, Pad(G2_MUXCFG_006, 28, 0x00), Field(GPIO_SWPORTA_DDR, 15), Field(GPIO_SWPORTA_DR, 15), Field(GPIO_EXT_PORTA, 15)),  // 47
    Layout("GPIO1_16", 1, 1, Pad(G2_MUXCFG_007, 0, 0x00), Field(GPIO_SWPORTA_DDR, 16), Field(GPIO_SWPORTA_DR, 16), Field(GPIO_EXT_PORTA, 16)),  // 48
    Layout("GPIO1_17", 1, 1, Pad(G2_MUXCFG_007, 4, 0x03), Field(GPIO_SWPORTA_DDR, 17), Field(GPIO_SWPORTA_DR, 17), Field(GPIO_EXT_PORTA, 17)),  // 49
    Layout("GPIO1_18", 1, 1, Pad(G2_MUXCFG_007, 8, 0x03), Field(GPIO_SWPORTA_DDR, 18), Field(GPIO_SWPORTA_DR, 18), Field(GPIO_EXT_PORTA, 18)),  // 50
    Layout("GPIO1_19", 1, 1, Pad(G2_MUXCFG_007, 12, 0x03), Field(GPIO_SWPORTA_DDR, 19), Field(GPIO_SWPORTA_DR, 19), Field(GPIO_EXT_PORTA, 19)),  // 51
    Layout("GPIO1_20", 1, 1, Pad(G2_MUXCFG_007, 16, 0x03), Field(GPIO_SWPORTA_DDR, 20), Field(GPIO_SWPORTA_DR, 20), Field(GPIO_EXT_PORTA, 20)),  // 52
    Layout("GPIO1_21", 1, 1, Pad(G2_MUXCFG_007, 20, 0x03), Field(GPIO_SWPORTA_DDR, 21), Field(GPIO_SWPORTA_DR, 21), Field(GPIO_EXT_PORTA, 21)),  // 53
    Layout("GPIO1_22", 1, 1, Pad(G2_MUXCFG_007, 24, 0x03), Field(GPIO_SWPORTA_DDR, 22), Field(GPIO_SWPORTA_DR, 22), Field(GPIO_EXT_PORTA, 22)),  // 54
    Layout("GPIO1_23", 1, 1, Pad(G2_MUXCFG_007, 28, 0x03), Field(GPIO_SWPORTA_DDR, 22), Field(GPIO_SWPORTA_DR, 22), Field(GPIO_EXT_PORTA, 22)),  // 55
    Layout("GPIO1_24", 1, 1, Pad(G2_MUXCFG_008, 0, 0x00), Field(GPIO_SWPORTA_DDR, 16), Field(GPIO_SWPORTA_DR, 16), Field(GPIO_EXT_PORTA, 16)),  // 56
    Layout("GPIO1_25", 1, 1, Pad(G2_MUXCFG_008, 4, 0x03), Field(GPIO_SWPORTA_DDR, 17), Field(GPIO_SWPORTA_DR, 17), Field(GPIO_EXT_PORTA, 17)),  // 57
    Layout("GPIO1_26", 1, 1, Pad(G2_MUXCFG_008, 8, 0x00), Field(GPIO_SWPORTA_DDR, 18), Field(GPIO_SWPORTA_DR, 18), Field(GPIO_EXT_PORTA, 18)),  // 58
    Layout("GPIO1_27", 1, 1, Pad(G2_MUXCFG_008, 12, 0x00), Field(GPIO_SWPORTA_DDR, 19), Field(GPIO_SWPORTA_DR, 19), Field(GPIO_EXT_PORTA, 19)),  // 59
    Layout("GPIO1_28", 1, 1, Pad(G2_MUXCFG_008, 16, 0x00), Field(GPIO_SWPORTA_DDR, 20), Field(GPIO_SWPORTA_DR, 20), Field(GPIO_EXT_PORTA, 20)),  // 60
    Layout("GPIO1_29", 1, 1, Pad(G2_MUXCFG_008, 20, 0x00), Field(GPIO_SWPORTA_DDR, 21), Field(GPIO_SWPORTA_DR, 21), Field(GPIO_EXT_PORTA, 21)),  // 61
    Layout("GPIO1_30", 1, 1, Pad(G2_MUXCFG_008, 24, 0x00), Field(GPIO_SWPORTA_DDR, 22), Field(GPIO_SWPORTA_DR, 22), Field(GPIO_EXT_PORTA, 22)),  // 62
    Unavailable("GPIO1_31")  // 63
  ]

  /** Layout entries 64..95: GPIO2_0 .. GPIO2_31 */
  const Bank2: seq<Layout> := [
    Layout("GPIO2_0", 2, 2, Pad(G3_MUXCFG_001, 0, 0x03), Field(GPIO_SWPORTA_DDR, 0), Field(GPIO_SWPORTA_DR, 0), Field(GPIO_EXT_PORTA, 0)),  // 64
    Layout("GPIO2_1", 2, 2, Pad(G3_MUXCFG_001, 4, 0x03), Field(GPIO_SWPORTA_DDR, 1), Field(GPIO_SWPORTA_DR, 1), Field(GPIO_EXT_PORTA, 1)),  // 65
    Layout("GPIO2_2", 2, 2, Pad(G3_MUXCFG_001, 8, 0x03), Field(GPIO_SWPORTA_DDR, 2), Field(GPIO_SWPORTA_DR, 2), Field(GPIO_EXT_PORTA, 2)),  // 66
    Layout("GPIO2_3", 2, 2, Pad(G3_MUXCFG_001, 12, 0x03), Field(GPIO_SWPORTA_DDR, 3), Field(GPIO_SWPORTA_DR, 3), Field(GPIO_EXT_PORTA, 3)),  // 67
    Layout("GPIO2_4", 2, 2, Pad(G3_MUXCFG_001, 16, 0x03), Field(GPIO_SWPORTA_DDR, 4), Field(GPIO_SWPORTA_DR, 4), Field(GPIO_EXT_PORTA, 4)),  // 68
    Layout("GPIO2_5", 2, 2, Pad(G3_MUXCFG_001, 20, 0x03), Field(GPIO_SWPORTA_DDR, 5), Field(GPIO_SWPORTA_DR, 5), Field(GPIO_EXT_PORTA, 5)),  // 69
    Layout("GPIO2_6", 2, 2, Pad(G3_MUXCFG_001, 24, 0x03), Field(GPIO_SWPORTA_DDR, 6), Field(GPIO_SWPORTA_DR, 6), Field(GPIO_EXT_PORTA, 6)),  // 70
    Layout("GPIO2_7", 2, 2, Pad(G3_MUXCFG_001, 28, 0x03), Field(GPIO_SWPORTA_DDR, 7), Field(GPIO_SWPORTA_DR, 7), Field(GPIO_EXT_PORTA, 7)),  // 71
    Layout("GPIO2_8", 2, 2, Pad(G3_MUXCFG_002, 0, 0x03), Field(GPIO_SWPORTA_DDR, 8), Field(GPIO_SWPORTA_DR, 8), Field(GPIO_EXT_PORTA, 18)),  // 72
    Layout("GPIO2_9", 2, 2, Pad(G3_MUXCFG_002, 4, 0x03), Field(GPIO_SWPORTA_DDR, 9), Field(GPIO_SWPORTA_DR, 9), Field(GPIO_EXT_PORTA, 19)),  // 73
    Layout("GPIO2_10", 2, 2, Pad(G3_MUXCFG_002, 8, 0x03), Field(GPIO_SWPORTA_DDR, 10), Field(GPIO_SWPORTA_DR, 10), Field(GPIO_EXT_PORTA, 10)),  // 74
    Layout("GPIO2_11", 2, 2, Pad(G3_MUXCFG_002, 12, 0x03), Field(GPIO_SWPORTA_DDR, 11), Field(GPIO_SWPORTA_DR, 11), Field(GPIO_EXT_PORTA, 11)),  // 75
    Layout("GPIO2_12", 2, 2, Pad(G3_MUXCFG_002, 16, 0x03), Field(GPIO_SWPORTA_DDR, 12), Field(GPIO_SWPORTA_DR, 12), Field(GPIO_EXT_PORTA, 12)),  // 76
    Layout("GPIO2_13", 2, 2, Pad(G3_MUXCFG_002, 20, 0x00), Field(GPIO_SWPORTA_DDR, 13), Field(GPIO_SWPORTA_DR, 13), Field(GPIO_EXT_PORTA, 13)),  // 77
    Layout("GPIO2_14", 2, 2, Pad(G3_MUXCFG_002, 24, 0x03), Field(GPIO_SWPORTA_DDR, 14), Field(GPIO_SWPORTA_DR, 14), Field(GPIO_EXT_PORTA, 14)),  // 78
    Layout("GPIO2_15", 2, 2, Pad(G3_MUXCFG_002, 28, 0x03), Field(GPIO_SWPORTA_DDR, 15), Field(GPIO_SWPORTA_DR, 15), Field(GPIO_EXT_PORTA, 15)),  // 79
    Layout("GPIO2_16", 2, 2, Pad(G3_MUXCFG_003, 0, 0x03), Field(GPIO_SWPORTA_DDR, 16), Field(GPIO_SWPORTA_DR, 16), Field(GPIO_EXT_PORTA, 16)),  // 80
    Layout("GPIO2_17", 2, 2, Pad(G3_MUXCFG_003, 4, 0x03), Field(GPIO_SWPORTA_DDR, 17), Field(GPIO_SWPORTA_DR, 17), Field(GPIO_EXT_PORTA, 17)),  // 81
    Layout("GPIO2_18", 2, 2, Pad(G3_MUXCFG_003, 8, 0x00), Field(GPIO_SWPORTA_DDR, 18), Field(GPIO_SWPORTA_DR, 18), Field(GPIO_EXT_PORTA, 18)),  // 82
    Layout("GPIO2_19", 2, 2, Pad(G3_MUXCFG_003, 12, 0x00), Field(GPIO_SWPORTA_DDR, 19), Field(GPIO_SWPORTA_DR, 19), Field(GPIO_EXT_PORTA, 19)),  // 83
    Layout("GPIO2_20", 2, 2, Pad(G3_MUXCFG_003, 16, 0x00), Field(GPIO_SWPORTA_DDR, 20), Field(GPIO_SWPORTA_DR, 20), Field(GPIO_EXT_PORTA, 20)),  // 84
    Layout("GPIO2_21", 2, 2, Pad(G3_MUXCFG_003, 20, 0x00), Field(GPIO_SWPORTA_DDR, 21), Field(GPIO_SWPORTA_DR, 21), Field(GPIO_EXT_PORTA, 21)),  // 85
    Layout("GPIO2_22", 2, 2, Pad(G3_MUXCFG_003, 24, 0x00), Field(GPIO_SWPORTA_DDR, 22), Field(GPIO_SWPORTA_DR, 22), Field(GPIO_EXT_PORTA, 22)),  // 86
    Layout("GPIO2_23", 2, 2, Pad(G3_MUXCFG_003, 28, 0x00), Field(GPIO_SWPORTA_DDR, 23), Field(GPIO_SWPORTA_DR, 22), Field(GPIO_EXT_PORTA, 22)),  // 87
    Layout("GPIO2_24", 2, 2, Pad(G3_MUXCFG_004, 0, 0x00), Field(GPIO_SWPORTA_DDR, 24), Field(GPIO_SWPORTA_DR, 24), Field(GPIO_EXT_PORTA, 24)),  // 88
    Layout("GPIO2_25", 2, 2, Pad(G3_MUXCFG_004, 4, 0x00), Field(GPIO_SWPORTA_DDR, 25), Field(GPIO_SWPORTA_DR, 25), Field(GPIO_EXT_PORTA, 25)),  // 89
    Layout("GPIO2_26", 2, 2, Pad(G3_MUXCFG_004, 8, 0x03), Field(GPIO_SWPORTA_DDR, 26), Field(GPIO_SWPORTA_DR, 26), Field(GPIO_EXT_PORTA, 26)),  // 90
    Layout("GPIO2_27", 2, 2, Pad(G3_MUXCFG_004, 10, 0x03), Field(GPIO_SWPORTA_DDR, 27), Field(GPIO_SWPORTA_DR, 27), Field(GPIO_EXT_PORTA, 27)),  // 91
    Layout("GPIO2_28", 2, 2, Pad(G3_MUXCFG_004, 16, 0x03), Field(GPIO_SWPORTA_DDR, 28), Field(GPIO_SWPORTA_DR, 28), Field(GPIO_EXT_PORTA, 28)),  // 92
    Layout("GPIO2_29", 2, 2, Pad(G3_MUXCFG_004, 20, 0x03), Field(GPIO_SWPORTA_DDR, 29), Field(GPIO_SWPORTA_DR, 29), Field(GPIO_EXT_PORTA, 29)),  // 93
    Layout("GPIO2_30", 2, 2, Pad(G3_MUXCFG_004, 24, 0x00), Field(GPIO_SWPORTA_DDR, 30), Field(GPIO_SWPORTA_DR, 30), Field(GPIO_EXT_PORTA, 30)),  // 94
    Layout("GPIO2_31", 2, 2, Pad(G3_MUXCFG_004, 28, 0x00), Field(GPIO_SWPORTA_DDR, 31), Field(GPIO_SWPORTA_DR, 31), Field(GPIO_EXT_PORTA, 31))  // 95
  ]

  /** Layout entries 96..129: GPIO3_0 .. GPIO3_31, with GPIO3_22 and GPIO3_25 twice */
  const Bank3: seq<Layout> := [
    Layout("GPIO3_0", 2, 3, Pad(G3_MUXCFG_005, 0, 0x00), Field(GPIO_SWPORTA_DDR, 0), Field(GPIO_SWPORTA_DR, 0), Field(GPIO_EXT_PORTA, 0)),  // 96
    Layout("GPIO3_1", 2, 3, Pad(G3_MUXCFG_005, 4, 0x00), Field(GPIO_SWPORTA_DDR, 1), Field(GPIO_SWPORTA_DR, 1), Field(GPIO_EXT_PORTA, 1)),  // 97
    Layout("GPIO3_2", 2, 3, Pad(G3_MUXCFG_005, 8, 0x00), Field(GPIO_SWPORTA_DDR, 2), Field(GPIO_SWPORTA_DR, 2), Field(GPIO_EXT_PORTA, 2)),  // 98
    Layout("GPIO3_3", 2, 3, Pad(G3_MUXCFG_005, 12, 0x00), Field(GPIO_SWPORTA_DDR, 3), Field(GPIO_SWPORTA_DR, 3), Field(GPIO_EXT_PORTA, 3)),  // 99
    Layout("GPIO3_4", 2, 3, Pad(G3_MUXCFG_005, 16, 0x03), Field(GPIO_SWPORTA_DDR, 4), Field(GPIO_SWPORTA_DR, 4), Field(GPIO_EXT_PORTA, 4)),  // 100
    Layout("GPIO3_5", 2, 3, Pad(G3_MUXCFG_005, 20, 0x03), Field(GPIO_SWPORTA_DDR, 5), Field(GPIO_SWPORTA_DR, 5), Field(GPIO_EXT_PORTA, 5)),  // 101
    Layout("GPIO3_6", 2, 3, Pad(G3_MUXCFG_005, 24, 0x03), Field(GPIO_SWPORTA_DDR, 6), Field(GPIO_SWPORTA_DR, 6), Field(GPIO_EXT_PORTA, 6)),  // 102
    Layout("GPIO3_7", 2, 3, Pad(G3_MUXCFG_005, 28, 0x03), Field(GPIO_SWPORTA_DDR, 7), Field(GPIO_SWPORTA_DR, 7), Field(GPIO_EXT_PORTA, 7)),  // 103
    Layout("GPIO3_8", 2, 3, Pad(G3_MUXCFG_006, 0, 0x03), Field(GPIO_SWPORTA_DDR, 8), Field(GPIO_SWPORTA_DR, 8), Field(GPIO_EXT_PORTA, 18)),  // 104
    Layout("GPIO3_9", 2, 3, Pad(G3_MUXCFG_006, 4, 0x03), Field(GPIO_SWPORTA_DDR, 9), Field(GPIO_SWPORTA_DR, 9), Field(GPIO_EXT_PORTA, 19)),  // 105
    Layout("GPIO3_10", 2, 3, Pad(G3_MUXCFG_006, 8, 0x03), Field(GPIO_SWPORTA_DDR, 10), Field(GPIO_SWPORTA_DR, 10), Field(GPIO_EXT_PORTA, 10)),  // 106
    Layout("GPIO3_11", 2, 3, Pad(G3_MUXCFG_006, 12, 0x03), Field(GPIO_SWPORTA_DDR, 11), Field(GPIO_SWPORTA_DR, 11), Field(GPIO_EXT_PORTA, 11)),  // 107
    Layout("GPIO3_12", 2, 3, Pad(G3_MUXCFG_006, 16, 0x03), Field(GPIO_SWPORTA_DDR, 12), Field(GPIO_SWPORTA_DR, 12), Field(GPIO_EXT_PORTA, 12)),  // 108
    Layout("GPIO3_13", 2, 3, Pad(G3_MUXCFG_006, 20, 0x03), Field(GPIO_SWPORTA_DDR, 13), Field(GPIO_SWPORTA_DR, 13), Field(GPIO_EXT_PORTA, 13)),  // 109
    Layout("GPIO3_14", 2, 3, Pad(G3_MUXCFG_006, 24, 0x03), Field(GPIO_SWPORTA_DDR, 14), Field(GPIO_SWPORTA_DR, 14), Field(GPIO_EXT_PORTA, 14)),  // 110
    Layout("GPIO3_15", 2, 3, Pad(G3_MUXCFG_006, 28, 0x03), Field(GPIO_SWPORTA_DDR, 15), Field(GPIO_SWPORTA_DR, 15), Field(GPIO_EXT_PORTA, 15)),  // 111
    Layout("GPIO3_16", 2, 3, Pad(G3_MUXCFG_007, 0, 0x03), Field(GPIO_SWPORTA_DDR, 16), Field(GPIO_SWPORTA_DR, 16), Field(GPIO_EXT_PORTA, 16)),  // 112
    Layout("GPIO3_17", 2, 3, Pad(G3_MUXCFG_007, 4, 0x03), Field(GPIO_SWPORTA_DDR, 17), Field(GPIO_SWPORTA_DR, 17), Field(GPIO_EXT_PORTA, 17)),  // 113
    Layout("GPIO3_18", 2, 3, Pad(G3_MUXCFG_007, 8, 0x03), Field(GPIO_SWPORTA_DDR, 18), Field(GPIO_SWPORTA_DR, 18), Field(GPIO_EXT_PORTA, 18)),  // 114
    Layout("GPIO3_19", 2, 3, Pad(G3_MUXCFG_007, 12, 0x03), Field(GPIO_SWPORTA_DDR, 19), Field(GPIO_SWPORTA_DR, 19), Field(GPIO_EXT_PORTA, 19)),  // 115
    Layout("GPIO3_20", 2, 3, Pad(G3_MUXCFG_007, 16, 0x03), Field(GPIO_SWPORTA_DDR, 20), Field(GPIO_SWPORTA_DR, 20), Field(GPIO_EXT_PORTA, 20)),  // 116
    Layout("GPIO3_21", 2, 3, Pad(G3_MUXCFG_007, 20, 0x03), Field(GPIO_SWPORTA_DDR, 21), Field(GPIO_SWPORTA_DR, 21), Field(GPIO_EXT_PORTA, 21)),  // 117
    Layout("GPIO3_22", 2, 3, Pad(G3_MUXCFG_007, 24, 0x03), Field(GPIO_SWPORTA_DDR, 22), Field(GPIO_SWPORTA_DR, 22), Field(GPIO_EXT_PORTA, 22)),  // 118
    Unavailable("GPIO3_22"),  // 119
    Unavailable("GPIO3_23"),  // 120
    Unavailable("GPIO3_24"),  // 121
    Unavailable("GPIO3_25"),  // 122
    Unavailable("GPIO3_25"),  // 123
    Unavailable("GPIO3_26"),  // 124
    Unavailable("GPIO3_27"),  // 125
    Unavailable("GPIO3_28"),  // 126
    Unavailable("GPIO3_29"),  // 127
    Unavailable("GPIO3_30"),  // 128
    Unavailable("GPIO3_31")  // 129
  ]

  /** The layout table (th1520->layout), entry by entry as the driver declares it, kept as four
      runs of entries so that the verifier reaches each entry in a few steps. */
  const Table: seq<Layout> := Bank0 + Bank1 + Bank2 + Bank3

  // ---------------------------------------------------------------------------
  // Facts about the layout table

  /** Where entry k of the table sits in its run. */
  lemma TableAt(k: nat)
    requires k < |Table|
    ensures |Bank0| == 32 && |Bank1| == 32 && |Bank2| == 32 && |Bank3| == 34
    ensures Table[k] == if k < 32 then Bank0[k] else if k < 64 then Bank1[k - 32]
                        else if k < 96 then Bank2[k - 64] else Bank3[k - 96]
  {
  }

  lemma RunBanks()
    ensures forall k | 0 <= k < |Bank0| :: Bank0[k].bank == 0
    ensures forall k | 0 <= k < 31 :: Bank1[k].bank == 1
    ensures Bank1[31] == Unavailable("GPIO1_31")
    ensures forall k | 0 <= k < |Bank2| :: Bank2[k].bank == 2
    ensures forall k | 0 <= k < 23 :: Bank3[k].bank == 3
    ensures forall k | 23 <= k < |Bank3| :: Bank3[k] == Unavailable(Bank3[k].name)
  {
  }

  /** Every entry names bank 0..3, so the bank test of the lookup never rejects an entry. */
  lemma TableBanksInRange()
    ensures |Table| == 130
    ensures forall k | 0 <= k < |Table| :: 0 <= Table[k].bank < GroupCount
  {
    forall k | 0 <= k < |Table|
      ensures 0 <= Table[k].bank < GroupCount
    {
      TableAt(k);
      RunBanks();
    }
  }

  /** Entries 0..31 are bank 0, 32..62 bank 1, 64..95 bank 2 and 96..118 bank 3; the others
      (63 and 119..129) are GPIO_UNAVAILABLE placeholders. */
  lemma TableBanksFollowIndex()
    ensures forall k | 0 <= k < |Table| && k != 63 && k < 119 :: Table[k].bank == k / 32
    ensures forall k | 119 <= k < |Table| :: Table[k] == Unavailable(Table[k].name)
    ensures Table[63] == Unavailable("GPIO1_31")
  {
    forall k | 0 <= k < |Table|
      ensures k != 63 && k < 119 ==> Table[k].bank == k / 32
      ensures 119 <= k ==> Table[k] == Unavailable(Table[k].name)
    {
      TableAt(k);
      RunBanks();
    }
    TableAt(63);
    RunBanks();
  }

  /** The placeholder at 63 is all zero: its direction register is the output register of
      bank 0 and its direction bit is bit 0, the output bit of GPIO0_0. */
  lemma PlaceholderAliasesGpio0Output()
    ensures Table[63].bank == Table[0].bank == 0
    ensures Table[63].direction == Table[0].out
    ensures Table[63].direction.offset == GPIO_SWPORTA_DR
  {
  }

  /** Entries 55..62 reuse the direction, output and input bits of 54 and 48..54 in the same bank;
      entry 87 reuses the output and input bit of 86 but not its direction bit. */
  lemma SharedRegisterBits()
    ensures forall k | 56 <= k <= 62 ::
              Table[k].bank == Table[k - 8].bank && Table[k].direction == Table[k - 8].direction &&
              Table[k].out == Table[k - 8].out && Table[k].input == Table[k - 8].input
    ensures Table[55].bank == Table[54].bank && Table[55].direction == Table[54].direction &&
            Table[55].out == Table[54].out && Table[55].input == Table[54].input
    ensures Table[87].bank == Table[86].bank && Table[87].out == Table[86].out &&
            Table[87].input == Table[86].input && Table[87].direction != Table[86].direction
  {
    forall k | 56 <= k <= 62
      ensures Table[k].bank == Table[k - 8].bank && Table[k].direction == Table[k - 8].direction &&
              Table[k].out == Table[k - 8].out && Table[k].input == Table[k - 8].input
    {
      TableAt(k);
      TableAt(k - 8);
    }
  }

  /** GPIO2_8/9 and GPIO3_8/9 read input bits 18/19, the input bits of GPIO2_18/19 and GPIO3_18/19. */
  lemma SharedInputBits()
    ensures Table[72].bank == Table[82].bank && Table[72].input == Table[82].input
    ensures Table[73].bank == Table[83].bank && Table[73].input == Table[83].input
    ensures Table[104].bank == Table[114].bank && Table[104].input == Table[114].input
    ensures Table[105].bank == Table[115].bank && Table[105].input == Table[115].input
    ensures Table[72].out != Table[82].out && Table[104].out != Table[114].out
  {
  }

  /** GPIO2_27 puts its pad field at bit 10 of the word whose bits 8..11 hold GPIO2_26's field:
      configuring GPIO2_27 rewrites half of GPIO2_26's pad field. */
  lemma OverlappingPadFields(w: bv32)
    ensures Table[90].padNum == Table[91].padNum && Table[90].pad.offset == Table[91].pad.offset
    ensures Table[90].pad.bit == 8 && Table[91].pad.bit == 10
    ensures (ReplaceNibble(ReplaceNibble(w, 8, 0x03), 10, 0x03) >> 8) & 0xf == 0xf
  {
  }

  /** Two names occur twice: entries 118 and 119 are both GPIO3_22, entries 122 and 123 GPIO3_25. */
  lemma RepeatedNames()
    ensures GetPinName(118) == GetPinName(119) == "GPIO3_22"
    ensures GetPinName(122) == GetPinName(123) == "GPIO3_25"
  {
  }

  /** With this table the lookup succeeds exactly when a map is installed, the board accepts
      the pin and /dev/mem is open. */
  lemma {:induction false} LookupNeedsNoBankCheck(platformMap: seq<int>, devFd: int, mapping: Option<seq<int>>, i: int)
    requires mapping.Some? ==> MapSafe(platformMap, mapping.value, |Table|)
    ensures GetLayout(Table, platformMap, devFd, mapping, i).Some? <==>
              mapping.Some? && ValidGPIO(platformMap, i) == 0 && devFd > 0
  {
    TableBanksInRange();
  }

  /** th1520GetPinName: the name of layout entry `pin`; the C code does not bound `pin`. */
  function GetPinName(pin: int): (name: string)
    requires 0 <= pin < |Table|
    ensures name == Table[pin].name
  {
    Table[pin].name
  }

  /** th1520GetLayout: the index of the layout entry that logical pin `i` selects through
      `mapping`, or None where the C code returns NULL: no mapping installed, a pin the
      board rejects, no /dev/mem descriptor, or a bank outside 0..3. */
  function GetLayout(layout: seq<Layout>, platformMap: seq<int>, devFd: int, mapping: Option<seq<int>>, i: int): (r: Option<nat>)
    requires mapping.Some? ==> MapSafe(platformMap, mapping.value, |layout|)
    ensures r.Some? ==> r.value < |layout| && 0 <= layout[r.value].bank < GroupCount
    ensures r.Some? <==>
              mapping.Some? && ValidGPIO(platformMap, i) == 0 && devFd > 0 &&
              0 <= layout[mapping.value[i]].bank < GroupCount
    ensures r.Some? ==> r.value == mapping.value[i]
  {
    if mapping.None? then None
    else if ValidGPIO(platformMap, i) != 0 then None
    // th1520->gpio is an array member and never NULL: only the descriptor is tested
    else if devFd <= 0 then None
    else if layout[mapping.value[i]].bank < 0 || layout[mapping.value[i]].bank >= GroupCount then None
    else Some(mapping.value[i])
  }

  /** The driver state gc starts from: modes and fds, exported lines, window pointers, and
      the contents of every mapped window. */
  datatype Snapshot = Snapshot(pins: seq<PinState>, exported: set<int>, gpio: seq<Window>,
                               pads: seq<Window>, contents: map<array<bv32>, seq<bv32>>)

  class Driver {
    /** The layout table the driver points at (th1520->layout). */
    const layout: seq<Layout>
    /** The board map behind wiringXValidGPIO (the platform's validGPIO). */
    const platformMap: seq<int>
    /** The /dev/mem descriptor. */
    var fd: int
    /** The four GPIO windows (th1520->gpio) and the four pad windows (pad_groups_reg). */
    var gpio: seq<Window>
    var pads: seq<Window>
    /** The pin map and interrupt map installed by setMap and setIRQ; None is NULL. */
    var pinMap: Option<seq<int>>
    var irqMap: Option<seq<int>>
    /** The mode and fd fields of every layout entry, indexed like layout. */
    var pins: seq<PinState>
    /** The kernel GPIO lines currently exported under /sys/class/gpio. */
    var exported: set<int>

    ghost predicate Valid()
      reads this
    {
      |pins| == |layout| && |gpio| == GroupCount && |pads| == PadGroupCount &&
      (forall k | 0 <= k < |gpio| && gpio[k] != null :: gpio[k].Length == PageWords) &&
      (forall k | 0 <= k < |pads| && pads[k] != null :: pads[k].Length == PageWords) &&
      (forall a, b | 0 <= a < b < |gpio| :: gpio[a] == null || gpio[a] != gpio[b]) &&
      (forall a, b | 0 <= a < b < |pads| :: pads[a] == null || pads[a] != pads[b]) &&
      (forall a, b | 0 <= a < |gpio| && 0 <= b < |pads| :: gpio[a] == null || gpio[a] != pads[b]) &&
      (pinMap.Some? ==> MapSafe(platformMap, pinMap.value, |layout|)) &&
      (irqMap.Some? ==> MapSafe(platformMap, irqMap.value, |layout|))
    }

    /** The mapped windows. */
    ghost function Windows(): set<array<bv32>>
      reads this
    {
      (set k | 0 <= k < |gpio| && gpio[k] != null :: gpio[k] as array<bv32>) +
      (set k | 0 <= k < |pads| && pads[k] != null :: pads[k] as array<bv32>)
    }

    /** th1520GetPinLayout(i) and th1520GetIrqLayout(i). */
    function PinLayout(i: int): Option<nat>
      reads this
      requires Valid()
    {
      GetLayout(layout, platformMap, fd, pinMap, i)
    }

    function IrqLayout(i: int): Option<nat>
      reads this
      requires Valid()
    {
      GetLayout(layout, platformMap, fd, irqMap, i)
    }

    /** The driver before setup: nothing mapped, no maps installed, every entry NOT_SET with fd 0.
        `exported` is whatever the kernel has exported already. */
    constructor (platformMap: seq<int>, exported: set<int>)
      ensures Valid()
      ensures layout == Table && this.platformMap == platformMap && this.exported == exported
      ensures fd == 0 && pinMap == None && irqMap == None
      ensures gpio == [null, null, null, null] && pads == [null, null, null, null]
      ensures forall k | 0 <= k < |pins| :: pins[k] == PinState(NotSet, 0)
    {
      layout := Table;
      this.platformMap := platformMap;
      this.exported := exported;
      fd := 0;
      pinMap := None;
      irqMap := None;
      gpio := [null, null, null, null];
      pads := [null, null, null, null];
      pins := seq(|Table|, _ => PinState(NotSet, 0));
    }

    /** th1520Setup: `devFd` is what open("/dev/mem") returns, `gpioMapped[k]` and
        `padMapped[k]` whether the k-th mmap succeeds. Setup stops at the first failure. */
    method Setup(devFd: int, gpioMapped: seq<bool>, padMapped: seq<bool>) returns (r: int)
      requires Valid()
      requires |gpioMapped| == GroupCount && |padMapped| == PadGroupCount
      modifies this`fd, this`gpio, this`pads
      ensures Valid() && fd == devFd
      ensures r == 0 <==>
                devFd >= 0 && FirstFailure(gpioMapped) == GroupCount && FirstFailure(padMapped) == PadGroupCount
      ensures r != 0 ==> r == -1
      ensures devFd < 0 ==> gpio == old(gpio) && pads == old(pads)
      ensures devFd >= 0 ==> MappedUpTo(old(gpio), gpio, FirstFailure(gpioMapped), PageWords)
      ensures devFd >= 0 && FirstFailure(gpioMapped) < GroupCount ==> pads == old(pads)
      ensures devFd >= 0 && FirstFailure(gpioMapped) == GroupCount ==>
                MappedUpTo(old(pads), pads, FirstFailure(padMapped), PageWords)
    {
      fd := devFd;
      if fd < 0 {
        return -1;
      }
      gpio := MapWindows(gpio, gpioMapped, PageWords);
      if FirstFailure(gpioMapped) < GroupCount {
        return -1;
      }
      pads := MapWindows(pads, padMapped, PageWords);
      if FirstFailure(padMapped) < PadGroupCount {
        return -1;
      }
      return 0;
    }

    /** th1520SetMap: install the pin map. Later lookups index it without a bounds check. */
    method SetMap(m: seq<int>)
      requires Valid() && MapSafe(platformMap, m, |layout|)
      modifies this`pinMap
      ensures Valid() && pinMap == Some(m)
    {
      pinMap := Some(m);
    }

    /** th1520SetIRQ: install the interrupt map. */
    method SetIRQ(m: seq<int>)
      requires Valid() && MapSafe(platformMap, m, |layout|)
      modifies this`irqMap
      ensures Valid() && irqMap == Some(m)
    {
      irqMap := Some(m);
    }

    /** th1520DigitalWrite: on an OUTPUT pin, HIGH sets and LOW clears bit out.bit of the word
        at gpio[bank] + out.offset; any other value is only logged, and 0 is returned. */
    method DigitalWrite(i: int, value: int) returns (r: Outcome)
      requires Valid()
      modifies Windows()
      ensures PinLayout(i).None? ==> r == Returns(-1) && OnlyWritten(Windows(), {})
      ensures PinLayout(i).Some? && pins[PinLayout(i).value].mode != Output ==>
                r == Returns(-1) && OnlyWritten(Windows(), {})
      ensures PinLayout(i).Some? && pins[PinLayout(i).value].mode == Output && value != HIGH && value != LOW ==>
                r == Returns(0) && OnlyWritten(Windows(), {})
      ensures PinLayout(i).Some? && pins[PinLayout(i).value].mode == Output && (value == HIGH || value == LOW) ==>
                var d := layout[PinLayout(i).value];
                var w := gpio[d.bank];
                var x := d.out.offset / 4;
                if w == null then r == Undefined(NullWindow) && OnlyWritten(Windows(), {})
                else
                  r == Returns(0) && OnlyWritten(Windows(), {w}) &&
                  w[..] == old(w[..])[x := if value == HIGH then SetBit(old(w[x]), d.out.bit)
                                           else ClearBit(old(w[x]), d.out.bit)]
    {
      var p := PinLayout(i);
      if p.None? {
        return Returns(-1);
      }
      var d := layout[p.value];
      if pins[p.value].mode != Output {
        return Returns(-1);
      }
      var w := gpio[d.bank];
      var x := d.out.offset / 4;
      if value == HIGH {
        if w == null {
          return Undefined(NullWindow);
        }
        WriteWord(w, x, SetBit(w[x], d.out.bit));
      } else if value == LOW {
        if w == null {
          return Undefined(NullWindow);
        }
        WriteWord(w, x, ClearBit(w[x], d.out.bit));
      }
      return Returns(0);
    }

    /** th1520DigitalRead: on an INPUT pin, bit in.bit of the word at gpio[bank] + in.offset. */
    method DigitalRead(i: int) returns (r: Outcome)
      requires Valid()
      ensures PinLayout(i).None? ==> r == Returns(-1)
      ensures PinLayout(i).Some? && pins[PinLayout(i).value].mode != Input ==> r == Returns(-1)
      ensures PinLayout(i).Some? && pins[PinLayout(i).value].mode == Input ==>
                var d := layout[PinLayout(i).value];
                var w := gpio[d.bank];
                if w == null then r == Undefined(NullWindow)
                else r.Returns? && (r.code == 0 || r.code == 1) &&
                     (r.code == 1 <==> IsSet(w[d.input.offset / 4], d.input.bit))
    {
      var p := PinLayout(i);
      if p.None? {
        return Returns(-1);
      }
      var d := layout[p.value];
      if pins[p.value].mode != Input {
        return Returns(-1);
      }
      var w := gpio[d.bank];
      if w == null {
        return Undefined(NullWindow);
      }
      var val := w[d.input.offset / 4];
      return Returns(ReadBit(val, d.input.bit));
    }

    /** th1520PinMode: rewrite the pad field of the entry with pad.value, then clear (INPUT) or
        set (OUTPUT) its direction bit and record the mode. Any other mode returns -1 after the
        pad field has been rewritten. */
    method PinMode(i: int, mode: PinMode) returns (r: Outcome)
      requires Valid()
      modifies this`pins, Windows()
      ensures Valid()
      ensures PinLayout(i).None? ==> r == Returns(-1) && pins == old(pins) && OnlyWritten(Windows(), {})
      ensures PinLayout(i).Some? ==>
                var k := PinLayout(i).value;
                var d := layout[k];
                var pw := pads[d.padNum];
                var w := gpio[d.bank];
                var px := d.pad.offset / 4;
                var x := d.direction.offset / 4;
                if pw == null then r == Undefined(NullWindow) && pins == old(pins) && OnlyWritten(Windows(), {})
                else
                  pw[..] == old(pw[..])[px := ReplaceNibble(old(pw[px]), d.pad.bit, d.pad.value)] &&
                  if mode != Input && mode != Output then
                    r == Returns(-1) && pins == old(pins) && OnlyWritten(Windows(), {pw})
                  else if w == null then
                    r == Undefined(NullWindow) && pins == old(pins) && OnlyWritten(Windows(), {pw})
                  else
                    r == Returns(0) && pins == old(pins)[k := old(pins[k]).(mode := mode)] &&
                    OnlyWritten(Windows(), {pw, w}) &&
                    w[..] == old(w[..])[x := if mode == Input then ClearBit(old(w[x]), d.direction.bit)
                                             else SetBit(old(w[x]), d.direction.bit)]
    {
      var p := PinLayout(i);
      if p.None? {
        return Returns(-1);
      }
      var k := p.value;
      var d := layout[k];
      var pw := pads[d.padNum];
      if pw == null {
        return Undefined(NullWindow);
      }
      var px := d.pad.offset / 4;
      WriteWord(pw, px, ReplaceNibble(pw[px], d.pad.bit, d.pad.value));
      var w := gpio[d.bank];
      var x := d.direction.offset / 4;
      if mode == Input {
        if w == null {
          return Undefined(NullWindow);
        }
        WriteWord(w, x, ClearBit(w[x], d.direction.bit));
      } else if mode == Output {
        if w == null {
          return Undefined(NullWindow);
        }
        WriteWord(w, x, SetBit(w[x], d.direction.bit));
      } else {
        return Returns(-1);
      }
      pins := pins[k := pins[k].(mode := mode)];
      return Returns(0);
    }

    /** th1520ISR: resolve pin `i` through the interrupt map and use irq[i] as the kernel line.
        The sysfs steps are abstract: `exportOk`, `directionOk` and `edgeOk` say whether the
        export, the direction write and the edge write succeed, `valueFd` is what opening the
        value file returns. The entry's fd takes `valueFd` even when that is -1. */
    method Isr(i: int, exportOk: bool, directionOk: bool, edgeOk: bool, valueFd: int) returns (r: int)
      requires Valid()
      modifies this`pins, this`exported
      ensures Valid()
      ensures IrqLayout(i).None? ==> r == -1 && pins == old(pins) && exported == old(exported)
      ensures IrqLayout(i).Some? ==>
                var k := IrqLayout(i).value;
                var line := irqMap.value[i];
                var present := line in old(exported) || exportOk;
                exported == (if present then old(exported) + {line} else old(exported)) &&
                (!present || !directionOk || !edgeOk ==> r == -1 && pins == old(pins)) &&
                (present && directionOk && edgeOk && valueFd == -1 ==>
                   r == -1 && pins == old(pins)[k := old(pins[k]).(fd := -1)]) &&
                (present && directionOk && edgeOk && valueFd != -1 ==>
                   r == 0 && pins == old(pins)[k := PinState(Interrupt, valueFd)])
    {
      var p := IrqLayout(i);
      if p.None? {
        return -1;
      }
      var k := p.value;
      var line := irqMap.value[i];
      if line !in exported {
        if !exportOk {
          return -1;
        }
        exported := exported + {line};
      }
      if !directionOk {
        return -1;
      }
      if !edgeOk {
        return -1;
      }
      pins := pins[k := pins[k].(fd := valueFd)];
      if valueFd == -1 {
        return -1;
      }
      pins := pins[k := pins[k].(mode := Interrupt)];
      return 0;
    }

    /** th1520WaitforInterrupt: only an INTERRUPT pin reaches soc_wait_for_interrupt, whose
        result is `waited`. */
    method WaitForInterrupt(i: int, waited: int) returns (r: int)
      requires Valid()
      ensures IrqLayout(i).None? ==> r == -1
      ensures IrqLayout(i).Some? && pins[IrqLayout(i).value].mode != Interrupt ==> r == -1
      ensures IrqLayout(i).Some? && pins[IrqLayout(i).value].mode == Interrupt ==> r == waited
    {
      var p := IrqLayout(i);
      if p.None? {
        return -1;
      }
      if pins[p.value].mode != Interrupt {
        return -1;
      }
      return waited;
    }

    /** th1520Selectablefd: the entry's fd, whatever its mode. */
    method SelectableFd(i: int) returns (r: int)
      requires Valid()
      ensures IrqLayout(i).None? ==> r == -1
      ensures IrqLayout(i).Some? ==> r == pins[IrqLayout(i).value].fd
    {
      var p := IrqLayout(i);
      if p.None? {
        return -1;
      }
      return pins[p.value].fd;
    }

    /** What gc leaves behind for map entry j: the entry is inside the table, its fd is closed,
        it is OUTPUT only if pinMode could not look it up, and if it is INTERRUPT it has its
        irq[j]. */
    ghost predicate ReleasedAt(m: seq<int>, j: int)
      reads this
      requires Valid() && pinMap == Some(m) && 0 <= j < |m|
    {
      0 <= m[j] < |layout| && pins[m[j]].fd <= 0 &&
      (pins[m[j]].mode == Output ==> PinLayout(j).None?) &&
      (pins[m[j]].mode == Interrupt ==> irqMap.Some? && j < |irqMap.value|)
    }

    /** Every map entry released (see ReleasedAt). */
    ghost predicate EntriesReleased()
      reads this
      requires Valid()
    {
      pinMap.Some? ==> forall j | 0 <= j < |pinMap.value| :: ReleasedAt(pinMap.value, j)
    }

    /** The state a successful gc leaves: every GPIO window unmapped and every map entry released. */
    ghost predicate Released()
      reads this
      requires Valid()
    {
      gpio == [null, null, null, null] && EntriesReleased()
    }

    /** gc visits map entry j without undefined behaviour: the entry is inside the table, an
        INTERRUPT entry has its irq[j], and an OUTPUT entry that pinMode looks up has its pad
        window and its GPIO window mapped. */
    ghost predicate SafeEntry(m: seq<int>, j: int)
      reads this
      requires Valid() && pinMap == Some(m) && 0 <= j < |m|
    {
      0 <= m[j] < |layout| &&
      (pins[m[j]].mode == Interrupt ==> irqMap.Some? && j < |irqMap.value|) &&
      (pins[m[j]].mode == Output && PinLayout(j).Some? ==>
         pads[layout[m[j]].padNum] != null && gpio[layout[m[j]].bank] != null)
    }

    /** Map entry j is INTERRUPT and `line` is its irq[j]: the line gc unexports for it. */
    ghost predicate Unexports(m: seq<int>, j: int, line: int)
      reads this`pins, this`irqMap
    {
      0 <= j < |m| && 0 <= m[j] < |pins| && pins[m[j]].mode == Interrupt &&
      irqMap.Some? && j < |irqMap.value| && irqMap.value[j] == line
    }

    /** With modes `p` and windows `g` and `pd`, word x of window a is the pad word or the
        direction word of the OUTPUT layout entry k: a word gc's pinMode(i, PINMODE_INPUT)
        may write for it. */
    ghost predicate ResetWord(p: seq<PinState>, g: seq<Window>, pd: seq<Window>, k: int, a: array<bv32>, x: int)
    {
      0 <= k < |layout| && k < |p| && p[k].mode == Output &&
      ((layout[k].padNum < |pd| && a == pd[layout[k].padNum] && x == layout[k].pad.offset / 4) ||
       (0 <= layout[k].bank < |g| && a == g[layout[k].bank] && x == layout[k].direction.offset / 4))
    }

    /** The driver state gc starts from. */
    ghost function Snap(): Snapshot
      reads this, Windows()
    {
      Snapshot(pins, exported, gpio, pads, map a | a in Windows() :: a[..])
    }

    /** What the first n passes of gc's loop over map `m` changed since `s`, when `ok[j]`
        says whether the unexport of entry j succeeds: a line is only unexported, and only as
        the irq line of an INTERRUPT entry whose unexport succeeds; an entry no pass reached
        keeps its mode and fd; a mode only goes from OUTPUT to INPUT and an fd only from
        positive to 0; in the windows of `s` only the pad and direction words of reached
        OUTPUT entries change. */
    ghost predicate ChangedSince(s: Snapshot, m: seq<int>, ok: seq<bool>, n: nat)
      reads this`pins, this`exported, this`irqMap, s.contents.Keys
    {
      n <= |m| &&
      exported <= s.exported &&
      (forall line | line in s.exported && line !in exported ::
         exists j | 0 <= j < n && j < |ok| && ok[j] :: Unexports(m, j, line)) &&
      |pins| == |s.pins| &&
      (forall k | 0 <= k < |pins| && k !in m[..n] :: pins[k] == s.pins[k]) &&
      (forall k | 0 <= k < |pins| ::
         pins[k].mode == s.pins[k].mode || (s.pins[k].mode == Output && pins[k].mode == Input)) &&
      (forall k | 0 <= k < |pins| :: pins[k].fd == s.pins[k].fd || (s.pins[k].fd > 0 && pins[k].fd == 0)) &&
      (forall a, x | a in s.contents && 0 <= x < a.Length && x < |s.contents[a]| && a[x] != s.contents[a][x] ::
         exists j | 0 <= j < n :: ResetWord(s.pins, s.gpio, s.pads, m[j], a, x))
    }

    /** The first n passes of gc's loop unexported the irq line of every INTERRUPT entry whose
        unexport succeeds. */
    ghost predicate UnexportedUpTo(m: seq<int>, ok: seq<bool>, n: nat)
      reads this`pins, this`exported, this`irqMap
    {
      forall j, line | 0 <= j < n && j < |ok| && ok[j] && Unexports(m, j, line) :: line !in exported
    }

    /** What one pass of gc's loop, for map entry i, changes (see ChangedSince). */
    twostate predicate EntryStep(m: seq<int>, i: nat, ok: bool)
      reads this, Windows()
    {
      i < |m| && old(Windows()) == Windows() &&
      exported <= old(exported) &&
      (forall line | line in old(exported) && line !in exported :: ok && Unexports(m, i, line)) &&
      (ok ==> forall line | Unexports(m, i, line) :: line !in exported) &&
      |pins| == |old(pins)| &&
      (forall k | 0 <= k < |pins| && k != m[i] :: pins[k] == old(pins[k])) &&
      (forall k | 0 <= k < |pins| ::
         pins[k].mode == old(pins[k].mode) || (old(pins[k].mode) == Output && pins[k].mode == Input)) &&
      (forall k | 0 <= k < |pins| :: pins[k].fd == old(pins[k].fd) || (old(pins[k].fd) > 0 && pins[k].fd == 0)) &&
      (forall a, x | a in old(Windows()) && 0 <= x < a.Length && a[x] != old(a[x]) ::
         old(ResetWord(pins, gpio, pads, m[i], a, x)))
    }

    /** Nothing has changed after no pass. */
    lemma ChangedSinceStart(m: seq<int>, ok: seq<bool>)
      ensures ChangedSince(Snap(), m, ok, 0)
    {
      forall a, x | a in Snap().contents && 0 <= x < a.Length && x < |Snap().contents[a]|
        ensures a[x] == Snap().contents[a][x]
      {
        assert Snap().contents[a] == a[..];
      }
    }

    /** Passes of gc's loop that reached n entries also reached any fewer. */
    lemma ChangedSinceWiden(s: Snapshot, m: seq<int>, ok: seq<bool>, n: nat, n': nat)
      requires ChangedSince(s, m, ok, n) && n <= n' <= |m|
      ensures ChangedSince(s, m, ok, n')
    {
      forall k | 0 <= k < |pins| && k !in m[..n']
        ensures pins[k] == s.pins[k]
      {
        assert m[..n] == m[..n'][..n];
      }
    }

    /** The munmap loop over the GPIO windows. */
    method UnmapGpio()
      requires Valid()
      modifies this`gpio
      ensures Valid() && gpio == [null, null, null, null]
    {
      var i := 0;
      while i < GroupCount
        invariant 0 <= i <= GroupCount
        invariant Valid()
        invariant forall k | 0 <= k < i :: gpio[k] == null
      {
        if gpio[i] != null {
          gpio := gpio[i := null];
        }
        i := i + 1;
      }
    }

    /** The pinMode(i, PINMODE_INPUT) call of th1520GC on an OUTPUT entry, seen from gc:
        the entry either switches to INPUT, or lookup refuses it and nothing changes; only
        the entry's pad word and direction word can change. */
    method ResetToInput(m: seq<int>, i: nat) returns (r: Outcome)
      requires Valid() && pinMap == Some(m) && i < |m| && 0 <= m[i] < |layout| && pins[m[i]].mode == Output
      modifies this`pins, Windows()
      ensures Valid()
      ensures r.Returns? ==>
                (PinLayout(i).None? && r.code == -1 && pins == old(pins)) ||
                (r.code == 0 && pins == old(pins)[m[i] := old(pins[m[i]]).(mode := Input)])
      ensures r.Undefined? ==> pins == old(pins)
      ensures PinLayout(i).None? ==> r == Returns(-1) && OnlyWritten(Windows(), {})
      ensures old(SafeEntry(m, i)) ==> r.Returns?
      ensures forall a, x | a in Windows() && 0 <= x < a.Length && a[x] != old(a[x]) ::
                old(ResetWord(pins, gpio, pads, m[i], a, x))
    {
      r := PinMode(i, Input);
      forall a, x | a in Windows() && 0 <= x < a.Length && a[x] != old(a[x])
        ensures old(ResetWord(pins, gpio, pads, m[i], a, x))
      {
        assert a[..][x] != old(a[..])[x];
      }
    }

    /** One pass of the loop of th1520GC, for map entry i: reset an OUTPUT pin to INPUT through
        pinMode, unexport the line irq[i] of an INTERRUPT pin if it is exported (`unexportOk`
        says whether the unexport succeeds), and close a positive fd. An entry outside the
        table (the -1 sentinel) is undefined behaviour. */
    method ReleaseEntry(m: seq<int>, i: nat, unexportOk: bool) returns (r: Outcome)
      requires Valid() && pinMap == Some(m) && i < |m|
      modifies this`pins, this`exported, Windows()
      ensures Valid()
      ensures r.Returns? ==> r.code == 0
      ensures !(0 <= m[i] < |layout|) ==> r == Undefined(IndexOutsideTable)
      ensures old(SafeEntry(m, i)) ==> r == Returns(0)
      ensures r == Returns(0) ==> ReleasedAt(m, i)
      ensures old(ReleasedAt(m, i)) ==> r == Returns(0) && pins == old(pins) && OnlyWritten(Windows(), {})
      ensures EntryStep(m, i, unexportOk)
    {
      if m[i] < 0 || m[i] >= |layout| {
        return Undefined(IndexOutsideTable);
      }
      var k := m[i];
      if pins[k].mode == Output {
        var pr := ResetToInput(m, i);
        if pr.Undefined? {
          return pr;
        }
      } else if pins[k].mode == Interrupt {
        if irqMap.None? {
          return Undefined(NullMap);
        }
        if i >= |irqMap.value| {
          return Undefined(IndexOutsideTable);
        }
        var line := irqMap.value[i];
        if line in exported && unexportOk {
          exported := exported - {line};
        }
      }
      if pins[k].fd > 0 {
        pins := pins[k := pins[k].(fd := 0)];
      }
      return Returns(0);
    }

    /** The windows of `s` still hold the contents recorded in `s`. */
    ghost predicate Unwritten(s: Snapshot)
      reads s.contents.Keys
    {
      forall a | a in s.contents :: a[..] == s.contents[a]
    }

    /** One pass of the loop of th1520GC, seen from the loop: ReleaseEntry for map entry i,
        carrying what the passes before it established (from the snapshot `s` taken before
        the loop) one entry further. `safe` says every entry was SafeEntry before the loop,
        `released` that every entry was already released. */
    method ReleasePass(m: seq<int>, ok: seq<bool>, i: nat, ghost s: Snapshot, ghost safe: bool, ghost released: bool)
      returns (r: Outcome)
      requires Valid() && pinMap == Some(m) && i < |m| == |ok|
      requires s.contents.Keys == Windows() && s.gpio == gpio && s.pads == pads
      requires forall j | 0 <= j < i :: ReleasedAt(m, j)
      requires safe ==> forall j | i <= j < |m| :: SafeEntry(m, j)
      requires released ==> EntriesReleased() && pins == s.pins && Unwritten(s)
      requires ChangedSince(s, m, ok, i) && UnexportedUpTo(m, ok, i)
      modifies this`pins, this`exported, Windows()
      ensures Valid()
      ensures r.Returns? ==> r.code == 0 && forall j | 0 <= j < i + 1 :: ReleasedAt(m, j)
      ensures safe ==> r == Returns(0) && forall j | i + 1 <= j < |m| :: SafeEntry(m, j)
      ensures released ==> r == Returns(0) && EntriesReleased() && pins == s.pins && Unwritten(s)
      ensures ChangedSince(s, m, ok, i + 1) && UnexportedUpTo(m, ok, i + 1)
    {
      r := ReleaseEntry(m, i, ok[i]);
      forall j | 0 <= j < |m| && old(ReleasedAt(m, j))
        ensures ReleasedAt(m, j)
      {
      }
      if safe {
        forall j | 0 <= j < |m| && old(SafeEntry(m, j))
          ensures SafeEntry(m, j)
        {
        }
      }
      assert m[..i + 1] == m[..i] + [m[i]];
      forall j, line | 0 <= j < i + 1 && j < |ok| && ok[j] && Unexports(m, j, line)
        ensures line !in exported
      {
        if j < i {
          assert old(Unexports(m, j, line));
        }
      }
      forall line | line in s.exported && line !in exported
        ensures exists j | 0 <= j < i + 1 && j < |ok| && ok[j] :: Unexports(m, j, line)
      {
        if line in old(exported) {
          assert ok[i] && Unexports(m, i, line);
        } else {
          var j :| 0 <= j < i && j < |ok| && ok[j] && old(Unexports(m, j, line));
          assert Unexports(m, j, line);
        }
      }
      forall a, x | a in s.contents && 0 <= x < a.Length && x < |s.contents[a]| && a[x] != s.contents[a][x]
        ensures exists j | 0 <= j < i + 1 :: ResetWord(s.pins, s.gpio, s.pads, m[j], a, x)
      {
        if a[x] != old(a[x]) {
          assert ResetWord(s.pins, s.gpio, s.pads, m[i], a, x);
        }
      }
      if released {
        forall a | a in s.contents
          ensures a[..] == s.contents[a]
        {
          assert a[..] == old(a[..]);
        }
      }
    }

    /** The loop of th1520GC over the pin map: ReleaseEntry for every entry in order, stopping
        at the first undefined behaviour. `unexportOk[j]` says whether the unexport of entry j
        succeeds. */
    method ReleaseEntries(unexportOk: seq<bool>) returns (r: Outcome)
      requires Valid()
      requires pinMap.Some? ==> |unexportOk| == |pinMap.value|
      modifies this`pins, this`exported, Windows()
      ensures Valid()
      ensures r.Returns? ==> r.code == 0
      ensures r == Returns(0) ==> EntriesReleased()
      ensures pinMap.None? ==> r == Returns(0) && pins == old(pins) && exported == old(exported) &&
                               OnlyWritten(Windows(), {})
      ensures pinMap.Some? && (forall j | 0 <= j < |pinMap.value| :: old(SafeEntry(pinMap.value, j))) ==>
                r == Returns(0)
      ensures old(EntriesReleased()) ==> r == Returns(0) && pins == old(pins) && OnlyWritten(Windows(), {})
      ensures pinMap.Some? && (exists j | 0 <= j < |pinMap.value| :: !(0 <= pinMap.value[j] < |layout|)) ==>
                r.Undefined?
      ensures pinMap.Some? ==> ChangedSince(old(Snap()), pinMap.value, unexportOk, |pinMap.value|)
      ensures pinMap.Some? ==> UnexportedUpTo(pinMap.value, unexportOk, |pinMap.value|) || r.Undefined?
    {
      if pinMap.None? {
        return Returns(0);
      }
      var m := pinMap.value;
      ghost var s := Snap();
      ghost var safe := forall j | 0 <= j < |m| :: SafeEntry(m, j);
      ghost var released := EntriesReleased();
      ChangedSinceStart(m, unexportOk);
      var i := 0;
      while i < |m|
        invariant 0 <= i <= |m|
        invariant Valid()
        invariant forall j | 0 <= j < i :: ReleasedAt(m, j)
        invariant safe ==> forall j | i <= j < |m| :: SafeEntry(m, j)
        invariant released ==> EntriesReleased() && pins == s.pins && Unwritten(s)
        invariant ChangedSince(s, m, unexportOk, i) && UnexportedUpTo(m, unexportOk, i)
      {
        r := ReleasePass(m, unexportOk, i, s, safe, released);
        if r.Undefined? {
          ChangedSinceWiden(s, m, unexportOk, i + 1, |m|);
          return;
        }
        i := i + 1;
      }
      forall j | 0 <= j < |m|
        ensures 0 <= m[j] < |layout|
      {
        assert ReleasedAt(m, j);
      }
      if released {
        forall a | a in old(Windows())
          ensures a[..] == old(a[..])
        {
          assert a in s.contents;
        }
      }
      return Returns(0);
    }

    /** th1520GC: release the map entries, then unmap the GPIO windows (the unmap loop is
        written twice). The pad windows stay mapped and the /dev/mem descriptor stays open.
        `unexportOk[j]` says whether the unexport of map entry j succeeds. */
    method GC(unexportOk: seq<bool>) returns (r: Outcome)
      requires Valid()
      requires pinMap.Some? ==> |unexportOk| == |pinMap.value|
      modifies this`pins, this`exported, this`gpio, Windows()
      ensures Valid() && pads == old(pads)
      ensures r.Returns? ==> r.code == 0
      ensures r == Returns(0) ==> Released()
      ensures pinMap.None? ==> r == Returns(0) && pins == old(pins) && exported == old(exported) &&
                               OnlyWritten(old(Windows()), {})
      ensures pinMap.Some? && (forall j | 0 <= j < |pinMap.value| :: old(SafeEntry(pinMap.value, j))) ==>
                r == Returns(0)
      ensures old(Released()) ==>
                r == Returns(0) && pins == old(pins) && gpio == old(gpio) && OnlyWritten(old(Windows()), {})
      ensures pinMap.Some? && (exists j | 0 <= j < |pinMap.value| :: !(0 <= pinMap.value[j] < |layout|)) ==>
                r.Undefined?
      ensures pinMap.Some? ==> ChangedSince(old(Snap()), pinMap.value, unexportOk, |pinMap.value|)
      ensures pinMap.Some? && r == Returns(0) ==> UnexportedUpTo(pinMap.value, unexportOk, |pinMap.value|)
    {
      r := ReleaseEntries(unexportOk);
      if r.Undefined? {
        return;
      }
      label BeforeUnmap:
      UnmapGpio();
      UnmapGpio();
      assert old@BeforeUnmap(EntriesReleased());
      if pinMap.Some? {
        forall j | 0 <= j < |pinMap.value|
          ensures ReleasedAt(pinMap.value, j)
        {
          assert old@BeforeUnmap(ReleasedAt(pinMap.value, j));
        }
      }
    }
  }
}
