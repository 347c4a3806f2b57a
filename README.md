# wiringX GPIO drivers for the TH1520 and CV180, and the Milk-V Duo and Meles boards

This project models the GPIO core of wiringX for two SoCs and the two boards built on them:

- the T-Head TH1520 driver (`src/soc/thead/th1520.c`);
- the Sophgo CV180 driver (`src/soc/sophgo/cv180.c`);
- the Milk-V Meles board map (`src/platform/milkv/meles.c`), which sits on the TH1520;
- the Milk-V Duo board map (`src/platform/milkv/duo.c`), which sits on the CV180.

Each driver is a Dafny class (`Th1520.Driver`, `Cv180.Driver`). Its state is:

- the layout table it points at (the literal per-chip table of pin descriptors, `Th1520.Table` and `Cv180.Table`);
- the `mode`/`fd` pair of every descriptor (`pins`);
- the `/dev/mem` descriptor (`fd`);
- four GPIO register windows;
- four pad windows (TH1520) or one pinmux window (CV180);
- the pin map and interrupt map installed by the board (`pinMap`, `irqMap`);
- the set of kernel GPIO lines exported under `/sys/class/gpio` (`exported`).

A register window is a nullable array of 32-bit words (`array?<bv32>`), indexed by the byte offset divided by 4.

Every register operation follows the same steps. It validates the logical pin through the board's validGPIO and looks up the descriptor. It checks the bank and the recorded mode. Then it does a bit-exact read-modify-write on one word. The contract of every method says which word changes, to what, and that no other word of any mapped window changes (`OnlyWritten`).

Wherever the C code dereferences memory it does not own, the model returns an explicit `Undefined(hazard)` outcome instead of a value:

- a store through a window that is still NULL;
- a store past the end of a window;
- `layout[map[i]]` read with the `-1` sentinel;
- `irq[i]` read while no interrupt map is installed.

The lookup indexes `mapping[i]` and `layout[mapping[i]]` without bounds checks. The model keeps that, and requires of every installed map that it is safe for the board (`Soc.MapSafe`). The board lemmas prove that the Duo and Meles maps meet this requirement.

Modules: `Soc` holds the shared types, the 32-bit bit operations, validGPIO, the map-safety predicate and the window helpers. `Th1520` and `Cv180` hold the drivers. `Duo` and `Meles` hold the boards.

## Model

| member | source | states |
|---|---|---|
| `Soc.SetBit` | src/soc/thead/th1520.c:296 | `*reg \|= 1 << bit` makes bit `bit` 1 and leaves each of the other 31 bits as it was |
| `Soc.ClearBit` | src/soc/thead/th1520.c:298 | `*reg &= ~(1 << bit)` makes bit `bit` 0 and leaves each of the other 31 bits as it was |
| `Soc.ReadBit` | src/soc/thead/th1520.c:323 | `(val & (1 << bit)) >> bit` is always 0 or 1, and is 1 exactly when bit `bit` of the word is set |
| `Soc.ReplaceNibble` | src/soc/thead/th1520.c:336 | after the pad update the four bits from `pad.bit` up hold `pad.value` |
| `Soc.ReplaceNibbleKeepsOtherBits` | src/soc/thead/th1520.c:336 | the pad update leaves every bit outside its four-bit field unchanged |
| `Soc.ValidGPIO` | src/platform/milkv/duo.c:48-57 | a board's validGPIO returns 0 or -1, and returns 0 exactly for a pin inside the map whose entry is not -1 |
| `Soc.FirstFailure` | src/soc/thead/th1520.c:221-232 | the index at which a setup loop stops: every mapping before it succeeded, and the one at it (if any) failed |
| `Soc.MapWindows` | src/soc/thead/th1520.c:221-226 | the mmap loop fills slots before the first failure with fresh, distinct windows of one page, stores NULL at the failed slot and leaves later slots alone |
| `Th1520.TableBanksInRange` | src/soc/thead/th1520.c:82-211 | the table has 130 entries and every entry's bank is in 0..3 |
| `Th1520.TableBanksFollowIndex` | src/soc/thead/th1520.c:82-211 | entries 0..31, 32..62, 64..95 and 96..118 are banks 0, 1, 2 and 3; entries 63 and 119..129 are GPIO_UNAVAILABLE placeholders |
| `Th1520.PlaceholderAliasesGpio0Output` | src/soc/thead/th1520.c:145 | the placeholder GPIO1_31 is all zero, so its direction bit is bit 0 of the bank 0 output register, the output bit of GPIO0_0 |
| `Th1520.SharedRegisterBits` | src/soc/thead/th1520.c:137-169 | entries 56..62 repeat the direction, output and input bits of 48..54 in bank 1, entry 55 repeats 54, and entry 87 shares the output and input bit of 86 but not its direction bit |
| `Th1520.SharedInputBits` | src/soc/thead/th1520.c:154-155 | GPIO2_8/9 and GPIO3_8/9 read input bits 18/19, the input bits of GPIO2_18/19 and GPIO3_18/19, while their output bits differ |
| `Th1520.OverlappingPadFields` | src/soc/thead/th1520.c:172-173 | GPIO2_27's pad field starts at bit 10 of the word whose bits 8..11 are GPIO2_26's, so configuring both leaves 0xf in GPIO2_26's field |
| `Th1520.RepeatedNames` | src/soc/thead/th1520.c:200-205 | entries 118 and 119 are both named GPIO3_22, and 122 and 123 both GPIO3_25 |
| `Th1520.GetPinName` | src/soc/thead/th1520.c:237-239 | the name of entry `pin`; the caller must keep `pin` inside the table, as the C code does not check |
| `Th1520.GetLayout` | src/soc/thead/th1520.c:251-276 | the lookup succeeds exactly when a map is installed, validGPIO accepts the pin, `fd > 0` and the entry's bank is in 0..3, and then selects entry `mapping[i]` |
| `Th1520.LookupNeedsNoBankCheck` | src/soc/thead/th1520.c:269-273 | with this table the bank test never rejects: the lookup succeeds exactly when a map is installed, the pin is valid and `/dev/mem` is open |
| `Th1520.Driver.constructor` | src/soc/thead/th1520.c:458-464 | before setup nothing is mapped, no map is installed, and every entry is NOT_SET with fd 0 |
| `Th1520.Driver.Setup` | src/soc/thead/th1520.c:214-235 | records the descriptor and returns 0 only if it is non-negative and all four GPIO and all four pad mappings succeed; otherwise it returns -1 after the mappings made so far |
| `Th1520.Driver.SetMap` | src/soc/thead/th1520.c:241-244 | installs the pin map |
| `Th1520.Driver.SetIRQ` | src/soc/thead/th1520.c:246-249 | installs the interrupt map |
| `Th1520.Driver.DigitalWrite` | src/soc/thead/th1520.c:281-304 | -1 and no register change unless the pin is looked up and OUTPUT; HIGH sets and LOW clears exactly bit `out.bit` of the word at `out.offset`; any other value changes nothing and returns 0 |
| `Th1520.Driver.DigitalRead` | src/soc/thead/th1520.c:306-324 | -1 unless the pin is looked up and INPUT; otherwise 0 or 1, 1 exactly when bit `in.bit` of the word at `in.offset` is set |
| `Th1520.Driver.PinMode` | src/soc/thead/th1520.c:326-351 | rewrites the pad field with `pad.value`, then clears (INPUT) or sets (OUTPUT) the direction bit and records the mode; any other mode returns -1 with the mode unchanged but the pad field already rewritten |
| `Th1520.Driver.Isr` | src/soc/thead/th1520.c:353-388 | uses `irq[i]` as the kernel line; a failed export, direction or edge step returns -1 with the entry unchanged; after those, fd takes the value descriptor even when it is -1, and then -1 is returned with the mode unchanged; otherwise the mode becomes INTERRUPT and 0 is returned |
| `Th1520.Driver.WaitForInterrupt` | src/soc/thead/th1520.c:390-403 | -1 for a pin that is not looked up or not INTERRUPT; otherwise what the wait returns |
| `Th1520.Driver.SelectableFd` | src/soc/thead/th1520.c:448-456 | the entry's fd whatever its mode, or -1 if the lookup fails |
| `Th1520.Driver.UnmapGpio` | src/soc/thead/th1520.c:431-436 | the munmap loop leaves all four GPIO windows NULL |
| `Th1520.Driver.ResetToInput` | src/soc/thead/th1520.c:414-415 | gc's pinMode(i, INPUT) on an OUTPUT entry either switches it to INPUT or, when the lookup refuses the pin, changes nothing; with the entry's pad and GPIO windows mapped it returns a value; only the entry's pad word and direction word can change |
| `Th1520.Driver.ReleaseEntry` | src/soc/thead/th1520.c:412-428 | one gc step for entry `map[i]`: a sentinel entry is undefined behaviour; an entry safe to visit (in the table, `irq[i]` present if INTERRUPT, windows mapped if a looked-up OUTPUT) gives 0, and 0 leaves it released (fd closed, OUTPUT only if the lookup refuses it); `irq[i]` leaves the exported set only for an INTERRUPT entry whose unexport succeeds, and does leave it then; only entry `map[i]` and its pad and direction words change; an already released entry keeps its mode, fd and every window word |
| `Th1520.Driver.ReleasePass` | src/soc/thead/th1520.c:412-428 | one pass of the map loop carries forward what the earlier passes established: entries so far released, later entries still safe, and the changes since the loop began limited as in ReleaseEntries |
| `Th1520.Driver.ReleaseEntries` | src/soc/thead/th1520.c:411-429 | the map loop: undefined when some entry is outside the table; 0 when every entry is safe to visit, and 0 leaves every entry released and the irq line of every INTERRUPT entry whose unexport succeeds unexported; exported lines only shrink, and only by those lines; entries the loop does not reach keep mode and fd; a mode only goes from OUTPUT to INPUT and an fd only from positive to 0; in the windows only the pad and direction words of reached OUTPUT entries change |
| `Th1520.Driver.GC` | src/soc/thead/th1520.c:405-446 | a 0 result leaves every GPIO window NULL, every map entry released and every successfully unexported irq line gone; 0 whenever every map entry is safe to visit; with no map it returns 0 and changes no entry, line or window word; after a successful gc a second one changes no mode, fd, window pointer or window word and only retries the unexports that failed; pad windows stay mapped; the frame of ReleaseEntries holds for the whole call |
| `Cv180.TableGroupsInRange` | src/soc/sophgo/cv180.c:65-91 | the table has 25 entries and every entry's group is in 0..3 |
| `Cv180.DirectionMatchesData` | src/soc/sophgo/cv180.c:65-91 | every entry's direction bit is its data bit, in the DDR and DR registers of its group |
| `Cv180.XgpioC10UsesBit22` | src/soc/sophgo/cv180.c:77 | XGPIOC_10 drives bit 22 of group 2, not bit 10 |
| `Cv180.LineNumbersDistinct` | src/soc/sophgo/cv180.c:65-91 | no two entries share a kernel line number |
| `Cv180.PinmuxWord` | src/soc/sophgo/cv180.c:216-217 | the pinmux store lands at word `offset / 4` exactly when that word is inside the window |
| `Cv180.PinmuxOutsideAsWrittenWindow` | src/soc/sophgo/cv180.c:107 | every pinmux offset of the table is 0x101c or more, past the one page mapped from PINMUX_BASE |
| `Cv180.PinmuxInsideCorrectedWindow` | src/soc/sophgo/cv180.c:66-90 | every pinmux offset of the table is at most 0x10f4, inside two pages from PINMUX_BASE |
| `Cv180.GetPinName` | src/soc/sophgo/cv180.c:115-117 | the name of entry `pin`; the caller must keep `pin` inside the table, as the C code does not check |
| `Cv180.GetLayout` | src/soc/sophgo/cv180.c:129-154 | the lookup succeeds exactly when a map is installed, validGPIO accepts the pin, `fd > 0` and the entry's group is in 0..3, and then selects entry `mapping[i]` |
| `Cv180.LookupNeedsNoGroupCheck` | src/soc/sophgo/cv180.c:147-151 | with this table the group test never rejects |
| `Cv180.Driver.constructor` | src/soc/sophgo/cv180.c:336-343 | before setup nothing is mapped, no map is installed, and every entry is NOT_SET with fd 0 |
| `Cv180.Driver.Setup` | src/soc/sophgo/cv180.c:93-113 | returns 0 only if the descriptor is non-negative and all four GPIO mappings and the pinmux mapping succeed; otherwise -1 after the mappings made so far |
| `Cv180.Driver.SetMap` | src/soc/sophgo/cv180.c:119-122 | installs the pin map |
| `Cv180.Driver.SetIRQ` | src/soc/sophgo/cv180.c:124-127 | installs the interrupt map |
| `Cv180.Driver.DigitalWrite` | src/soc/sophgo/cv180.c:159-184 | -1 and no register change unless the pin is looked up and OUTPUT; HIGH sets and LOW clears exactly bit `data.bit` of the word at `data.offset + GPIO_SWPORTA_DR`; any other value returns -1 and changes nothing |
| `Cv180.Driver.DigitalRead` | src/soc/sophgo/cv180.c:186-204 | -1 unless the pin is looked up and INPUT; otherwise 0 or 1, 1 exactly when bit `data.bit` of the word at `data.offset + GPIO_EXT_PORTA` is set |
| `Cv180.Driver.PinMode` | src/soc/sophgo/cv180.c:206-232 | overwrites the whole pinmux word with `pinmux.value` (undefined past the window), then clears or sets the direction bit and records the mode; any other mode returns -1 after the pinmux write |
| `Cv180.Driver.Isr` | src/soc/sophgo/cv180.c:234-269 | uses the entry's `num` as the kernel line; a failed export, direction or edge step returns -1 with the entry unchanged; after those, fd takes the value descriptor even when it is -1, and then -1 is returned with the mode unchanged; otherwise the mode becomes INTERRUPT and 0 is returned |
| `Cv180.Driver.WaitForInterrupt` | src/soc/sophgo/cv180.c:271-284 | -1 for a pin that is not looked up or not INTERRUPT; otherwise what the wait returns |
| `Cv180.Driver.SelectableFd` | src/soc/sophgo/cv180.c:326-334 | the entry's fd with no mode check, or -1 if the lookup fails |
| `Cv180.Driver.UnmapWindows` | src/soc/sophgo/cv180.c:312-321 | leaves the pinmux window and all four GPIO windows NULL |
| `Cv180.Driver.ResetToInput` | src/soc/sophgo/cv180.c:295-296 | gc's pinMode(i, INPUT) on an OUTPUT entry either switches it to INPUT or, when the lookup refuses the pin, changes nothing; with the pinmux word inside the pinmux window and the GPIO window mapped it returns a value; only the entry's pinmux word and direction word can change |
| `Cv180.Driver.ReleaseEntry` | src/soc/sophgo/cv180.c:293-309 | one gc step for entry `map[i]`: a sentinel entry is undefined behaviour; an entry safe to visit (in the table, and for a looked-up OUTPUT entry its pinmux word inside the window and its GPIO window mapped) gives 0, and 0 leaves it released (fd closed, OUTPUT only if the lookup refuses it); line `num` leaves the exported set only for an INTERRUPT entry whose unexport succeeds, and does leave it then; only entry `map[i]` and its pinmux and direction words change; an already released entry keeps its mode, fd and every window word |
| `Cv180.Driver.ReleasePass` | src/soc/sophgo/cv180.c:293-309 | one pass of the map loop carries forward what the earlier passes established: entries so far released, later entries still safe, and the changes since the loop began limited as in ReleaseEntries |
| `Cv180.Driver.ReleaseEntries` | src/soc/sophgo/cv180.c:292-310 | the map loop: undefined when some entry is outside the table; 0 when every entry is safe to visit, and 0 leaves every entry released and the line `num` of every INTERRUPT entry whose unexport succeeds unexported; exported lines only shrink, and only by those lines; entries the loop does not reach keep mode and fd; a mode only goes from OUTPUT to INPUT and an fd only from positive to 0; in the windows only the pinmux and direction words of reached OUTPUT entries change |
| `Cv180.Driver.GC` | src/soc/sophgo/cv180.c:286-324 | from any valid state, including a setup that stopped early, a 0 result leaves every window NULL, every map entry released and every successfully unexported line gone; 0 whenever every map entry is safe to visit; with no map it returns 0 and changes no entry, line or window word; after a successful gc a second one changes no mode, fd, window or window word and only retries the unexports that failed; the frame of ReleaseEntries holds for the whole call |
| `Cv180.PinModeOnAsWrittenWindow` | src/soc/sophgo/cv180.c:216-217 | with the one-page pinmux mapping, pinMode on any looked-up pin stores past the end of the window |
| `Cv180.PinModeOnCorrectedWindow` | src/soc/sophgo/cv180.c:216-229 | with a two-page pinmux mapping pinMode never leaves the window, and INPUT or OUTPUT on a mapped group returns 0 |
| `Duo.ValidPin` | src/platform/milkv/duo.c:48-57 | duoValidGPIO returns 0 exactly for pins 0..31 other than 0, 3, 8, 13, 18, 23, 28 and 30, and -1 otherwise |
| `Duo.SentinelPins` | src/platform/milkv/duo.c:27-44 | the map has 32 entries and its -1 entries are exactly pins 0, 3, 8, 13, 18, 23, 28 and 30 |
| `Duo.Pin1IsXgpioA28` | src/platform/milkv/duo.c:29 | pin 1 is valid and selects entry 0, XGPIOA_28 |
| `Duo.EntriesInTable` | src/platform/milkv/duo.c:27-44 | every non-sentinel entry is in 0..23, so the map is safe for the 25-entry CV180 table |
| `Duo.EntriesDistinct` | src/platform/milkv/duo.c:27-44 | no two pins select the same layout entry |
| `Duo.Setup` | src/platform/milkv/duo.c:59-64 | ignores the SoC setup result, installs the 32-entry map as pin map and interrupt map, and returns 0; the GPIO and pinmux windows are what the CV180 setup leaves: nothing mapped when the descriptor is negative, otherwise fresh GPIO windows up to the first failed mapping, and the pinmux window mapped (or NULL) only when all four GPIO mappings succeeded |
| `Duo.SetupThenPinModeOnPin1` | src/soc/sophgo/cv180.c:107 | after a board setup in which `/dev/mem` opens and every mapping succeeds, pinMode on connector pin 1 stores past the end of the one-page pinmux window |
| `Duo.SentinelReached` | src/platform/milkv/duo.c:29 | the map holds an entry outside any layout table |
| `Duo.GCAfterSetup` | src/soc/sophgo/cv180.c:293-294 | gc with the Duo map installed reads `layout[-1]` |
| `Meles.ValidPin` | src/platform/milkv/meles.c:48-57 | melesValidGPIO returns 0 exactly for pins 0..31 other than 1, 11, 17, 18, 19, 20, 24, 28 and 29, and -1 otherwise |
| `Meles.SentinelPins` | src/platform/milkv/meles.c:27-44 | the map has 32 entries and its -1 entries are exactly pins 1, 11, 17, 18, 19, 20, 24, 28 and 29 |
| `Meles.EntriesInTable` | src/platform/milkv/meles.c:27-44 | every non-sentinel entry is in 8..98, so the map is safe for the 130-entry TH1520 table |
| `Meles.EntriesDistinct` | src/platform/milkv/meles.c:27-44 | no two pins select the same layout entry |
| `Meles.Pin15IsPlaceholder` | src/platform/milkv/meles.c:35 | pin 15 selects entry 63, the GPIO1_31 placeholder, and the lookup accepts it once `/dev/mem` is open |
| `Meles.NamesFollowIndices` | src/platform/milkv/meles.c:28-29 | pins 2 and 3 select entries 88 and 87, which the table names GPIO2_24 and GPIO2_23, one below the board file's comments |
| `Meles.MoreNamesFollowIndices` | src/platform/milkv/meles.c:30-39 | pins 4 and 21 select GPIO2_21 and GPIO2_22 |
| `Meles.Pins3And21ShareOutputBit` | src/soc/thead/th1520.c:168-169 | pins 3 and 21 drive the same bank 2 output bit but different direction bits |
| `Meles.Setup` | src/platform/milkv/meles.c:59-64 | ignores the SoC setup result, installs the map as pin map and interrupt map, and returns 0; every valid pin's interrupt line is then a layout index; the GPIO and pad windows are what the TH1520 setup leaves: nothing mapped when the descriptor is negative, otherwise fresh GPIO windows up to the first failed mapping, and pad windows up to theirs only when all four GPIO mappings succeeded |
| `Meles.SentinelReached` | src/platform/milkv/meles.c:29 | the map holds an entry outside any layout table |
| `Meles.GCAfterSetup` | src/soc/thead/th1520.c:412-413 | gc with the Meles map installed reads `layout[-1]` |

## Left out

- The sysfs helpers (`soc_sysfs_check_gpio`, export, unexport, direction, edge, value reset, `soc_wait_for_interrupt`) are not part of this model. Each is an abstract step:
  - the exported lines form a set;
  - export, direction and edge take a success flag;
  - gc's unexport takes a success flag per map entry (`unexportOk[j]`);
  - the value step takes the descriptor it returns;
  - the wait takes its result.
- The ISR `mode` argument and the wait's `ms` argument only reach those helpers, so they are absorbed into the abstract steps.
- `open`, `mmap`, `munmap` and `close` on `/dev/mem` and on sysfs files are parameters or field updates. Setup takes the descriptor and whether each mapping succeeds, keeping the code's `== NULL` failure test. Closing a file is `fd := 0`.
- The physical base addresses and the `sprintf` path formatting are not modelled; only the choice of line number is kept.
- `wiringXLog` diagnostics are not modelled.
- Registration and wiring are not modelled: `th1520Init`, `cv180Init`, `milkv_duoInit`, `melesInit`, and the early `setMap` call in the board init functions. The board setups install the map themselves.
- The `pinMode` wrapper of `wiringx.c` that gc calls is not part of this model. gc calls the driver's own `PinMode`, which is what a board that registers that driver reaches.
- The `CLEAR_BITS`/`GET_BITS` macros, the unused locals, the `support` field of the layout entries and the headers `cv180.h` and `duo.h` are not modelled.
- Volatile access and atomicity of the read-modify-write sequences are not modelled.
- Shifts are modelled on 32-bit words. `1 << 31` on a C `int` is taken to give bit 31, as the hardware code expects.
- `0xf << pad.bit` in th1520PinMode (src/soc/thead/th1520.c:336) shifts a C `int`. For the 13 table entries whose pad bit is 28 the result 0xf0000000 does not fit an `int`, which C leaves undefined. The model takes the 32-bit result, as the hardware code expects. `pad.value << pad.bit` shifts an `unsigned long` and does not overflow.
- `map_size` and `irq_size` are the lengths of the installed sequences.
- Duo.GCAfterSetup: states only that gc reaches undefined behaviour, not which read does it.
- Meles.GCAfterSetup: states only that gc reaches undefined behaviour, not which read does it.
- Meles.NamesFollowIndices: shows the name shift for pins 2 and 3 only (the others are covered by Meles.MoreNamesFollowIndices for pins 4 and 21).

## Findings

| source | as written | input that shows it | evidently intended | confidence | as-written member | corrected member |
|---|---|---|---|---|---|---|
| src/soc/sophgo/cv180.c:107 | the pinmux window is one page (`page_size` = 4 KiB, line 342) from PINMUX_BASE, but every pinmux offset in the table is between 0x101c and 0x10f4 | Duo pin 1 (XGPIOA_28, pinmux offset 0x104c) after a successful setup, then pinMode(1, OUTPUT): the store goes to byte 0x104c of a 0x1000-byte mapping | the pinmux mapping reaches every offset in the table, e.g. two pages from PINMUX_BASE | medium, not executed | `Cv180.PinModeOnAsWrittenWindow` | `Cv180.PinModeOnCorrectedWindow` |
