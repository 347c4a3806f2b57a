/** Types and register primitives shared by the SoC drivers and the boards:
    the pin modes, the per-descriptor runtime state, the outcome of an
    operation (including the undefined behaviour the C code can reach),
    32-bit register bit operations, and the board-side validGPIO check. */
module Soc {

  datatype Option<T> = None | Some(value: T)

  /** enum pinmode_t */
  datatype PinMode = NotSet | Input | Output | Interrupt

  /** The mutable part of a layout entry: its recorded mode and its sysfs value descriptor. */
  datatype PinState = PinState(mode: PinMode, fd: int)

  /** What the C code does when it dereferences memory it does not own. */
  datatype Hazard =
    | NullWindow         // a register access through a window pointer that is NULL
    | OutsideWindow      // a register access past the end of the mapped window
    | IndexOutsideTable  // layout[k] or irq[i] read with k or i outside the array
    | NullMap            // irq[i] read while no interrupt map is installed

  /** An operation either returns an int, as the C function does, or reaches undefined behaviour. */
  datatype Outcome = Returns(code: int) | Undefined(hazard: Hazard)

  /** enum digital_value_t */
  const LOW: int := 0
  const HIGH: int := 1

  /** Both SoCs have four GPIO register groups. */
  const GroupCount: nat := 4

  const GPIO_SWPORTA_DR: nat := 0x0000   // output data register
  const GPIO_SWPORTA_DDR: nat := 0x0004  // direction register
  const GPIO_EXT_PORTA: nat := 0x0050    // input data register

  /** A bit position inside a 32-bit register word (`unsigned long bit` in the layout tables). */
  type BitIndex = b: bv32 | b < 32

  /** A register window: the words of one mapping of /dev/mem, or NULL. */
  type Window = array?<bv32>

  // ---------------------------------------------------------------------------
  // Bit operations on 32-bit register words

  predicate IsSet(w: bv32, b: BitIndex)
  {
    (w >> b) & 1 == 1
  }

  /** `*reg |= (1 << bit)` */
  function SetBit(w: bv32, b: BitIndex): (r: bv32)
    ensures IsSet(r, b)
    ensures forall k: BitIndex | k != b :: IsSet(r, k) == IsSet(w, k)
  {
    SingleBitUpdate(w, b);
    w | (1 << b)
  }

  /** `*reg &= ~(1 << bit)` */
  function ClearBit(w: bv32, b: BitIndex): (r: bv32)
    ensures !IsSet(r, b)
    ensures forall k: BitIndex | k != b :: IsSet(r, k) == IsSet(w, k)
  {
    SingleBitUpdate(w, b);
    w & !(1 << b)
  }

  lemma SingleBitUpdateAt(w: bv32, b: BitIndex, k: BitIndex)
    requires k != b
    ensures IsSet(w | (1 << b), k) == IsSet(w, k)
    ensures IsSet(w & !(1 << b), k) == IsSet(w, k)
  {
  }

  /** Setting or clearing bit `b` of a word leaves every other bit as it was. */
  lemma SingleBitUpdate(w: bv32, b: BitIndex)
    ensures forall k: BitIndex | k != b :: IsSet(w | (1 << b), k) == IsSet(w, k)
    ensures forall k: BitIndex | k != b :: IsSet(w & !(1 << b), k) == IsSet(w, k)
  {
    forall k: BitIndex | k != b
      ensures IsSet(w | (1 << b), k) == IsSet(w, k)
      ensures IsSet(w & !(1 << b), k) == IsSet(w, k)
    {
      SingleBitUpdateAt(w, b, k);
    }
  }

  /** `(val & (1 << bit)) >> bit`, as an int */
  function ReadBit(w: bv32, b: BitIndex): (r: int)
    ensures r == 0 || r == 1
    ensures r == 1 <==> IsSet(w, b)
  {
    ((w & (1 << b)) >> b) as int
  }

  /** Four-bit field values and the bit positions where such a field fits in a word. */
  type Nibble = v: bv32 | v < 16
  type FieldBit = b: bv32 | b <= 28

  /** `(*reg & ~(0xf << bit)) | (value << bit)`: the four bits from `b` up hold `v` afterwards. */
  function ReplaceNibble(w: bv32, b: FieldBit, v: Nibble): (r: bv32)
    ensures (r >> b) & 0xf == v
  {
    (w & !(0xf << b)) | (v << b)
  }

  lemma ReplaceNibbleKeepsBit(w: bv32, b: FieldBit, v: Nibble, k: BitIndex)
    requires k < b || b + 4 <= k
    ensures IsSet(ReplaceNibble(w, b, v), k) == IsSet(w, k)
  {
  }

  /** Rewriting a pad field leaves every bit outside the field as it was. */
  lemma ReplaceNibbleKeepsOtherBits(w: bv32, b: FieldBit, v: Nibble)
    ensures forall k: BitIndex | k < b || b + 4 <= k :: IsSet(ReplaceNibble(w, b, v), k) == IsSet(w, k)
  {
    forall k: BitIndex | k < b || b + 4 <= k
      ensures IsSet(ReplaceNibble(w, b, v), k) == IsSet(w, k)
    {
      ReplaceNibbleKeepsBit(w, b, v, k);
    }
  }

  // ---------------------------------------------------------------------------
  // Board maps

  /** The sentinel a board map holds for a connector pin with no GPIO behind it. */
  const Sentinel: int := -1

  /** validGPIO of a board: 0 for a pin inside the map whose entry is not the sentinel, -1 otherwise. */
  function ValidGPIO(boardMap: seq<int>, pin: int): (r: int)
    ensures r == 0 || r == -1
    ensures r == 0 <==> 0 <= pin < |boardMap| && boardMap[pin] != Sentinel
  {
    if 0 <= pin < |boardMap| then
      if boardMap[pin] == Sentinel then -1 else 0
    else -1
  }

  /** A pin map (or interrupt map) is safe for a layout table of `size` entries when
      every pin the board calls valid indexes it and selects an entry of the table:
      the lookup reads `mapping[i]` and `layout[mapping[i]]` without a bounds check. */
  ghost predicate MapSafe(boardMap: seq<int>, mapping: seq<int>, size: nat)
  {
    forall i | 0 <= i < |boardMap| && boardMap[i] != Sentinel ::
      i < |mapping| && 0 <= mapping[i] < size
  }

  // ---------------------------------------------------------------------------
  // Setup loops

  /** The index of the first mapping that failed, or the number of mappings when all succeeded:
      setup stops at the first failure. */
  function FirstFailure(ok: seq<bool>): (r: nat)
    ensures r <= |ok|
    ensures forall k | 0 <= k < r :: ok[k]
    ensures r < |ok| ==> !ok[r]
  {
    if ok == [] then 0
    else if !ok[0] then 0
    else 1 + FirstFailure(ok[1..])
  }

  // ---------------------------------------------------------------------------
  // Register windows

  /** Nothing but the words of `written` changes among the windows `ws`. */
  twostate predicate OnlyWritten(ws: set<array<bv32>>, written: set<array<bv32>>)
    reads ws
  {
    forall a | a in ws && a !in written :: a[..] == old(a[..])
  }

  /** The windows a successful setup produces from `before`, when the first `n` mappings
      succeed: slots below `n` hold fresh, distinct windows of `words` words, slot `n` (the
      failed mapping, if any) holds NULL, and later slots are as they were. */
  twostate predicate MappedUpTo(before: seq<Window>, new after: seq<Window>, n: nat, words: nat)
  {
    |after| == |before| && n <= |after| &&
    (forall k | 0 <= k < n :: after[k] != null && fresh(after[k]) && after[k].Length == words) &&
    (forall a, b | 0 <= a < b < n :: after[a] != after[b]) &&
    (n < |after| ==> after[n] == null) &&
    (forall k | n < k < |after| :: after[k] == before[k])
  }

  /** The mmap loop of a setup over one array of windows of `words` words; `ok[k]` says whether mapping k succeeds. */
  method MapWindows(before: seq<Window>, ok: seq<bool>, words: nat) returns (after: seq<Window>)
    requires |ok| == |before|
    ensures MappedUpTo(before, after, FirstFailure(ok), words)
  {
    after := before;
    var i := 0;
    while i < |ok|
      invariant 0 <= i <= FirstFailure(ok)
      invariant |after| == |before|
      invariant forall k | 0 <= k < i :: after[k] != null && fresh(after[k]) && after[k].Length == words
      invariant forall a, b | 0 <= a < b < i :: after[a] != after[b]
      invariant forall k | i <= k < |after| :: after[k] == before[k]
    {
      if !ok[i] {
        after := after[i := null];
        return;
      }
      var w := new bv32[words];
      after := after[i := w];
      i := i + 1;
    }
  }

  /** One store `*reg = v` into word `x` of window `w`. */
  method WriteWord(w: array<bv32>, x: nat, v: bv32)
    requires x < w.Length
    modifies w
    ensures w[..] == old(w[..])[x := v]
  {
    w[x] := v;
  }
}
