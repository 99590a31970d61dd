/**
 * The layer indicator of the qwertyDvorak keymap: on every matrix scan the
 * board LED is switched off and the three right-hand LEDs show the low three
 * bits of the number of the highest active layer.
 */
module StatusLeds {
  import Keymap

  /** The type of the firmware's `layer_state` bitmask. */
  newtype uint32 = x: int | 0 <= x < 0x1_0000_0000

  function Pow2(n: nat): (p: nat)
    ensures p >= 1
  {
    if n == 0 then 1 else 2 * Pow2(n - 1)
  }

  lemma {:induction false} Pow2Grows(m: nat, n: nat)
    requires m < n
    ensures Pow2(m) < Pow2(n)
    decreases n
  {
    if m < n - 1 {
      Pow2Grows(m, n - 1);
    }
  }

  lemma Pow2Of32()
    ensures Pow2(32) == 0x1_0000_0000
  {
    assert Pow2(8) == 0x100;
    assert Pow2(16) == 0x1_0000;
    assert Pow2(24) == 0x100_0000;
  }

  /** The index of the highest set bit of `x`, 0 for 0 and 1. */
  function HighestBit(x: nat): nat
  {
    if x <= 1 then 0 else 1 + HighestBit(x / 2)
  }

  lemma {:induction false} HighestBitBrackets(x: nat)
    requires x > 0
    ensures Pow2(HighestBit(x)) <= x < Pow2(HighestBit(x) + 1)
  {
    if x > 1 {
      HighestBitBrackets(x / 2);
    }
  }

  /**
   * `biton32(bits)` of the QMK core: the index of the highest set bit, and 0
   * when no bit is set. The core's own shift-and-add body is not part of
   * this model; this function is its contract.
   */
  function BitOn32(bits: uint32): (n: nat)
    ensures n < 32
    ensures bits == 0 ==> n == 0
    ensures bits > 0 ==> Pow2(n) <= bits as int < Pow2(n + 1)
  {
    HighestBitOf32(bits);
    HighestBit(bits as nat)
  }

  lemma HighestBitOf32(bits: uint32)
    ensures HighestBit(bits as nat) < 32
    ensures bits > 0 ==> Pow2(HighestBit(bits as nat)) <= bits as int < Pow2(HighestBit(bits as nat) + 1)
  {
    var n := HighestBit(bits as nat);
    if bits > 0 {
      HighestBitBrackets(bits as nat);
      Pow2Of32();
      if n > 32 {
        Pow2Grows(32, n);
      }
    }
  }

  /** The contract pins the result down: only one bit index brackets `bits`. */
  lemma BitOn32Unique(bits: uint32, n: nat)
    requires Pow2(n) <= bits as int < Pow2(n + 1)
    ensures BitOn32(bits) == n
  {
    var m := BitOn32(bits);
    if m < n {
      Pow2Grows(m + 1, n + 1);
      if m + 1 < n {
        Pow2Grows(m + 1, n);
      }
    } else if n < m {
      if n + 1 < m {
        Pow2Grows(n + 1, m);
      }
    }
  }

  /** Bit `k` of `x`, as `x & (1 << k)` tests it. */
  predicate BitSet(x: nat, k: nat)
  {
    (x / Pow2(k)) % 2 == 1
  }

  /** The four LEDs of the board: the board LED and right LEDs 1 to 3. */
  datatype LedState = LedState(board: bool, right1: bool, right2: bool, right3: bool)

  /** What the LEDs show for highest layer `layer`. */
  function Indicator(layer: nat): (s: LedState)
    ensures !s.board
    ensures s.right1 <==> layer % 2 == 1
    ensures s.right2 <==> (layer / 2) % 2 == 1
    ensures s.right3 <==> (layer / 4) % 2 == 1
  {
    LedState(false, BitSet(layer, 0), BitSet(layer, 1), BitSet(layer, 2))
  }

  /** Reading the right LEDs as a binary number, LED 1 lowest. */
  function LedValue(s: LedState): (v: nat)
    ensures v < 8
  {
    (if s.right1 then 1 else 0) + (if s.right2 then 2 else 0) + (if s.right3 then 4 else 0)
  }

  /** Halving an `8 * q + r` splits off the low bit of `r`. */
  lemma HalveByEight(layer: nat, q: nat, r: nat)
    requires r < 8 && layer == 8 * q + r
    ensures layer % 2 == r % 2
    ensures layer / 2 == 4 * q + r / 2
  {
  }

  lemma QuarterByEight(layer: nat, q: nat, r: nat)
    requires r < 8 && layer == 8 * q + r
    ensures layer / 4 == 2 * q + r / 4
  {
  }

  /** The LEDs give back the layer number modulo 8. */
  lemma IndicatorShowsLayer(layer: nat)
    ensures LedValue(Indicator(layer)) == layer % 8
  {
    var q, r := layer / 8, layer % 8;
    HalveByEight(layer, q, r);
    QuarterByEight(layer, q, r);
    assert (4 * q + r / 2) % 2 == (r / 2) % 2;
    assert (2 * q + r / 4) % 2 == (r / 4) % 2;
    LowThreeBits(r);
  }

  /** A number below 8 is the sum of its three bits. */
  lemma LowThreeBits(r: nat)
    requires r < 8
    ensures r % 2 + 2 * ((r / 2) % 2) + 4 * ((r / 4) % 2) == r
  {
    if r < 4 {
      assert r / 4 == 0;
    } else {
      assert r / 4 == 1;
    }
  }

  /** Two layers look alike exactly when they agree modulo 8. */
  lemma IndicatorDistinguishes(l1: nat, l2: nat)
    ensures Indicator(l1) == Indicator(l2) <==> l1 % 8 == l2 % 8
  {
    IndicatorShowsLayer(l1);
    IndicatorShowsLayer(l2);
    if l1 % 8 == l2 % 8 {
      var q1, q2, r := l1 / 8, l2 / 8, l1 % 8;
      assert l1 == 8 * q1 + r && l2 == 8 * q2 + r;
      assert l1 / 2 == 4 * q1 + r / 2 && l2 / 2 == 4 * q2 + r / 2;
      assert l1 / 4 == 2 * q1 + r / 4 && l2 / 4 == 2 * q2 + r / 4;
    }
  }

  /**
   * The board state `matrix_scan_user` reads and writes: the global
   * `layer_state` and the four LEDs, each on or off.
   */
  class Board {
    var layerState: uint32
    var boardLed: bool
    var rightLed1: bool
    var rightLed2: bool
    var rightLed3: bool

    constructor (state: uint32)
      ensures layerState == state
      ensures !boardLed && !rightLed1 && !rightLed2 && !rightLed3
    {
      layerState := state;
      boardLed, rightLed1, rightLed2, rightLed3 := false, false, false, false;
    }

    function Leds(): LedState
      reads this
    {
      LedState(boardLed, rightLed1, rightLed2, rightLed3)
    }

    /**
     * `matrix_scan_user`: the LEDs end up showing the highest active layer,
     * whatever they showed before; `layer_state` is only read.
     */
    method MatrixScanUser()
      modifies this`boardLed, this`rightLed1, this`rightLed2, this`rightLed3
      ensures Leds() == Indicator(BitOn32(layerState))
    {
      var layer: bv8 := BitOn32(layerState) as bv8;
      boardLed := false;
      if layer & 1 != 0 {
        rightLed1 := true;
      } else {
        rightLed1 := false;
      }
      if layer & 2 != 0 {
        rightLed2 := true;
      } else {
        rightLed2 := false;
      }
      if layer & 4 != 0 {
        rightLed3 := true;
      } else {
        rightLed3 := false;
      }
      LowBitsOfLayer(BitOn32(layerState));
    }
  }

  /** The three single-bit masks of an 8-bit value against its arithmetic bits. */
  lemma LowBitsOfLayer(n: nat)
    requires n < 32
    ensures (n as bv8) & 1 != 0 <==> n % 2 == 1
    ensures (n as bv8) & 2 != 0 <==> (n / 2) % 2 == 1
    ensures (n as bv8) & 4 != 0 <==> (n / 4) % 2 == 1
  {
  }

  /**
   * Whenever DVORAK (layer 4, bit 0x10) is the highest active layer, LED 3
   * alone is lit.
   */
  lemma DvorakLightsLed3(bits: uint32)
    requires 0x10 <= bits < 0x20
    ensures BitOn32(bits) == Keymap.DVORAK
    ensures Indicator(BitOn32(bits)) == LedState(false, false, false, true)
  {
    BitOn32Unique(bits, 4);
  }

  /** Whenever DFKEYS (layer 5, bit 0x20) is the highest active layer, LEDs 1 and 3 are lit. */
  lemma DFKeysLightsLeds1And3(bits: uint32)
    requires 0x20 <= bits < 0x40
    ensures BitOn32(bits) == Keymap.DFKEYS
    ensures Indicator(BitOn32(bits)) == LedState(false, true, false, true)
  {
    BitOn32Unique(bits, 5);
  }

  /**
   * The LEDs show the highest layer, not the active set: any mask whose
   * highest bit is MCFT's (0x4), such as BASE, FKEYS and MCFT all on (0b111),
   * lights LED 2 alone; BASE alone, or nothing, lights none; and FKEYS as
   * the highest layer lights LED 1 alone.
   */
  lemma IndicatorShowsHighestLayerOnly(bits: uint32)
    ensures 0x4 <= bits < 0x8 ==> Indicator(BitOn32(bits)) == LedState(false, false, true, false)
    ensures bits <= 0x1 ==> Indicator(BitOn32(bits)) == LedState(false, false, false, false)
    ensures 0x2 <= bits < 0x4 ==> Indicator(BitOn32(bits)) == LedState(false, true, false, false)
  {
    if 0x4 <= bits < 0x8 {
      BitOn32Unique(bits, 2);
    } else if bits == 0x1 {
      BitOn32Unique(bits, 0);
    } else if 0x2 <= bits < 0x4 {
      BitOn32Unique(bits, 1);
    }
  }
}
