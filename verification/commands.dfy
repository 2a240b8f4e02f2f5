/** The fixed byte tables the driver sends to the display.

    The driver keeps each instruction or character as eight 0/1 entries,
    most-significant bit first, because the data lines it drives are not
    consecutive GPIO numbers.  This module gives those tables, the
    conversion between such a bit string and the number it denotes, and
    proves that each table is the byte it stands for. */
module Commands {
  import opened Platform

  function Pow2(n: nat): (r: nat)
    ensures r >= 1
  {
    if n == 0 then 1 else 2 * Pow2(n - 1)
  }

  /** The number a bit string denotes, read most-significant bit first. */
  function ValueOf(bits: seq<Bit>): (v: nat)
    ensures v < Pow2(|bits|)
    decreases |bits|
  {
    if bits == [] then 0 else 2 * ValueOf(bits[..|bits| - 1]) + bits[|bits| - 1]
  }

  /** The `n`-bit string, most-significant bit first, that denotes `v`. */
  function BitsOf(v: nat, n: nat): (bits: seq<Bit>)
    requires v < Pow2(n)
    ensures |bits| == n
    ensures ValueOf(bits) == v
    decreases n
  {
    if n == 0 then []
    else
      var high := BitsOf(v / 2, n - 1);
      var bits := high + [v % 2];
      assert bits[..n - 1] == high;
      bits
  }

  /** Bit `i` of `v`, counting from the least significant. */
  function BitAt(v: nat, i: nat): Bit
    decreases i
  {
    if i == 0 then v % 2 else BitAt(v / 2, i - 1)
  }

  /** A bit string is recovered from the number it denotes. */
  lemma {:induction false} BitsOfValueOf(bits: seq<Bit>)
    ensures BitsOf(ValueOf(bits), |bits|) == bits
    decreases |bits|
  {
    if bits != [] {
      var n := |bits|;
      var init := bits[..n - 1];
      BitsOfValueOf(init);
      assert ValueOf(bits) / 2 == ValueOf(init);
      assert ValueOf(bits) % 2 == bits[n - 1];
      assert bits == init + [bits[n - 1]];
    }
  }

  /** Entry `j` of an `n`-bit string is bit `n - 1 - j` of the number. */
  lemma {:induction false} BitsOfAt(v: nat, n: nat, j: nat)
    requires v < Pow2(n) && j < n
    ensures BitsOf(v, n)[j] == BitAt(v, n - 1 - j)
    decreases n
  {
    if j < n - 1 {
      BitsOfAt(v / 2, n - 1, j);
    }
  }

  // The tables of the source, each eight entries, most-significant bit first.
  const Reset: seq<Bit> := [0, 0, 0, 0, 0, 0, 0, 0]
  const Clear: seq<Bit> := [0, 0, 0, 0, 0, 0, 0, 1]
  const Home: seq<Bit> := [0, 0, 0, 0, 0, 0, 1, 0]
  const Entry: seq<Bit> := [0, 0, 0, 0, 0, 1, 1, 0]
  const DisplayOn: seq<Bit> := [0, 0, 0, 0, 1, 1, 1, 1]
  const DisplayOff: seq<Bit> := [0, 0, 0, 0, 1, 0, 0, 0]
  const FunctionSet: seq<Bit> := [0, 0, 1, 0, 0, 0, 0, 0]
  const Startup1: seq<Bit> := [0, 0, 1, 1, 0, 0, 1, 1]
  const Startup2: seq<Bit> := [0, 0, 1, 1, 0, 0, 1, 0]
  /** The table the source calls `a`: the character sent as a smoke test. */
  const A: seq<Bit> := [0, 1, 0, 1, 0, 0, 0, 1]

  /** The weight of each entry of an eight-entry table. */
  lemma ValueOfEight(bits: seq<Bit>)
    requires |bits| == 8
    ensures ValueOf(bits) == 128 * bits[0] as int + 64 * bits[1] as int + 32 * bits[2] as int
                           + 16 * bits[3] as int + 8 * bits[4] as int + 4 * bits[5] as int
                           + 2 * bits[6] as int + bits[7] as int
  {
    var v1 := ValueOfPrefix(bits, 0);
    var v2 := ValueOfPrefix(bits, 1);
    var v3 := ValueOfPrefix(bits, 2);
    var v4 := ValueOfPrefix(bits, 3);
    var v5 := ValueOfPrefix(bits, 4);
    var v6 := ValueOfPrefix(bits, 5);
    var v7 := ValueOfPrefix(bits, 6);
    var v8 := ValueOfPrefix(bits, 7);
    assert bits[..8] == bits;
  }

  /** Extending a prefix by one entry doubles its value and adds the entry. */
  lemma ValueOfPrefix(bits: seq<Bit>, k: nat) returns (v: nat)
    requires k < |bits|
    ensures v == ValueOf(bits[..k + 1]) == 2 * ValueOf(bits[..k]) + bits[k] as int
  {
    assert bits[..k + 1][..k] == bits[..k];
    v := ValueOf(bits[..k + 1]);
  }

  /** An eight-entry table whose weighted entries sum to `v` denotes `v`. */
  lemma TableIs(t: seq<Bit>, v: nat)
    requires |t| == 8
    requires v == 128 * t[0] as int + 64 * t[1] as int + 32 * t[2] as int + 16 * t[3] as int
                  + 8 * t[4] as int + 4 * t[5] as int + 2 * t[6] as int + t[7] as int
    ensures ValueOf(t) == v && v < Pow2(8) && t == BitsOf(v, 8)
  {
    ValueOfEight(t);
    BitsOfValueOf(t);
  }

  /** Every table denotes the byte it stands for. */
  lemma TableValues()
    ensures ValueOf(Reset) == 0x00 && ValueOf(Clear) == 0x01 && ValueOf(Home) == 0x02
    ensures ValueOf(Entry) == 0x06 && ValueOf(DisplayOn) == 0x0F && ValueOf(DisplayOff) == 0x08
    ensures ValueOf(FunctionSet) == 0x20 && ValueOf(Startup1) == 0x33 && ValueOf(Startup2) == 0x32
    ensures ValueOf(A) == 0x51 && 0x51 == 'Q' as int
  {
    ValueOfEight(Reset);
    ValueOfEight(Clear);
    ValueOfEight(Home);
    ValueOfEight(Entry);
    ValueOfEight(DisplayOn);
    ValueOfEight(DisplayOff);
    ValueOfEight(FunctionSet);
    ValueOfEight(Startup1);
    ValueOfEight(Startup2);
    ValueOfEight(A);
  }

  /** Every table is the 8-bit string of its byte, so no other table of
      eight entries stands for the same byte. */
  lemma TableBits()
    ensures Reset == BitsOf(0x00, 8) && Clear == BitsOf(0x01, 8) && Home == BitsOf(0x02, 8)
    ensures Entry == BitsOf(0x06, 8) && DisplayOn == BitsOf(0x0F, 8) && DisplayOff == BitsOf(0x08, 8)
    ensures FunctionSet == BitsOf(0x20, 8) && Startup1 == BitsOf(0x33, 8) && Startup2 == BitsOf(0x32, 8)
    ensures A == BitsOf(0x51, 8)
  {
    TableIs(Reset, 0x00);
    TableIs(Clear, 0x01);
    TableIs(Home, 0x02);
    TableIs(Entry, 0x06);
    TableIs(DisplayOn, 0x0F);
    TableIs(DisplayOff, 0x08);
    TableIs(FunctionSet, 0x20);
    TableIs(Startup1, 0x33);
    TableIs(Startup2, 0x32);
    TableIs(A, 0x51);
  }
}
