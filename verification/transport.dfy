/** lcd_write: one byte to the display over the 4-bit bus.

    The byte is eight 0/1 entries, most-significant first.  Each half is
    put on the data lines (entry 0 of the half on DB7, GPIO 25, down to
    entry 3 on DB4, GPIO 22) and latched with one Enable pulse: Enable
    high, 50 microseconds, Enable low, 50 microseconds.  RS and RW are left
    as they are. */
module Transport {
  import opened Platform
  import opened Commands
  import opened Display

  /** One Enable pulse. */
  const Pulse: seq<Event> := [Set(E, 1), Delay(50), Set(E, 0), Delay(50)]

  /** The data lines for one nibble, from DB7 down. */
  function DataEvents(n: seq<Bit>): seq<Event>
    requires |n| == 4
  {
    [Set(DB7, n[0]), Set(DB6, n[1]), Set(DB5, n[2]), Set(DB4, n[3])]
  }

  /** The calls for one nibble: the data lines, then a pulse. */
  function NibbleEvents(n: seq<Bit>): seq<Event>
    requires |n| == 4
  {
    DataEvents(n) + Pulse
  }

  /** The calls lcd_write makes for `data`: high nibble, then low nibble. */
  function WriteEvents(data: seq<Bit>): (es: seq<Event>)
    requires |data| == 8
    ensures |es| == 16
  {
    NibbleEvents(data[..4]) + NibbleEvents(data[4..])
  }

  /** lcd_write: the high nibble, then the low nibble, each latched by
      its own Enable pulse.  Returns 0. */
  method LcdWrite(k: Kernel, data: seq<Bit>) returns (r: int)
    requires |data| == 8
    modifies k
    ensures r == 0
    ensures k.trace == old(k.trace) + WriteEvents(data)
    ensures k.state == Run(old(k.state), WriteEvents(data))
  {
    LatchNibble(k, data[0], data[1], data[2], data[3]);
    assert data[..4] == [data[0], data[1], data[2], data[3]];
    LatchNibble(k, data[4], data[5], data[6], data[7]);
    assert data[4..] == [data[4], data[5], data[6], data[7]];
    RunAppend(old(k.state), NibbleEvents(data[..4]), NibbleEvents(data[4..]));
    r := 0;
  }

  /** One half of lcd_write, which the source writes out twice: the four
      data lines, DB7 first, then Enable high, 50 microseconds, Enable low,
      50 microseconds. */
  method LatchNibble(k: Kernel, d7: Bit, d6: Bit, d5: Bit, d4: Bit)
    modifies k
    ensures k.trace == old(k.trace) + NibbleEvents([d7, d6, d5, d4])
    ensures k.state == Run(old(k.state), NibbleEvents([d7, d6, d5, d4]))
  {
    k.GpioSetValue(DB7, d7);
    k.GpioSetValue(DB6, d6);
    k.GpioSetValue(DB5, d5);
    k.GpioSetValue(DB4, d4);
    k.GpioSetValue(E, 1);
    k.Udelay(50);
    k.GpioSetValue(E, 0);
    k.Udelay(50);
    NibbleRun(old(k.state), [d7, d6, d5, d4]);
  }

  /** Unfolding a replay one call at a time. */
  lemma RunStep(s: State, es: seq<Event>, j: nat)
    requires j < |es|
    ensures Run(s, es[j..]) == Run(Apply(s, es[j]), es[j + 1..])
  {
    assert es[j..][0] == es[j];
    assert es[j..][1..] == es[j + 1..];
  }

  /** Unfolding the latched nibbles one call at a time, when the call does
      not make Enable fall. */
  lemma LatchStep(s: State, es: seq<Event>, j: nat)
    requires j < |es| && !FallingEdge(s, es[j])
    ensures Latched(s, es[j..]) == Latched(Apply(s, es[j]), es[j + 1..])
  {
    assert es[j..][0] == es[j];
    assert es[j..][1..] == es[j + 1..];
  }

  /** Setting the data lines changes their levels and nothing else. */
  lemma DataRun(s: State, n: seq<Bit>)
    requires |n| == 4
    ensures Run(s, DataEvents(n)) ==
      s.(level := s.level[DB7 := n[0]][DB6 := n[1]][DB5 := n[2]][DB4 := n[3]])
  {
    var es := DataEvents(n);
    var s1 := Apply(s, es[0]);
    var s2 := Apply(s1, es[1]);
    var s3 := Apply(s2, es[2]);
    assert es[0..] == es;
    RunStep(s, es, 0);
    RunStep(s1, es, 1);
    RunStep(s2, es, 2);
    RunStep(s3, es, 3);
    assert es[4..] == [];
  }

  /** The calls of a pulse, one at a time. */
  lemma PulseSteps(s: State)
    ensures Run(s, Pulse) == s.(level := s.level[E := 1][E := 0])
  {
    var s1 := Apply(s, Set(E, 1));
    var s2 := Apply(s1, Delay(50));
    var s3 := Apply(s2, Set(E, 0));
    assert Run(s, Pulse) == Run(s1, [Delay(50), Set(E, 0), Delay(50)]);
    assert Run(s1, [Delay(50), Set(E, 0), Delay(50)]) == Run(s2, [Set(E, 0), Delay(50)]);
    assert Run(s2, [Set(E, 0), Delay(50)]) == Run(s3, [Delay(50)]);
    assert Run(s3, [Delay(50)]) == s3;
  }

  /** A pulse leaves Enable low and changes nothing else. */
  lemma PulseRun(s: State)
    ensures Run(s, Pulse) == s.(level := s.level[E := 0])
  {
    PulseSteps(s);
    assert s.level[E := 1][E := 0] == s.level[E := 0];
  }

  /** One nibble: the data lines end up holding it, Enable ends low and
      nothing else changes. */
  lemma NibbleRun(s: State, n: seq<Bit>)
    requires |n| == 4
    ensures Run(s, NibbleEvents(n)) ==
      s.(level := s.level[DB7 := n[0]][DB6 := n[1]][DB5 := n[2]][DB4 := n[3]][E := 0])
  {
    RunAppend(s, DataEvents(n), Pulse);
    DataRun(s, n);
    PulseRun(Run(s, DataEvents(n)));
  }

  /** The controller latches nothing while only the data lines change. */
  lemma DataLatch(s: State, n: seq<Bit>)
    requires |n| == 4
    ensures Latched(s, DataEvents(n)) == []
  {
    var es := DataEvents(n);
    var s1 := Apply(s, es[0]);
    var s2 := Apply(s1, es[1]);
    var s3 := Apply(s2, es[2]);
    assert es[0..] == es;
    LatchStep(s, es, 0);
    LatchStep(s1, es, 1);
    LatchStep(s2, es, 2);
    LatchStep(s3, es, 3);
    assert es[4..] == [];
  }

  /** A pulse makes the controller latch the data lines once, under the
      current level of RS, whatever level Enable started at. */
  lemma PulseLatch(s: State)
    ensures Latched(s, Pulse) == [Transfer(Level(s, RS), DataLines(s))]
  {
    var s1 := Apply(s, Pulse[0]);
    var s2 := Apply(s1, Pulse[1]);
    var s3 := Apply(s2, Pulse[2]);
    assert Pulse[0..] == Pulse;
    LatchStep(s, Pulse, 0);
    LatchStep(s1, Pulse, 1);
    assert Latched(s2, Pulse[2..]) == [Transfer(Level(s3, RS), DataLines(s3))] + Latched(s3, Pulse[3..]) by {
      assert FallingEdge(s2, Pulse[2]);
      assert Pulse[2..][0] == Pulse[2];
      assert Pulse[2..][1..] == Pulse[3..];
    }
    LatchStep(s3, Pulse, 3);
    assert Pulse[4..] == [];
    assert DataLines(s3) == DataLines(s) && Level(s3, RS) == Level(s, RS);
  }

  /** One nibble: the controller latches exactly that nibble, under the
      current level of RS. */
  lemma NibbleLatch(s: State, n: seq<Bit>)
    requires |n| == 4
    ensures Latched(s, NibbleEvents(n)) == [Transfer(Level(s, RS), n)]
  {
    LatchedAppend(s, DataEvents(n), Pulse);
    DataLatch(s, n);
    DataRun(s, n);
    PulseLatch(Run(s, DataEvents(n)));
    assert DataLines(Run(s, DataEvents(n))) == n;
  }

  /** On exit from lcd_write Enable is low, the data lines hold the low
      nibble `data[4..8]`, and nothing else (ownership, directions, RS, RW,
      registration) has changed. */
  lemma WriteExit(s: State, data: seq<Bit>)
    requires |data| == 8
    ensures Run(s, WriteEvents(data)) ==
      s.(level := s.level[DB7 := data[4]][DB6 := data[5]][DB5 := data[6]][DB4 := data[7]][E := 0])
    ensures Level(Run(s, WriteEvents(data)), E) == 0
    ensures DataLines(Run(s, WriteEvents(data))) == data[4..]
    ensures Level(Run(s, WriteEvents(data)), RS) == Level(s, RS)
    ensures Level(Run(s, WriteEvents(data)), RW) == Level(s, RW)
  {
    var high, low := data[..4], data[4..];
    RunAppend(s, NibbleEvents(high), NibbleEvents(low));
    NibbleRun(s, high);
    NibbleRun(Run(s, NibbleEvents(high)), low);
  }

  /** The controller latches the high nibble and then the low nibble, both
      under the RS level the caller set, and so receives exactly the byte
      `data` denotes: an instruction when RS is 0, a character when it is 1. */
  lemma WriteDelivers(s: State, data: seq<Bit>)
    requires |data| == 8
    ensures Latched(s, WriteEvents(data)) ==
      [Transfer(Level(s, RS), data[..4]), Transfer(Level(s, RS), data[4..])]
    ensures Decode(Latched(s, WriteEvents(data))) ==
      [if Level(s, RS) == 0 then Instruction(ValueOf(data)) else Character(ValueOf(data))]
  {
    var high, low := data[..4], data[4..];
    LatchedAppend(s, NibbleEvents(high), NibbleEvents(low));
    NibbleLatch(s, high);
    NibbleRun(s, high);
    NibbleLatch(Run(s, NibbleEvents(high)), low);
    assert high + low == data;
    var ts := Latched(s, WriteEvents(data));
    assert Decode(ts) == [Assemble(ts[0], ts[1])] + Decode(ts[2..]);
  }

  /** Bit `4 + i` of the byte is put on data line DB(4 + i) for the first
      pulse and bit `i` for the second: the highest-numbered line carries
      the highest bit of each nibble. */
  lemma WriteCarriesByte(b: nat, i: nat)
    requires b < 256 && i < 4
    ensures WriteEvents(BitsOf(b, 8))[3 - i] == Set(DataPin(i), BitAt(b, 4 + i))
    ensures WriteEvents(BitsOf(b, 8))[11 - i] == Set(DataPin(i), BitAt(b, i))
  {
    BitsOfAt(b, 8, 3 - i);
    BitsOfAt(b, 8, 7 - i);
  }

  /** lcd_write only ever sets Enable and the four data lines, and only
      waits 50 microseconds: RS and RW are never written, no pin is
      requested, freed or reconfigured. */
  lemma WriteTouches(data: seq<Bit>)
    requires |data| == 8
    ensures forall e | e in WriteEvents(data) ::
      e == Delay(50) || (e.Set? && (e.pin == E || e.pin == DB4 || e.pin == DB5 || e.pin == DB6 || e.pin == DB7))
    ensures forall e | e in WriteEvents(data) :: e.Set? ==> e.pin != RS && e.pin != RW
  {
  }

  /** Exactly two Enable pulses, each after the four data-line writes of
      its nibble: the only calls on Enable are at positions 4, 6, 12 and
      14, and positions 4..8 and 12..16 are each one full pulse. */
  lemma WritePulses(data: seq<Bit>)
    requires |data| == 8
    ensures forall j | 0 <= j < 16 ::
      (WriteEvents(data)[j].Set? && WriteEvents(data)[j].pin == E) <==> (j == 4 || j == 6 || j == 12 || j == 14)
    ensures WriteEvents(data)[4..8] == Pulse && WriteEvents(data)[12..16] == Pulse
    ensures WriteEvents(data)[..4] == DataEvents(data[..4]) && WriteEvents(data)[8..12] == DataEvents(data[4..])
  {
  }
}
