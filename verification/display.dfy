/** What the display controller makes of the lines it is wired to.

    In 4-bit bus mode the controller latches the four upper data lines
    DB7..DB4 each time Enable falls from 1 to 0, and takes the level of RS
    at that moment to tell an instruction (RS = 0) from a character
    (RS = 1).  Two latched nibbles, high first, make one byte.  This is the
    reference against which the driver's pin sequences are judged: it looks
    only at line levels, never at which driver routine produced them.

    It is an idealised controller: one already in 4-bit mode and in write
    mode.  A real controller powers up in 8-bit mode and reads each of the
    first nibbles of the reset sequence as an instruction of its own, and
    it latches only while RW is low; this model pairs nibbles into bytes
    from the first falling edge on and does not look at RW. */
module Display {
  import opened Platform
  import opened Commands

  /** One latched nibble, DB7 first, with the level of RS at the time. */
  datatype Transfer = Transfer(rs: Bit, nibble: seq<Bit>)

  /** A byte as the controller interprets it. */
  datatype Received = Instruction(code: nat) | Character(code: nat)

  /** The data lines, DB7 first. */
  function DataLines(s: State): (n: seq<Bit>)
    ensures |n| == 4
  {
    [Level(s, DB7), Level(s, DB6), Level(s, DB5), Level(s, DB4)]
  }

  /** Does this call make Enable fall from 1 to 0? */
  predicate FallingEdge(s: State, e: Event) {
    Level(s, E) == 1 && Level(Apply(s, e), E) == 0
  }

  /** The nibbles the controller latches while the calls `es` run from `s`. */
  function Latched(s: State, es: seq<Event>): seq<Transfer>
    decreases |es|
  {
    if es == [] then []
    else
      var next := Apply(s, es[0]);
      (if FallingEdge(s, es[0]) then [Transfer(Level(next, RS), DataLines(next))] else [])
      + Latched(next, es[1..])
  }

  /** What the controller latches over two runs is what it latches over each. */
  lemma {:induction false} LatchedAppend(s: State, a: seq<Event>, b: seq<Event>)
    ensures Latched(s, a + b) == Latched(s, a) + Latched(Run(s, a), b)
    decreases |a|
  {
    if a == [] {
      assert a + b == b;
    } else {
      assert (a + b)[0] == a[0];
      assert (a + b)[1..] == a[1..] + b;
      LatchedAppend(Apply(s, a[0]), a[1..], b);
    }
  }

  /** One byte out of two nibbles, high nibble first. */
  function Assemble(high: Transfer, low: Transfer): Received {
    var code := ValueOf(high.nibble + low.nibble);
    if high.rs == 0 then Instruction(code) else Character(code)
  }

  /** The bytes the controller receives from a run of latched nibbles. */
  function Decode(ts: seq<Transfer>): seq<Received>
    decreases |ts|
  {
    if |ts| < 2 then [] else [Assemble(ts[0], ts[1])] + Decode(ts[2..])
  }

  /** Decoding splits at any byte boundary: after `n` whole bytes. */
  lemma {:induction false} DecodeAppend(a: seq<Transfer>, b: seq<Transfer>, n: nat)
    requires |a| == 2 * n
    ensures Decode(a + b) == Decode(a) + Decode(b)
    decreases n
  {
    if n == 0 {
      assert a + b == b;
    } else {
      assert (a + b)[2..] == a[2..] + b;
      DecodeAppend(a[2..], b, n - 1);
    }
  }
}
