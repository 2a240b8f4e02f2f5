/** lcd_init: the power-on sequence that puts the display in 4-bit mode
    and shows one character.

    Under the driver's spinlock it waits 15 ms, sends the reset byte and
    waits 35 ms; sends the eight set-up instructions; then raises RS, waits
    35 ms, sends the character `a`, waits 35 ms and lowers RS again; then
    unlocks.  The calls are written down once, in stages that each extend
    the one before, and the method is proved to make exactly those calls. */
module Initializer {
  import opened Platform
  import opened Commands
  import opened Display
  import opened Transport

  /** Up to and including the wait after the reset byte. */
  function UpToReset(): seq<Event> {
    [Lock] + [Delay(15000)] + WriteEvents(Reset) + [Delay(35000)]
  }

  /** ... and the first four set-up instructions. */
  function UpToDisplayOff(): seq<Event> {
    UpToReset() + WriteEvents(Startup1) + WriteEvents(Startup2)
    + WriteEvents(FunctionSet) + WriteEvents(DisplayOff)
  }

  /** ... and the last four. */
  function UpToHome(): seq<Event> {
    UpToDisplayOff() + WriteEvents(Clear) + WriteEvents(Entry)
    + WriteEvents(DisplayOn) + WriteEvents(Home)
  }

  /** The calls lcd_init makes, in order. */
  function InitEvents(): seq<Event> {
    UpToHome() + [Set(RS, 1)] + [Delay(35000)] + WriteEvents(A) + [Delay(35000)]
    + [Set(RS, 0)] + [Unlock]
  }

  /** lcd_init.  Returns 0. */
  method LcdInit(k: Kernel) returns (r: int)
    modifies k
    ensures r == 0
    ensures k.trace == old(k.trace) + InitEvents()
    ensures k.state == Run(old(k.state), InitEvents())
  {
    ghost var t0, s0 := k.trace, k.state;
    k.SpinLock();
    RunSnoc(s0, [], Lock);
    assert [] + [Lock] == [Lock];
    ghost var done := [Lock];
    k.Mdelay(15);
    ExtendOne(t0, s0, done, Delay(15000));
    done := done + [Delay(15000)];
    var w := LcdWrite(k, Reset);
    Extend(t0, s0, done, WriteEvents(Reset));
    done := done + WriteEvents(Reset);
    k.Mdelay(35);
    ExtendOne(t0, s0, done, Delay(35000));
    done := done + [Delay(35000)];
    w := LcdWrite(k, Startup1);
    Extend(t0, s0, done, WriteEvents(Startup1));
    done := done + WriteEvents(Startup1);
    w := LcdWrite(k, Startup2);
    Extend(t0, s0, done, WriteEvents(Startup2));
    done := done + WriteEvents(Startup2);
    w := LcdWrite(k, FunctionSet);
    Extend(t0, s0, done, WriteEvents(FunctionSet));
    done := done + WriteEvents(FunctionSet);
    w := LcdWrite(k, DisplayOff);
    Extend(t0, s0, done, WriteEvents(DisplayOff));
    done := done + WriteEvents(DisplayOff);
    w := LcdWrite(k, Clear);
    Extend(t0, s0, done, WriteEvents(Clear));
    done := done + WriteEvents(Clear);
    w := LcdWrite(k, Entry);
    Extend(t0, s0, done, WriteEvents(Entry));
    done := done + WriteEvents(Entry);
    w := LcdWrite(k, DisplayOn);
    Extend(t0, s0, done, WriteEvents(DisplayOn));
    done := done + WriteEvents(DisplayOn);
    w := LcdWrite(k, Home);
    Extend(t0, s0, done, WriteEvents(Home));
    done := done + WriteEvents(Home);
    k.GpioSetValue(RS, 1);
    ExtendOne(t0, s0, done, Set(RS, 1));
    done := done + [Set(RS, 1)];
    k.Mdelay(35);
    ExtendOne(t0, s0, done, Delay(35000));
    done := done + [Delay(35000)];
    w := LcdWrite(k, A);
    Extend(t0, s0, done, WriteEvents(A));
    done := done + WriteEvents(A);
    k.Mdelay(35);
    ExtendOne(t0, s0, done, Delay(35000));
    done := done + [Delay(35000)];
    k.GpioSetValue(RS, 0);
    ExtendOne(t0, s0, done, Set(RS, 0));
    done := done + [Set(RS, 0)];
    k.SpinUnlock();
    ExtendOne(t0, s0, done, Unlock);
    r := 0;
  }

  /** What lcd_init leaves alone: pin ownership and direction, the
      registrations, and the level of RW, which it never writes. */
  predicate Untouched(a: State, b: State) {
    a.(level := map[RW := Level(a, RW)]) == b.(level := map[RW := Level(b, RW)])
  }

  /** The byte the controller makes of `data` sent with RS at `rs`. */
  function Byte(rs: Bit, data: seq<Bit>): Received {
    if rs == 0 then Instr(data) else Char(data)
  }

  /** A table received as an instruction. */
  function Instr(data: seq<Bit>): Received {
    Instruction(ValueOf(data))
  }

  /** A table received as a character. */
  function Char(data: seq<Bit>): Received {
    Character(ValueOf(data))
  }

  /** A call lcd_init makes between writes: it touches neither Enable nor
      a data line. */
  predicate Quiet(e: Event) {
    e.Delay? || e.Lock? || e.Unlock? || (e.Set? && e.pin == RS)
  }

  /** After `done`, a quiet call makes the controller latch nothing. */
  lemma IdleLatch(s: State, done: seq<Event>, e: Event)
    requires Quiet(e)
    ensures Latched(s, done + [e]) == Latched(s, done)
  {
    LatchedAppend(s, done, [e]);
    assert Latched(Run(s, done), [e]) == [];
  }

  /** After `n` whole bytes, one more lcd_write makes the controller receive
      one more byte, instruction or character as RS stands. */
  lemma SendLatch(s: State, done: seq<Event>, data: seq<Bit>, n: nat)
    requires |data| == 8 && |Latched(s, done)| == 2 * n
    ensures |Latched(s, done + WriteEvents(data))| == 2 * (n + 1)
    ensures Decode(Latched(s, done + WriteEvents(data))) ==
      Decode(Latched(s, done)) + [Byte(Level(Run(s, done), RS), data)]
  {
    var before := Run(s, done);
    LatchedAppend(s, done, WriteEvents(data));
    WriteDelivers(before, data);
    DecodeAppend(Latched(s, done), Latched(before, WriteEvents(data)), n);
  }

  /** One more lcd_write leaves RS and everything lcd_init leaves alone as
      they were. */
  lemma SendRun(s: State, done: seq<Event>, data: seq<Bit>)
    requires |data| == 8
    ensures Untouched(Run(s, done), Run(s, done + WriteEvents(data)))
    ensures Level(Run(s, done + WriteEvents(data)), RS) == Level(Run(s, done), RS)
  {
    RunAppend(s, done, WriteEvents(data));
    WriteExit(Run(s, done), data);
  }

  /** After the calls `done` from `s`, the controller has received `bytes`
      (`n` of them, so nothing is half-sent), RS stands at `rs`, and nothing
      lcd_init leaves alone has changed. */
  predicate Sent(s: State, done: seq<Event>, bytes: seq<Received>, n: nat, rs: Bit) {
    |Latched(s, done)| == 2 * n && Decode(Latched(s, done)) == bytes
    && Untouched(s, Run(s, done)) && Level(Run(s, done), RS) == rs
  }

  lemma SendStep(s: State, done: seq<Event>, data: seq<Bit>, bytes: seq<Received>, n: nat, rs: Bit)
    requires |data| == 8 && Sent(s, done, bytes, n, rs)
    ensures Sent(s, done + WriteEvents(data), bytes + [Byte(rs, data)], n + 1, rs)
  {
    SendLatch(s, done, data, n);
    SendRun(s, done, data);
  }

  lemma IdleStep(s: State, done: seq<Event>, e: Event, bytes: seq<Received>, n: nat, rs: Bit)
    requires Quiet(e) && Sent(s, done, bytes, n, rs)
    ensures Sent(s, done + [e], bytes, n, if e.Set? then e.value else rs)
  {
    IdleLatch(s, done, e);
    RunSnoc(s, done, e);
  }

  /** What the controller has received by the end of `UpToReset`. */
  function ResetBytes(): seq<Received> {
    [Instr(Reset)]
  }

  /** ... by the end of `UpToDisplayOff`. */
  function DisplayOffBytes(): seq<Received> {
    ResetBytes() + [Instr(Startup1), Instr(Startup2), Instr(FunctionSet), Instr(DisplayOff)]
  }

  /** ... by the end of `UpToHome`. */
  function HomeBytes(): seq<Received> {
    DisplayOffBytes() + [Instr(Clear), Instr(Entry), Instr(DisplayOn), Instr(Home)]
  }

  /** ... by the end of lcd_init. */
  function InitBytes(): seq<Received> {
    HomeBytes() + [Char(A)]
  }

  /** Up to the wait after reset, with RS low: one instruction, reset. */
  lemma ResetReceived(s: State)
    requires Level(s, RS) == 0
    ensures Sent(s, UpToReset(), ResetBytes(), 1, 0)
  {
    assert [] + [Lock] == [Lock];
    IdleStep(s, [], Lock, [], 0, 0);
    IdleStep(s, [Lock], Delay(15000), [], 0, 0);
    var done := [Lock] + [Delay(15000)];
    SendStep(s, done, Reset, [], 0, 0);
    assert [] + [Instr(Reset)] == [Instr(Reset)];
    IdleStep(s, done + WriteEvents(Reset), Delay(35000), [Instr(Reset)], 1, 0);
  }

  /** Two lcd_writes in a row with RS low deliver two instructions. */
  lemma SendTwo(s: State, done: seq<Event>, a: seq<Bit>, b: seq<Bit>, bytes: seq<Received>, n: nat)
    requires |a| == 8 && |b| == 8 && Sent(s, done, bytes, n, 0)
    ensures Sent(s, done + WriteEvents(a) + WriteEvents(b), bytes + [Instr(a), Instr(b)], n + 2, 0)
  {
    SendStep(s, done, a, bytes, n, 0);
    SendStep(s, done + WriteEvents(a), b, bytes + [Instr(a)], n + 1, 0);
    assert bytes + [Instr(a)] + [Instr(b)] == bytes + [Instr(a), Instr(b)];
  }

  /** Four lcd_writes in a row with RS low deliver four instructions. */
  lemma SendFour(s: State, done: seq<Event>, a: seq<Bit>, b: seq<Bit>, c: seq<Bit>, d: seq<Bit>,
                 bytes: seq<Received>, n: nat)
    requires |a| == 8 && |b| == 8 && |c| == 8 && |d| == 8 && Sent(s, done, bytes, n, 0)
    ensures Sent(s, done + WriteEvents(a) + WriteEvents(b) + WriteEvents(c) + WriteEvents(d),
                 bytes + [Instr(a), Instr(b), Instr(c), Instr(d)], n + 4, 0)
  {
    SendTwo(s, done, a, b, bytes, n);
    SendTwo(s, done + WriteEvents(a) + WriteEvents(b), c, d, bytes + [Instr(a), Instr(b)], n + 2);
    assert bytes + [Instr(a), Instr(b)] + [Instr(c), Instr(d)]
        == bytes + [Instr(a), Instr(b), Instr(c), Instr(d)];
  }

  /** ... then the first four set-up instructions. */
  lemma DisplayOffReceived(s: State)
    requires Level(s, RS) == 0
    ensures Sent(s, UpToDisplayOff(), DisplayOffBytes(), 5, 0)
  {
    ResetReceived(s);
    SendFour(s, UpToReset(), Startup1, Startup2, FunctionSet, DisplayOff, ResetBytes(), 1);
  }

  /** ... then the last four. */
  lemma HomeReceived(s: State)
    requires Level(s, RS) == 0
    ensures Sent(s, UpToHome(), HomeBytes(), 9, 0)
  {
    DisplayOffReceived(s);
    SendFour(s, UpToDisplayOff(), Clear, Entry, DisplayOn, Home, DisplayOffBytes(), 5);
  }

  /** The whole of lcd_init, started with RS low: nine instructions and then
      `a` as a character; RS ends low and nothing lcd_init leaves alone has
      changed. */
  lemma InitReceived(s: State)
    requires Level(s, RS) == 0
    ensures Sent(s, InitEvents(), InitBytes(), 10, 0)
  {
    HomeReceived(s);
    var done := UpToHome();
    IdleStep(s, done, Set(RS, 1), HomeBytes(), 9, 0);
    done := done + [Set(RS, 1)];
    IdleStep(s, done, Delay(35000), HomeBytes(), 9, 1);
    done := done + [Delay(35000)];
    SendStep(s, done, A, HomeBytes(), 9, 1);
    done := done + WriteEvents(A);
    IdleStep(s, done, Delay(35000), InitBytes(), 10, 1);
    done := done + [Delay(35000)];
    IdleStep(s, done, Set(RS, 0), InitBytes(), 10, 1);
    done := done + [Set(RS, 0)];
    IdleStep(s, done, Unlock, InitBytes(), 10, 0);
  }

  /** The bytes of lcd_init are these instructions and this character. */
  lemma InitBytesAre()
    ensures InitBytes() ==
      [Instruction(0x00), Instruction(0x33), Instruction(0x32), Instruction(0x20), Instruction(0x08),
       Instruction(0x01), Instruction(0x06), Instruction(0x0F), Instruction(0x02), Character(0x51)]
  {
    TableValues();
  }

  /** What the display receives from lcd_init, started with RS low (as
      req_gpio leaves it), in the controller's own terms: the instructions
      0x00, 0x33, 0x32, 0x20, 0x08, 0x01, 0x06, 0x0F, 0x02, then the
      character 0x51 ('Q'), and nothing else. */
  lemma InitSends(s: State)
    requires Level(s, RS) == 0
    ensures Decode(Latched(s, InitEvents())) ==
      [Instruction(0x00), Instruction(0x33), Instruction(0x32), Instruction(0x20), Instruction(0x08),
       Instruction(0x01), Instruction(0x06), Instruction(0x0F), Instruction(0x02), Character(0x51)]
  {
    InitReceived(s);
    InitBytesAre();
  }

  /** lcd_init only drives line levels: which lines are held, which are
      outputs and what is registered are as before, and RS ends low.  The
      requirement that RS start low is not needed for this (lcd_init's last
      write to RS is 0 in any case); it is there only because the proof goes
      through `InitReceived`, and it is what req_gpio leaves. */
  lemma InitKeeps(s: State)
    requires Level(s, RS) == 0
    ensures var t := Run(s, InitEvents());
      t.owned == s.owned && t.output == s.output
      && t.chrdev == s.chrdev && t.classAlive == s.classAlive && t.deviceAlive == s.deviceAlive
      && Level(t, RS) == 0
  {
    InitReceived(s);
    var t := Run(s, InitEvents());
    assert s.(level := map[RW := Level(s, RW)]).owned == t.(level := map[RW := Level(t, RW)]).owned;
  }

  /** A call on the driver's spinlock. */
  predicate Locking(e: Event) {
    e.Lock? || e.Unlock? || e.LockInit?
  }

  /** Neither a call on the spinlock nor a write to RS among `es`. */
  predicate Plain(es: seq<Event>) {
    forall e | e in es :: !Locking(e) && !(e.Set? && e.pin == RS)
  }

  lemma WritePlain(data: seq<Bit>)
    requires |data| == 8
    ensures Plain(WriteEvents(data))
  {
    WriteTouches(data);
  }

  /** Two more plain runs of calls after the lock; what began `m` still
      begins it. */
  lemma PlainTwo(p: seq<Event>, m: seq<Event>, a: seq<Event>, b: seq<Event>)
    requires Plain(m) && Plain(a) && Plain(b) && p <= m
    ensures [Lock] + m + a + b == [Lock] + (m + a + b) && Plain(m + a + b) && p <= m + a + b
  {
    assert (m + a + b)[..|p|] == m[..|p|];
  }

  /** Four more lcd_writes after the lock are plain. */
  lemma PlainFour(p: seq<Event>, m: seq<Event>, a: seq<Bit>, b: seq<Bit>, c: seq<Bit>, d: seq<Bit>)
    requires |a| == 8 && |b| == 8 && |c| == 8 && |d| == 8 && Plain(m) && p <= m
    ensures [Lock] + m + WriteEvents(a) + WriteEvents(b) + WriteEvents(c) + WriteEvents(d)
         == [Lock] + (m + WriteEvents(a) + WriteEvents(b) + WriteEvents(c) + WriteEvents(d))
    ensures Plain(m + WriteEvents(a) + WriteEvents(b) + WriteEvents(c) + WriteEvents(d))
    ensures p <= m + WriteEvents(a) + WriteEvents(b) + WriteEvents(c) + WriteEvents(d)
  {
    WritePlain(a);
    WritePlain(b);
    WritePlain(c);
    WritePlain(d);
    PlainTwo(p, m, WriteEvents(a), WriteEvents(b));
    PlainTwo(p, m + WriteEvents(a) + WriteEvents(b), WriteEvents(c), WriteEvents(d));
  }

  /** Up to the wait after reset, lcd_init is the lock, 15 ms, the reset
      byte and 35 ms. */
  lemma ResetShape() returns (m: seq<Event>)
    ensures UpToReset() == [Lock] + m && Plain(m)
    ensures m == [Delay(15000)] + WriteEvents(Reset) + [Delay(35000)]
  {
    WritePlain(Reset);
    m := [Delay(15000)] + WriteEvents(Reset) + [Delay(35000)];
  }

  /** ... and then only plain writes, up to the last set-up instruction. */
  lemma SetupShape() returns (m: seq<Event>)
    ensures UpToHome() == [Lock] + m && Plain(m)
    ensures [Delay(15000)] + WriteEvents(Reset) + [Delay(35000)] <= m
  {
    var start := ResetShape();
    PlainFour(start, start, Startup1, Startup2, FunctionSet, DisplayOff);
    m := start + WriteEvents(Startup1) + WriteEvents(Startup2) + WriteEvents(FunctionSet) + WriteEvents(DisplayOff);
    PlainFour(start, m, Clear, Entry, DisplayOn, Home);
    m := m + WriteEvents(Clear) + WriteEvents(Entry) + WriteEvents(DisplayOn) + WriteEvents(Home);
  }

  /** The shape of lcd_init: it takes the lock first and releases it last,
      waits 15 ms before the reset byte and 35 ms after it, and touches
      neither the lock nor RS again until it raises RS for `a` alone,
      with 35 ms on either side, and lowers it before unlocking. */
  lemma InitShape() returns (setup: seq<Event>)
    ensures InitEvents() ==
      [Lock] + setup + [Set(RS, 1), Delay(35000)] + WriteEvents(A) + [Delay(35000), Set(RS, 0), Unlock]
    ensures [Delay(15000)] + WriteEvents(Reset) + [Delay(35000)] <= setup
    ensures Plain(setup) && Plain(WriteEvents(A))
  {
    setup := SetupShape();
    WritePlain(A);
  }
}
