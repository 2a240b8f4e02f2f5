/** The driver's entry points: open, release and ioctl on the device file,
    and module load and unload.

    The driver keeps one record, `lcd`, holding the major number
    register_chrdev gave it and the device class it created.  Loading
    registers the character device, creates the class and the device node,
    requests the seven lines and initialises the display; each failure
    undoes part of what came before and returns.  Unloading clears the
    display and frees and unregisters everything, without checking that
    any of it is still held. */
module Lifecycle {
  import opened Platform
  import opened Commands
  import opened Display
  import opened Transport
  import opened Initializer
  import opened Pins

  /** -EINVAL */
  const EINVAL: int := 22

  /** The driver's record: the major number and the device class. */
  class LcdData {
    var lcdMjr: int
    var lcdClass: Ptr

    /** Statically initialised to 0 and NULL. */
    constructor ()
      ensures lcdMjr == 0 && lcdClass == Null
    {
      lcdMjr := 0;
      lcdClass := Null;
    }
  }

  /** lcd_ioctl: no command is supported. */
  function LcdIoctl(cmd: nat, arg: nat): (r: int)
    ensures r == -EINVAL && r < 0
  {
    -EINVAL
  }

  /** lcd_open: always succeeds and touches nothing. */
  function LcdOpen(): (r: int)
    ensures r == 0
  {
    0
  }

  /** The calls lcd_release makes. */
  function ReleaseEvents(): seq<Event> {
    [Lock] + Freed(7) + [Unlock]
  }

  /** lcd_release: under the lock, frees the seven lines; returns 0. */
  method LcdRelease(k: Kernel) returns (r: int)
    modifies k
    ensures r == 0
    ensures k.trace == old(k.trace) + ReleaseEvents()
    ensures k.state == Run(old(k.state), ReleaseEvents())
  {
    ghost var t0, s0 := k.trace, k.state;
    k.SpinLock();
    ExtendOne(t0, s0, [], Lock);
    assert [] + [Lock] == [Lock];
    FreeLines(k);
    Extend(t0, s0, [Lock], Freed(7));
    k.SpinUnlock();
    ExtendOne(t0, s0, [Lock] + Freed(7), Unlock);
    r := 0;
  }

  /** The calls module load makes up to and including req_gpio, when the
      character device, the class and the device are all created. */
  function LoadEvents(o: Oracle, owned: set<Pin>): seq<Event> {
    [Registered(o.chrdev)] + [ClassCreated(true)] + [DeviceCreated(true)] + ReqGpioEvents(o.refused, owned)
  }

  /** The calls module load makes, given the kernel's answers and the lines
      already held when it starts. */
  function MinitEvents(o: Oracle, owned: set<Pin>): seq<Event> {
    var m := o.chrdev;
    if m < 0 then [Registered(m)]
    else if IsErr(o.lcdClass) then [Registered(m)] + [ClassCreated(false)] + [Unregistered(m)]
    else if IsErr(o.dev) then
      [Registered(m)] + [ClassCreated(true)] + [DeviceCreated(false)] + [ClassDestroyed] + [Unregistered(m)]
    else if ReqGpioResult(o.refused, owned) < 0 then LoadEvents(o, owned) + [ClassDestroyed] + [Unregistered(m)]
    else LoadEvents(o, owned) + InitEvents() + [LockInit]
  }

  /** What module load returns. */
  function MinitResult(o: Oracle, owned: set<Pin>): int {
    if o.chrdev < 0 then o.chrdev
    else if IsErr(o.lcdClass) then PtrErr(o.lcdClass)
    else if IsErr(o.dev) then PtrErr(o.dev)
    else if ReqGpioResult(o.refused, owned) < 0 then PtrErr(o.dev)
    else 0
  }

  /** rpigpio_lcd_minit: module load. */
  method Minit(k: Kernel, lcd: LcdData) returns (ret: int)
    modifies k, lcd
    ensures ret == MinitResult(k.oracle, old(k.state.owned))
    ensures k.trace == old(k.trace) + MinitEvents(k.oracle, old(k.state.owned))
    ensures k.state == Run(old(k.state), MinitEvents(k.oracle, old(k.state.owned)))
    ensures lcd.lcdMjr == k.oracle.chrdev
    ensures lcd.lcdClass == if k.oracle.chrdev < 0 then old(lcd.lcdClass) else k.oracle.lcdClass
  {
    ghost var t0, s0 := k.trace, k.state;
    ret := 0;
    lcd.lcdMjr := k.RegisterChrdev();
    ExtendOne(t0, s0, [], Registered(lcd.lcdMjr));
    assert [] + [Registered(lcd.lcdMjr)] == [Registered(lcd.lcdMjr)];
    ghost var done := [Registered(lcd.lcdMjr)];
    if lcd.lcdMjr < 0 {
      return lcd.lcdMjr;
    }
    lcd.lcdClass := k.ClassCreate();
    ExtendOne(t0, s0, done, ClassCreated(!IsErr(lcd.lcdClass)));
    done := done + [ClassCreated(!IsErr(lcd.lcdClass))];
    if IsErr(lcd.lcdClass) {
      k.UnregisterChrdev(lcd.lcdMjr);
      ExtendOne(t0, s0, done, Unregistered(lcd.lcdMjr));
      return PtrErr(lcd.lcdClass);
    }
    var dev := k.DeviceCreate();
    ExtendOne(t0, s0, done, DeviceCreated(!IsErr(dev)));
    done := done + [DeviceCreated(!IsErr(dev))];
    if IsErr(dev) {
      k.ClassDestroy();
      ExtendOne(t0, s0, done, ClassDestroyed);
      done := done + [ClassDestroyed];
      k.UnregisterChrdev(lcd.lcdMjr);
      ExtendOne(t0, s0, done, Unregistered(lcd.lcdMjr));
      return PtrErr(dev);
    }
    assert k.state.owned == s0.owned;
    var req := ReqGpio(k);
    Extend(t0, s0, done, ReqGpioEvents(k.oracle.refused, s0.owned));
    done := done + ReqGpioEvents(k.oracle.refused, s0.owned);
    if req < 0 {
      k.ClassDestroy();
      ExtendOne(t0, s0, done, ClassDestroyed);
      done := done + [ClassDestroyed];
      k.UnregisterChrdev(lcd.lcdMjr);
      ExtendOne(t0, s0, done, Unregistered(lcd.lcdMjr));
      return PtrErr(dev);
    }
    var w := LcdInit(k);
    Extend(t0, s0, done, InitEvents());
    done := done + InitEvents();
    k.SpinLockInit();
    ExtendOne(t0, s0, done, LockInit);
  }

  /** The calls module unload makes, with `major` the recorded major number. */
  function CleanupEvents(major: int): seq<Event> {
    WriteEvents(Clear) + Freed(7) + [DeviceDestroyed] + [ClassDestroyed] + [Unregistered(major)]
  }

  /** rpigpio_lcd_mcleanup: module unload. */
  method Mcleanup(k: Kernel, lcd: LcdData)
    modifies k
    ensures k.trace == old(k.trace) + CleanupEvents(lcd.lcdMjr)
    ensures k.state == Run(old(k.state), CleanupEvents(lcd.lcdMjr))
  {
    ghost var t0, s0 := k.trace, k.state;
    var w := LcdWrite(k, Clear);
    Extend(t0, s0, [], WriteEvents(Clear));
    assert [] + WriteEvents(Clear) == WriteEvents(Clear);
    FreeLines(k);
    Extend(t0, s0, WriteEvents(Clear), Freed(7));
    ghost var done := WriteEvents(Clear) + Freed(7);
    k.DeviceDestroy();
    ExtendOne(t0, s0, done, DeviceDestroyed);
    done := done + [DeviceDestroyed];
    k.ClassDestroy();
    ExtendOne(t0, s0, done, ClassDestroyed);
    done := done + [ClassDestroyed];
    k.UnregisterChrdev(lcd.lcdMjr);
    ExtendOne(t0, s0, done, Unregistered(lcd.lcdMjr));
  }

  /** The state after lcd_release: the seven lines are neither held nor
      outputs; nothing else changes. */
  lemma ReleaseRun(s: State)
    ensures Run(s, ReleaseEvents()) == s.(owned := s.owned - Claimed(7), output := s.output - Claimed(7))
  {
    RunSnoc(s, [], Lock);
    ApplyQuiet(s, Lock);
    assert [] + [Lock] == [Lock];
    RunAppend(s, [Lock], Freed(7));
    FreedRun(s, 7);
    var freed := Run(s, [Lock] + Freed(7));
    RunSnoc(s, [Lock] + Freed(7), Unlock);
    ApplyQuiet(freed, Unlock);
  }

  /** lcd_release frees all seven lines whatever the state before, however
      many users still have the device open (the driver does not count
      them), and a second release changes nothing. */
  lemma ReleaseFrees(s: State)
    ensures forall p | p in LcdPins :: p !in Run(s, ReleaseEvents()).owned && p !in Run(s, ReleaseEvents()).output
    ensures Run(Run(s, ReleaseEvents()), ReleaseEvents()) == Run(s, ReleaseEvents())
  {
    ReleaseRun(s);
    ReleaseRun(Run(s, ReleaseEvents()));
    assert LcdPins[..7] == LcdPins;
  }

  /** A negative register_chrdev result is returned, and nothing is left
      registered or created. */
  lemma MinitChrdevFails(o: Oracle, s: State)
    requires o.chrdev < 0
    ensures MinitResult(o, s.owned) == o.chrdev < 0
    ensures Run(s, MinitEvents(o, s.owned)) == s
  {
    RunSnoc(s, [], Registered(o.chrdev));
    assert [] + [Registered(o.chrdev)] == [Registered(o.chrdev)];
  }

  /** A class_create failure unregisters the character device and returns
      the class pointer's error code. */
  lemma MinitClassFails(o: Oracle, s: State)
    requires o.chrdev >= 0 && IsErr(o.lcdClass)
    ensures MinitResult(o, s.owned) == o.lcdClass.errno
    ensures Run(s, MinitEvents(o, s.owned)) == s.(chrdev := false)
  {
    var es := MinitEvents(o, s.owned);
    var s1 := Apply(s, es[0]);
    var s2 := Apply(s1, es[1]);
    var s3 := Apply(s2, es[2]);
    assert Run(s, es) == Run(s1, es[1..]);
    assert Run(s1, es[1..]) == Run(s2, es[2..]);
    assert Run(s2, es[2..]) == Run(s3, es[3..]);
  }

  /** A device_create failure destroys the class, unregisters the character
      device and returns the device pointer's error code. */
  lemma MinitDeviceFails(o: Oracle, s: State)
    requires o.chrdev >= 0 && !IsErr(o.lcdClass) && IsErr(o.dev)
    ensures MinitResult(o, s.owned) == o.dev.errno
    ensures Run(s, MinitEvents(o, s.owned)) == s.(chrdev := false, classAlive := false)
  {
    var es := MinitEvents(o, s.owned);
    var s1 := Apply(s, es[0]);
    var s2 := Apply(s1, es[1]);
    var s3 := Apply(s2, es[2]);
    var s4 := Apply(s3, es[3]);
    assert Run(s, es) == Run(s1, es[1..]);
    assert Run(s1, es[1..]) == Run(s2, es[2..]);
    assert Run(s2, es[2..]) == Run(s3, es[3..]);
    assert Run(s3, es[3..]) == Run(s4, es[4..]);
  }

  /** The state after the three registrations of a load that gets that far. */
  lemma RegisteredRun(o: Oracle, s: State)
    requires o.chrdev >= 0
    ensures Run(s, [Registered(o.chrdev)] + [ClassCreated(true)] + [DeviceCreated(true)])
         == s.(chrdev := true, classAlive := true, deviceAlive := true)
  {
    var es := [Registered(o.chrdev)] + [ClassCreated(true)] + [DeviceCreated(true)];
    assert Run(s, es) == Run(Apply(s, es[0]), es[1..]);
    assert Run(Apply(s, es[0]), es[1..]) == Run(Apply(Apply(s, es[0]), es[1]), es[2..]);
    assert Run(Apply(Apply(s, es[0]), es[1]), es[2..])
        == Run(Apply(Apply(Apply(s, es[0]), es[1]), es[2]), es[3..]);
  }

  /** The state when req_gpio has been refused line `f` during load. */
  lemma LoadRefused(o: Oracle, s: State, f: nat)
    requires o.chrdev >= 0
    requires f == FirstRefused(o.refused, s.owned, 0) && f < 7
    ensures Run(s, LoadEvents(o, s.owned))
         == s.(owned := s.owned + Claimed(f), chrdev := true, classAlive := true, deviceAlive := true)
  {
    var s3 := s.(chrdev := true, classAlive := true, deviceAlive := true);
    RegisteredRun(o, s);
    RunAppend(s, [Registered(o.chrdev)] + [ClassCreated(true)] + [DeviceCreated(true)],
              ReqGpioEvents(o.refused, s.owned));
    ReqGpioRefused(o.refused, s3, f);
  }

  /** A req_gpio failure, first refused at line `f`, is unwound only in part:
      the class is destroyed and the character device unregistered, but the
      device created in the destroyed class is left behind and the lines
      before `f` stay held.  And load returns PTR_ERR of the device pointer,
      which is valid: not an error code at all, so load does not report the
      failure unless the address itself reads as negative. */
  lemma MinitReqGpioFails(o: Oracle, s: State, f: nat)
    requires o.chrdev >= 0 && !IsErr(o.lcdClass) && !IsErr(o.dev)
    requires f == FirstRefused(o.refused, s.owned, 0) && f < 7
    ensures MinitResult(o, s.owned) == PtrErr(o.dev)
    ensures MinitResult(o, s.owned) >= 0 <==> (o.dev.Null? || o.dev.addr >= 0)
    ensures Run(s, MinitEvents(o, s.owned))
         == s.(owned := s.owned + Claimed(f), chrdev := false, classAlive := false, deviceAlive := true)
  {
    var load := LoadEvents(o, s.owned);
    LoadRefused(o, s, f);
    assert MinitEvents(o, s.owned) == (load + [ClassDestroyed]) + [Unregistered(o.chrdev)];
    var loaded := s.(owned := s.owned + Claimed(f), chrdev := true, classAlive := true, deviceAlive := true);
    RunSnoc(s, load, ClassDestroyed);
    assert Run(s, load + [ClassDestroyed]) == loaded.(classAlive := false);
    RunSnoc(s, load + [ClassDestroyed], Unregistered(o.chrdev));
  }

  /** The state when every step of load up to lcd_init has succeeded. */
  lemma LoadGranted(o: Oracle, s: State)
    requires o.chrdev >= 0
    requires FirstRefused(o.refused, s.owned, 0) == 7
    ensures Run(s, LoadEvents(o, s.owned)).chrdev
    ensures Run(s, LoadEvents(o, s.owned)).classAlive
    ensures Run(s, LoadEvents(o, s.owned)).deviceAlive
    ensures forall p | p in LcdPins ::
      p in Run(s, LoadEvents(o, s.owned)).owned && p in Run(s, LoadEvents(o, s.owned)).output
      && Level(Run(s, LoadEvents(o, s.owned)), p) == 0
  {
    var s3 := s.(chrdev := true, classAlive := true, deviceAlive := true);
    RegisteredRun(o, s);
    RunAppend(s, [Registered(o.chrdev)] + [ClassCreated(true)] + [DeviceCreated(true)],
              ReqGpioEvents(o.refused, s.owned));
    ReqGpioGranted(o.refused, s3);
  }

  /** A load where everything succeeds: it returns 0, and leaves the
      character device, class and device registered and the seven lines held
      as outputs; lcd_init changes none of that. */
  lemma MinitSucceeds(o: Oracle, s: State)
    requires o.chrdev >= 0 && !IsErr(o.lcdClass) && !IsErr(o.dev)
    requires ReqGpioResult(o.refused, s.owned) == 0
    ensures MinitResult(o, s.owned) == 0
    ensures MinitEvents(o, s.owned) == LoadEvents(o, s.owned) + InitEvents() + [LockInit]
    ensures var after := Run(s, MinitEvents(o, s.owned));
      after.chrdev && after.classAlive && after.deviceAlive
      && forall p | p in LcdPins :: p in after.owned && p in after.output
  {
    ReqGpioSucceedsIff(o.refused, s.owned);
    var load := LoadEvents(o, s.owned);
    assert MinitEvents(o, s.owned) == load + InitEvents() + [LockInit];
    LoadedRun(o, s);
  }

  /** The state at the end of a successful load, in terms of its calls. */
  lemma LoadedRun(o: Oracle, s: State)
    requires o.chrdev >= 0
    requires FirstRefused(o.refused, s.owned, 0) == 7
    ensures var after := Run(s, LoadEvents(o, s.owned) + InitEvents() + [LockInit]);
      after.chrdev && after.classAlive && after.deviceAlive
      && forall p | p in LcdPins :: p in after.owned && p in after.output
  {
    var load := LoadEvents(o, s.owned);
    var ready := Run(s, load);
    LoadGranted(o, s);
    assert RS in LcdPins;
    InitKeeps(ready);
    var t := Run(ready, InitEvents());
    RunAppend(s, load, InitEvents());
    RunSnoc(s, load + InitEvents(), LockInit);
    ApplyQuiet(t, LockInit);
  }

  /** In a load where everything succeeds, RS is low when lcd_init starts,
      so the display receives exactly the nine set-up instructions and then
      the character 'Q'. */
  lemma MinitDisplays(o: Oracle, s: State)
    requires o.chrdev >= 0 && !IsErr(o.lcdClass) && !IsErr(o.dev)
    requires ReqGpioResult(o.refused, s.owned) == 0
    ensures Level(Run(s, LoadEvents(o, s.owned)), RS) == 0
    ensures Decode(Latched(Run(s, LoadEvents(o, s.owned)), InitEvents())) ==
      [Instruction(0x00), Instruction(0x33), Instruction(0x32), Instruction(0x20), Instruction(0x08),
       Instruction(0x01), Instruction(0x06), Instruction(0x0F), Instruction(0x02), Character(0x51)]
  {
    ReqGpioSucceedsIff(o.refused, s.owned);
    LoadGranted(o, s);
    assert RS in LcdPins;
    InitSends(Run(s, LoadEvents(o, s.owned)));
  }

  /** The spinlock is initialised only after lcd_init has already taken and
      released it: in a successful load, the calls up to lcd_init make no
      call on the lock, the first call on the lock is lcd_init's Lock, and
      spin_lock_init is the very last call. */
  lemma LockInitAfterLock(o: Oracle, s: State)
    requires o.chrdev >= 0 && !IsErr(o.lcdClass) && !IsErr(o.dev)
    requires ReqGpioResult(o.refused, s.owned) == 0
    ensures var es := MinitEvents(o, s.owned);
      var load := LoadEvents(o, s.owned);
      es[..|load|] == load && (forall j | 0 <= j < |load| :: !Locking(es[j]))
      && |load| < |es| - 1 && es[|load|] == Lock && es[|es| - 1] == LockInit
  {
    var setup := InitShape();
    var load := LoadEvents(o, s.owned);
    var es := MinitEvents(o, s.owned);
    assert es == load + (InitEvents() + [LockInit]);
    LoadCalls(o, s.owned);
    forall j | 0 <= j < |load|
      ensures !Locking(es[j])
    {
      assert es[j] == load[j];
    }
  }

  /** Load makes no call on the spinlock before lcd_init. */
  lemma LoadCalls(o: Oracle, owned: set<Pin>)
    ensures forall e | e in LoadEvents(o, owned) :: !Locking(e)
  {
    ReqGpioCalls(o.refused, owned);
  }

  /** Module unload begins by writing `clear` to the data lines and Enable
      before anything else; after an lcd_release none of those lines is held
      any longer, so the unload drives lines the driver has already given
      back. */
  lemma CleanupAfterRelease(s: State, major: int)
    ensures CleanupEvents(major)[..16] == WriteEvents(Clear)
    ensures forall e | e in WriteEvents(Clear) :: e.Set? ==> e.pin !in Run(s, ReleaseEvents()).owned
  {
    ReleaseFrees(s);
    WriteTouches(Clear);
  }

  /** The three teardown calls at the end of module unload. */
  lemma TeardownRun(s: State, major: int)
    ensures Run(s, [DeviceDestroyed] + [ClassDestroyed] + [Unregistered(major)])
         == s.(chrdev := false, classAlive := false, deviceAlive := false)
  {
    var es := [DeviceDestroyed] + [ClassDestroyed] + [Unregistered(major)];
    assert Run(s, es) == Run(Apply(s, es[0]), es[1..]);
    assert Run(Apply(s, es[0]), es[1..]) == Run(Apply(Apply(s, es[0]), es[1]), es[2..]);
    assert Run(Apply(Apply(s, es[0]), es[1]), es[2..])
        == Run(Apply(Apply(Apply(s, es[0]), es[1]), es[2]), es[3..]);
  }

  /** Module unload frees the seven lines and destroys the device, the class
      and the registration, whatever was held before. */
  lemma CleanupRun(s: State, major: int)
    ensures var after := Run(s, CleanupEvents(major));
      !after.chrdev && !after.classAlive && !after.deviceAlive
      && after.owned == s.owned - Claimed(7) && after.output == s.output - Claimed(7)
  {
    var w := WriteEvents(Clear);
    var t := [DeviceDestroyed] + [ClassDestroyed] + [Unregistered(major)];
    assert CleanupEvents(major) == (w + Freed(7)) + t;
    RunAppend(s, w + Freed(7), t);
    RunAppend(s, w, Freed(7));
    WriteExit(s, Clear);
    FreedRun(Run(s, w), 7);
    TeardownRun(Run(s, w + Freed(7)), major);
  }
}
