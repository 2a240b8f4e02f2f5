/** The kernel services the LCD driver calls, as an abstract machine.

    Legacy GPIO (request, free, set direction, set level), busy-wait
    delays, the driver's spinlock and the character-device / class / device
    registration are each one call that appends one `Event` to a log.  The
    visible state of the machine (which pins are owned, which are outputs,
    the level of every line, what is registered) changes with each call as
    `Apply` says, so it is the replay of the log from where it started.  Whether
    a request or a registration succeeds is decided by an `Oracle` fixed
    when the machine is built: the model does not try to mirror the kernel. */
module Platform {

  type Pin = nat

  /** A logical line level; the driver only ever passes 0 or 1. */
  type Bit = b: int | 0 <= b <= 1

  // Wiring of the display to the Raspberry Pi's GPIO numbers.
  const RS: Pin := 4    // register select
  const RW: Pin := 17   // read/write
  const E: Pin := 18    // enable
  const DB4: Pin := 22
  const DB5: Pin := 23
  const DB6: Pin := 24
  const DB7: Pin := 25

  /** The seven lines the driver owns, in the order it requests them. */
  const LcdPins: seq<Pin> := [RS, RW, E, DB4, DB5, DB6, DB7]

  /** The four data lines, DB4 first. */
  function DataPin(i: nat): (p: Pin)
    requires i < 4
    ensures p in {DB4, DB5, DB6, DB7}
  {
    DB4 + i
  }

  /** A kernel pointer as the driver sees it: NULL, a valid address, or an
      error code encoded as a pointer. */
  datatype Ptr = Null | Addr(addr: int) | ErrPtr(errno: int)

  /** IS_ERR */
  predicate IsErr(p: Ptr) {
    p.ErrPtr?
  }

  /** PTR_ERR: the pointer read as a signed long.  For a valid pointer that
      is its (abstract) address, not an error code. */
  function PtrErr(p: Ptr): int {
    match p
    case Null => 0
    case Addr(a) => a
    case ErrPtr(e) => e
  }

  /** What the kernel answers: the pins gpio_request refuses, the value
      register_chrdev returns, and the pointers class_create and
      device_create return. */
  datatype Oracle = Oracle(refused: set<Pin>, chrdev: int, lcdClass: Ptr, dev: Ptr)

  /** One kernel call, as it appears in the log. */
  datatype Event =
    | Request(pin: Pin, granted: bool)
    | Free(pin: Pin)
    | DirectionOutput(pin: Pin, value: Bit)
    | Set(pin: Pin, value: Bit)
    | Delay(us: nat)
    | Lock
    | Unlock
    | LockInit
    | Registered(result: int)
    | Unregistered(major: int)
    | ClassCreated(created: bool)
    | ClassDestroyed
    | DeviceCreated(created: bool)
    | DeviceDestroyed

  /** The visible state of the machine. */
  datatype State = State(
    owned: set<Pin>,
    output: set<Pin>,
    level: map<Pin, Bit>,
    chrdev: bool,
    classAlive: bool,
    deviceAlive: bool)

  /** The machine after power-up: nothing owned, nothing registered. */
  const Boot: State := State({}, {}, map[], false, false, false)

  /** Level of a line; a line never driven reads 0. */
  function Level(s: State, p: Pin): Bit {
    if p in s.level then s.level[p] else 0
  }

  /** The effect of one call on the visible state. */
  function Apply(s: State, e: Event): State {
    match e
    case Request(p, granted) => if granted then s.(owned := s.owned + {p}) else s
    case Free(p) => s.(owned := s.owned - {p}, output := s.output - {p})
    case DirectionOutput(p, v) => s.(output := s.output + {p}, level := s.level[p := v])
    case Set(p, v) => s.(level := s.level[p := v])
    case Registered(r) => if r >= 0 then s.(chrdev := true) else s
    case Unregistered(_) => s.(chrdev := false)
    case ClassCreated(created) => if created then s.(classAlive := true) else s
    case ClassDestroyed => s.(classAlive := false)
    case DeviceCreated(created) => if created then s.(deviceAlive := true) else s
    case DeviceDestroyed => s.(deviceAlive := false)
    case Delay(_) => s
    case Lock => s
    case Unlock => s
    case LockInit => s
  }

  /** Replay of a log from a state. */
  function Run(s: State, es: seq<Event>): State
    decreases |es|
  {
    if es == [] then s else Run(Apply(s, es[0]), es[1..])
  }

  /** Delays and calls on the spinlock leave the visible state alone. */
  lemma ApplyQuiet(s: State, e: Event)
    requires e.Delay? || e.Lock? || e.Unlock? || e.LockInit?
    ensures Apply(s, e) == s
  {
  }

  /** Replaying two logs one after the other is replaying their concatenation. */
  lemma {:induction false} RunAppend(s: State, a: seq<Event>, b: seq<Event>)
    ensures Run(s, a + b) == Run(Run(s, a), b)
    decreases |a|
  {
    if a == [] {
      assert a + b == b;
    } else {
      assert (a + b)[0] == a[0];
      assert (a + b)[1..] == a[1..] + b;
      RunAppend(Apply(s, a[0]), a[1..], b);
    }
  }

  /** Replaying one more call. */
  lemma RunSnoc(s: State, es: seq<Event>, e: Event)
    ensures Run(s, es + [e]) == Apply(Run(s, es), e)
  {
    RunAppend(s, es, [e]);
    assert Run(Run(s, es), [e]) == Run(Apply(Run(s, es), e), []);
  }

  /** Bookkeeping for a driver routine that has made the calls `done`
      since the log was `t0` and the state `s0`, and now makes the calls
      `es`: the log and the state move on together. */
  lemma Extend(t0: seq<Event>, s0: State, done: seq<Event>, es: seq<Event>)
    ensures (t0 + done) + es == t0 + (done + es)
    ensures Run(s0, done + es) == Run(Run(s0, done), es)
  {
    RunAppend(s0, done, es);
  }

  /** The same, for a single call. */
  lemma ExtendOne(t0: seq<Event>, s0: State, done: seq<Event>, e: Event)
    ensures (t0 + done) + [e] == t0 + (done + [e])
    ensures Run(s0, done + [e]) == Apply(Run(s0, done), e)
  {
    RunSnoc(s0, done, e);
  }

  /** The kernel as one object whose state its services update in place.
      Every service appends its call to `trace` and changes `state` exactly
      as `Apply` says, so after any sequence of calls `state` is the replay
      of the calls logged since (`Run`). */
  class Kernel {
    var state: State
    /** Every call made so far, oldest first. */
    var trace: seq<Event>
    const oracle: Oracle

    constructor (oracle: Oracle)
      ensures state == Boot && trace == [] && this.oracle == oracle
    {
      state := Boot;
      trace := [];
      this.oracle := oracle;
    }

    /** gpio_request: granted unless the oracle refuses the pin or it is
        already owned. */
    method GpioRequest(p: Pin) returns (granted: bool)
      modifies this
      ensures granted == (p !in oracle.refused && p !in old(state.owned))
      ensures state == Apply(old(state), Request(p, granted))
      ensures trace == old(trace) + [Request(p, granted)]
    {
      granted := p !in oracle.refused && p !in state.owned;
      if granted {
        state := state.(owned := state.owned + {p});
      }
      trace := trace + [Request(p, granted)];
    }

    /** gpio_free */
    method GpioFree(p: Pin)
      modifies this
      ensures state == Apply(old(state), Free(p))
      ensures trace == old(trace) + [Free(p)]
    {
      state := state.(owned := state.owned - {p}, output := state.output - {p});
      trace := trace + [Free(p)];
    }

    /** gpio_direction_output */
    method GpioDirectionOutput(p: Pin, v: Bit)
      modifies this
      ensures state == Apply(old(state), DirectionOutput(p, v))
      ensures trace == old(trace) + [DirectionOutput(p, v)]
    {
      state := state.(output := state.output + {p}, level := state.level[p := v]);
      trace := trace + [DirectionOutput(p, v)];
    }

    /** gpio_set_value */
    method GpioSetValue(p: Pin, v: Bit)
      modifies this
      ensures state == Apply(old(state), Set(p, v))
      ensures trace == old(trace) + [Set(p, v)]
    {
      state := state.(level := state.level[p := v]);
      trace := trace + [Set(p, v)];
    }

    /** udelay */
    method Udelay(us: nat)
      modifies this
      ensures state == Apply(old(state), Delay(us))
      ensures trace == old(trace) + [Delay(us)]
    {
      trace := trace + [Delay(us)];
    }

    /** mdelay, logged in microseconds */
    method Mdelay(ms: nat)
      modifies this
      ensures state == Apply(old(state), Delay(1000 * ms))
      ensures trace == old(trace) + [Delay(1000 * ms)]
    {
      trace := trace + [Delay(1000 * ms)];
    }

    /** spin_lock: recorded only; the model has no concurrency. */
    method SpinLock()
      modifies this
      ensures state == Apply(old(state), Lock)
      ensures trace == old(trace) + [Lock]
    {
      trace := trace + [Lock];
    }

    /** spin_unlock */
    method SpinUnlock()
      modifies this
      ensures state == Apply(old(state), Unlock)
      ensures trace == old(trace) + [Unlock]
    {
      trace := trace + [Unlock];
    }

    /** spin_lock_init */
    method SpinLockInit()
      modifies this
      ensures state == Apply(old(state), LockInit)
      ensures trace == old(trace) + [LockInit]
    {
      trace := trace + [LockInit];
    }

    /** register_chrdev: returns the oracle's major number, or its error. */
    method RegisterChrdev() returns (major: int)
      modifies this
      ensures major == oracle.chrdev
      ensures state == Apply(old(state), Registered(major))
      ensures trace == old(trace) + [Registered(major)]
    {
      major := oracle.chrdev;
      if major >= 0 {
        state := state.(chrdev := true);
      }
      trace := trace + [Registered(major)];
    }

    /** unregister_chrdev */
    method UnregisterChrdev(major: int)
      modifies this
      ensures state == Apply(old(state), Unregistered(major))
      ensures trace == old(trace) + [Unregistered(major)]
    {
      state := state.(chrdev := false);
      trace := trace + [Unregistered(major)];
    }

    /** class_create: returns the oracle's pointer. */
    method ClassCreate() returns (c: Ptr)
      modifies this
      ensures c == oracle.lcdClass
      ensures state == Apply(old(state), ClassCreated(!IsErr(c)))
      ensures trace == old(trace) + [ClassCreated(!IsErr(c))]
    {
      c := oracle.lcdClass;
      if !IsErr(c) {
        state := state.(classAlive := true);
      }
      trace := trace + [ClassCreated(!IsErr(c))];
    }

    /** class_destroy */
    method ClassDestroy()
      modifies this
      ensures state == Apply(old(state), ClassDestroyed)
      ensures trace == old(trace) + [ClassDestroyed]
    {
      state := state.(classAlive := false);
      trace := trace + [ClassDestroyed];
    }

    /** device_create: returns the oracle's pointer. */
    method DeviceCreate() returns (d: Ptr)
      modifies this
      ensures d == oracle.dev
      ensures state == Apply(old(state), DeviceCreated(!IsErr(d)))
      ensures trace == old(trace) + [DeviceCreated(!IsErr(d))]
    {
      d := oracle.dev;
      if !IsErr(d) {
        state := state.(deviceAlive := true);
      }
      trace := trace + [DeviceCreated(!IsErr(d))];
    }

    /** device_destroy */
    method DeviceDestroy()
      modifies this
      ensures state == Apply(old(state), DeviceDestroyed)
      ensures trace == old(trace) + [DeviceDestroyed]
    {
      state := state.(deviceAlive := false);
      trace := trace + [DeviceDestroyed];
    }
  }
}
