/** req_gpio and the freeing of the seven lines.

    req_gpio asks for RS, RW, E, DB4, DB5, DB6 and DB7 in that order and
    gives up at the first request the kernel refuses, returning -1 with the
    lines it already got still held; only when all seven are granted does it
    make each an output at level 0 and return 0.  lcd_release and module
    cleanup free the seven lines one after the other, whoever holds them. */
module Pins {
  import opened Platform

  /** The position in `LcdPins`, from `i` on, of the first line whose
      request is refused (refused by the kernel, or already held), or 7 when
      every one is granted. */
  function FirstRefused(refused: set<Pin>, owned: set<Pin>, i: nat): (f: nat)
    requires i <= 7
    ensures i <= f <= 7
    ensures forall j | i <= j < f :: LcdPins[j] !in refused && LcdPins[j] !in owned
    ensures f < 7 ==> LcdPins[f] in refused || LcdPins[f] in owned
    decreases 7 - i
  {
    if i == 7 then 7
    else if LcdPins[i] in refused || LcdPins[i] in owned then i
    else FirstRefused(refused, owned, i + 1)
  }

  /** The first `n` requests, all granted. */
  function Granted(n: nat): seq<Event>
    requires n <= 7
  {
    if n == 0 then [] else Granted(n - 1) + [Request(LcdPins[n - 1], true)]
  }

  /** The first `n` lines. */
  function Claimed(n: nat): set<Pin>
    requires n <= 7
  {
    set p | p in LcdPins[..n]
  }

  /** The first `n` lines made outputs at level 0. */
  function Directed(n: nat): seq<Event>
    requires n <= 7
  {
    if n == 0 then [] else Directed(n - 1) + [DirectionOutput(LcdPins[n - 1], 0)]
  }

  /** Levels after the first `n` lines have been driven to 0. */
  function Lowered(level: map<Pin, Bit>, n: nat): map<Pin, Bit>
    requires n <= 7
  {
    if n == 0 then level else Lowered(level, n - 1)[LcdPins[n - 1] := 0]
  }

  /** The calls req_gpio makes when the kernel refuses `refused` and the
      lines `owned` are already held: the granted requests, then either the
      refused one or the seven direction settings. */
  function ReqGpioEvents(refused: set<Pin>, owned: set<Pin>): seq<Event> {
    var f := FirstRefused(refused, owned, 0);
    if f < 7 then Granted(f) + [Request(LcdPins[f], false)] else Granted(7) + Directed(7)
  }

  /** What req_gpio returns. */
  function ReqGpioResult(refused: set<Pin>, owned: set<Pin>): int {
    if FirstRefused(refused, owned, 0) < 7 then -1 else 0
  }

  /** req_gpio: the seven requests in order, giving up with -1 at the
      first refusal, then the seven directions. */
  method ReqGpio(k: Kernel) returns (r: int)
    modifies k
    ensures r == ReqGpioResult(k.oracle.refused, old(k.state.owned))
    ensures k.trace == old(k.trace) + ReqGpioEvents(k.oracle.refused, old(k.state.owned))
    ensures k.state == Run(old(k.state), ReqGpioEvents(k.oracle.refused, old(k.state.owned)))
  {
    ghost var t0, s0 := k.trace, k.state;
    var ok := RequestLine(k, 0, t0, s0);
    if !ok {
      return -1;
    }
    ok := RequestLine(k, 1, t0, s0);
    if !ok {
      return -1;
    }
    ok := RequestLine(k, 2, t0, s0);
    if !ok {
      return -1;
    }
    ok := RequestLine(k, 3, t0, s0);
    if !ok {
      return -1;
    }
    ok := RequestLine(k, 4, t0, s0);
    if !ok {
      return -1;
    }
    ok := RequestLine(k, 5, t0, s0);
    if !ok {
      return -1;
    }
    ok := RequestLine(k, 6, t0, s0);
    if !ok {
      return -1;
    }
    SetOutputs(k);
    Extend(t0, s0, Granted(7), Directed(7));
    r := 0;
  }

  /** One request of req_gpio, for line `i` of `LcdPins`, made after the
      first `i` were granted (`t0` and `s0` are the log and state req_gpio
      started from).  If it is granted req_gpio goes on; if not, what has
      happened is all req_gpio does, and it returns -1. */
  method RequestLine(k: Kernel, i: nat, ghost t0: seq<Event>, ghost s0: State) returns (ok: bool)
    requires i < 7
    requires k.trace == t0 + Granted(i) && k.state == Run(s0, Granted(i))
    requires forall j | 0 <= j < i :: LcdPins[j] !in k.oracle.refused && LcdPins[j] !in s0.owned
    modifies k
    ensures ok == (LcdPins[i] !in k.oracle.refused && LcdPins[i] !in s0.owned)
    ensures ok ==> k.trace == t0 + Granted(i + 1) && k.state == Run(s0, Granted(i + 1))
    ensures !ok ==> (ReqGpioResult(k.oracle.refused, s0.owned) == -1
      && k.trace == t0 + ReqGpioEvents(k.oracle.refused, s0.owned)
      && k.state == Run(s0, ReqGpioEvents(k.oracle.refused, s0.owned)))
  {
    GrantedRun(s0, i);
    Distinct(i);
    ok := k.GpioRequest(LcdPins[i]);
    ExtendOne(t0, s0, Granted(i), Request(LcdPins[i], ok));
  }

  /** The second half of req_gpio: each line an output at level 0. */
  method SetOutputs(k: Kernel)
    modifies k
    ensures k.trace == old(k.trace) + Directed(7)
    ensures k.state == Run(old(k.state), Directed(7))
  {
    ghost var t0, s0 := k.trace, k.state;
    OutputLine(k, 0, t0, s0);
    OutputLine(k, 1, t0, s0);
    OutputLine(k, 2, t0, s0);
    OutputLine(k, 3, t0, s0);
    OutputLine(k, 4, t0, s0);
    OutputLine(k, 5, t0, s0);
    OutputLine(k, 6, t0, s0);
  }

  /** One gpio_direction_output of req_gpio, for line `i` of `LcdPins`. */
  method OutputLine(k: Kernel, i: nat, ghost t0: seq<Event>, ghost s0: State)
    requires i < 7
    requires k.trace == t0 + Directed(i) && k.state == Run(s0, Directed(i))
    modifies k
    ensures k.trace == t0 + Directed(i + 1) && k.state == Run(s0, Directed(i + 1))
  {
    k.GpioDirectionOutput(LcdPins[i], 0);
    ExtendOne(t0, s0, Directed(i), DirectionOutput(LcdPins[i], 0));
  }

  /** Line `i` is not among the lines before it. */
  lemma Distinct(i: nat)
    requires i < 7
    ensures LcdPins[i] !in Claimed(i)
  {
  }

  /** Granted requests add their lines to those held and change nothing else. */
  lemma {:induction false} GrantedRun(s: State, n: nat)
    requires n <= 7
    ensures Run(s, Granted(n)) == s.(owned := s.owned + Claimed(n))
  {
    if n == 0 {
      assert Claimed(0) == {};
      assert s.owned + {} == s.owned;
    } else {
      GrantedRun(s, n - 1);
      RunSnoc(s, Granted(n - 1), Request(LcdPins[n - 1], true));
      assert LcdPins[..n] == LcdPins[..n - 1] + [LcdPins[n - 1]];
      assert Claimed(n) == Claimed(n - 1) + {LcdPins[n - 1]};
    }
  }

  /** Only request calls, for the first `n` lines. */
  lemma {:induction false} GrantedOnly(n: nat)
    requires n <= 7
    ensures |Granted(n)| == n
    ensures forall j | 0 <= j < n :: Granted(n)[j] == Request(LcdPins[j], true)
  {
    if n > 0 {
      GrantedOnly(n - 1);
    }
  }

  /** Only direction calls, for the first `n` lines. */
  lemma {:induction false} DirectedOnly(n: nat)
    requires n <= 7
    ensures forall e | e in Directed(n) :: e.DirectionOutput?
  {
    if n > 0 {
      DirectedOnly(n - 1);
    }
  }

  /** req_gpio calls nothing but gpio_request and gpio_direction_output:
      no delay, no lock, no level change. */
  lemma ReqGpioCalls(refused: set<Pin>, owned: set<Pin>)
    ensures forall e | e in ReqGpioEvents(refused, owned) :: e.Request? || e.DirectionOutput?
  {
    var f := FirstRefused(refused, owned, 0);
    GrantedOnly(f);
    DirectedOnly(7);
    forall e | e in Granted(f)
      ensures e.Request?
    {
      var j :| 0 <= j < |Granted(f)| && Granted(f)[j] == e;
    }
  }

  /** Making lines outputs adds them to the outputs and drives them to 0. */
  lemma {:induction false} DirectedRun(s: State, n: nat)
    requires n <= 7
    ensures Run(s, Directed(n)) == s.(output := s.output + Claimed(n), level := Lowered(s.level, n))
  {
    if n == 0 {
      assert Claimed(0) == {};
      assert s.output + {} == s.output;
    } else {
      DirectedRun(s, n - 1);
      RunSnoc(s, Directed(n - 1), DirectionOutput(LcdPins[n - 1], 0));
      assert LcdPins[..n] == LcdPins[..n - 1] + [LcdPins[n - 1]];
      assert Claimed(n) == Claimed(n - 1) + {LcdPins[n - 1]};
    }
  }

  /** Every line driven reads 0. */
  lemma {:induction false} LoweredAt(level: map<Pin, Bit>, n: nat, p: Pin)
    requires n <= 7 && p in Claimed(n)
    ensures p in Lowered(level, n) && Lowered(level, n)[p] == 0
  {
    if p != LcdPins[n - 1] {
      assert LcdPins[..n] == LcdPins[..n - 1] + [LcdPins[n - 1]];
      LoweredAt(level, n - 1, p);
    }
  }

  /** req_gpio returns 0 exactly when none of the seven lines is refused by
      the kernel or already held, and -1 otherwise. */
  lemma ReqGpioSucceedsIff(refused: set<Pin>, owned: set<Pin>)
    ensures ReqGpioResult(refused, owned) == 0 <==>
      forall p | p in LcdPins :: p !in refused && p !in owned
    ensures ReqGpioResult(refused, owned) != 0 ==> ReqGpioResult(refused, owned) == -1
  {
    var f := FirstRefused(refused, owned, 0);
    if f < 7 {
      assert LcdPins[f] in LcdPins;
    }
  }

  /** When the request of line `f` is the first refused: req_gpio returns
      -1, the lines before `f` are held (and stay held: nothing frees them),
      nothing else changes (no direction, no level), and its calls are
      requests for lines up to `f` only, so no later line is ever asked for. */
  lemma ReqGpioRefused(refused: set<Pin>, s: State, f: nat)
    requires f == FirstRefused(refused, s.owned, 0) && f < 7
    ensures ReqGpioResult(refused, s.owned) == -1
    ensures Run(s, ReqGpioEvents(refused, s.owned)) == s.(owned := s.owned + Claimed(f))
    ensures forall e | e in ReqGpioEvents(refused, s.owned) :: e.Request? && e.pin in LcdPins[..f + 1]
  {
    GrantedRun(s, f);
    RunSnoc(s, Granted(f), Request(LcdPins[f], false));
    GrantedOnly(f);
    var es := ReqGpioEvents(refused, s.owned);
    forall e | e in es
      ensures e.Request? && e.pin in LcdPins[..f + 1]
    {
      var j :| 0 <= j < |es| && es[j] == e;
      assert LcdPins[..f + 1][j] == LcdPins[j];
    }
  }

  /** When every request is granted: req_gpio returns 0 and the seven lines
      are held, outputs, and at level 0; nothing else changes. */
  lemma ReqGpioGranted(refused: set<Pin>, s: State)
    requires FirstRefused(refused, s.owned, 0) == 7
    ensures ReqGpioResult(refused, s.owned) == 0
    ensures Run(s, ReqGpioEvents(refused, s.owned)) ==
      s.(owned := s.owned + Claimed(7), output := s.output + Claimed(7), level := Lowered(s.level, 7))
    ensures forall p | p in LcdPins ::
      p in Run(s, ReqGpioEvents(refused, s.owned)).owned && p in Run(s, ReqGpioEvents(refused, s.owned)).output
      && Level(Run(s, ReqGpioEvents(refused, s.owned)), p) == 0
  {
    GrantedRun(s, 7);
    var g := Run(s, Granted(7));
    RunAppend(s, Granted(7), Directed(7));
    DirectedRun(g, 7);
    assert LcdPins[..7] == LcdPins;
    forall p | p in LcdPins
      ensures p in Lowered(g.level, 7) && Lowered(g.level, 7)[p] == 0
    {
      LoweredAt(g.level, 7, p);
    }
  }

  /** The seven lines freed, in request order, the first `n` of them. */
  function Freed(n: nat): seq<Event>
    requires n <= 7
  {
    if n == 0 then [] else Freed(n - 1) + [Free(LcdPins[n - 1])]
  }

  /** The seven gpio_free calls that lcd_release and module cleanup both
      make. */
  method FreeLines(k: Kernel)
    modifies k
    ensures k.trace == old(k.trace) + Freed(7)
    ensures k.state == Run(old(k.state), Freed(7))
  {
    ghost var t0, s0 := k.trace, k.state;
    FreeLine(k, 0, t0, s0);
    FreeLine(k, 1, t0, s0);
    FreeLine(k, 2, t0, s0);
    FreeLine(k, 3, t0, s0);
    FreeLine(k, 4, t0, s0);
    FreeLine(k, 5, t0, s0);
    FreeLine(k, 6, t0, s0);
  }

  /** gpio_free of line `i` of `LcdPins`. */
  method FreeLine(k: Kernel, i: nat, ghost t0: seq<Event>, ghost s0: State)
    requires i < 7
    requires k.trace == t0 + Freed(i) && k.state == Run(s0, Freed(i))
    modifies k
    ensures k.trace == t0 + Freed(i + 1) && k.state == Run(s0, Freed(i + 1))
  {
    k.GpioFree(LcdPins[i]);
    ExtendOne(t0, s0, Freed(i), Free(LcdPins[i]));
  }

  /** Freeing lines takes them out of the held lines and the outputs,
      whoever held them, and leaves levels and registrations alone. */
  lemma {:induction false} FreedRun(s: State, n: nat)
    requires n <= 7
    ensures Run(s, Freed(n)) == s.(owned := s.owned - Claimed(n), output := s.output - Claimed(n))
  {
    if n == 0 {
      assert Claimed(0) == {};
      assert s.owned - {} == s.owned && s.output - {} == s.output;
    } else {
      FreedRun(s, n - 1);
      RunSnoc(s, Freed(n - 1), Free(LcdPins[n - 1]));
      assert LcdPins[..n] == LcdPins[..n - 1] + [LcdPins[n - 1]];
      assert Claimed(n) == Claimed(n - 1) + {LcdPins[n - 1]};
    }
  }
}
