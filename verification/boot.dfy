/**
 * The boot sequence of odrive_main (Firmware/MotorControl/main.cpp:249-321)
 * and the part of the FreeRTOS idle hook that depends on it
 * (Firmware/MotorControl/main.cpp:223-246).
 *
 * odrive_main is recorded as a trace of the steps it performs. The hardware
 * behind each step is not modelled; the only result it looks at is whether
 * an axis set itself up, and a failure there parks the task in an endless
 * loop, which this model reports as the outcome Hung.
 */
module Boot {

  /** One step of odrive_main. */
  datatype Event =
    | BoardInit
    | StartGeneralPurposeAdc
    | RouteUartPins
    | InitCommunication
    | PwmInInit
    | AxisSetup(axis: nat, ok: bool)
    | EncoderSetup(axis: nat)
    | StartAdcPwm
    | StartThread(axis: nat)
    | StartAnalogThread

  /** How odrive_main ends: it returns 0, or it spins forever after an axis failed to set up. */
  datatype Outcome = Booted | Hung(axis: nat)

  /** GPIO 1 and 2 are handed to UART4 only on a v3 board with minor version 3 or more, and only when UART is enabled. */
  predicate UartRouted(hwMajor: nat, hwMinor: nat, enableUart: bool) {
    hwMajor == 3 && hwMinor >= 3 && enableUart
  }

  /** The steps before the axes are set up. */
  function Prelude(uart: bool): seq<Event> {
    [BoardInit, StartGeneralPurposeAdc] + (if uart then [RouteUartPins] else []) + [InitCommunication, PwmInInit]
  }

  /** Successful setup of axes 0 .. n-1, in order. */
  function Setups(n: nat): seq<Event> {
    seq(n, i requires 0 <= i < n => AxisSetup(i, true))
  }

  /** Encoder setup of axes 0 .. n-1, in order. */
  function EncoderSetups(n: nat): seq<Event> {
    seq(n, i requires 0 <= i < n => EncoderSetup(i))
  }

  /** The state machine threads of axes 0 .. n-1, started in order. */
  function Threads(n: nat): seq<Event> {
    seq(n, i requires 0 <= i < n => StartThread(i))
  }

  /** Everything a complete boot does before it starts any thread. */
  function BeforeThreads(n: nat, uart: bool): seq<Event> {
    Prelude(uart) + Setups(n) + EncoderSetups(n) + [StartAdcPwm]
  }

  /** The steps of a boot in which every axis set itself up. */
  function BootTrace(n: nat, uart: bool): seq<Event> {
    BeforeThreads(n, uart) + Threads(n) + [StartAnalogThread]
  }

  /** The steps of a boot that stopped because axis i failed to set up. */
  function HungTrace(uart: bool, i: nat): seq<Event> {
    Prelude(uart) + Setups(i) + [AxisSetup(i, false)]
  }

  /** No thread is started, and the analog thread is not started, before the threads phase. */
  lemma {:induction false} BeforeThreadsStartsNothing(n: nat, uart: bool)
    ensures forall e :: e in BeforeThreads(n, uart) ==> !e.StartThread? && e != StartAnalogThread
    ensures forall i :: 0 <= i < n ==> AxisSetup(i, true) in BeforeThreads(n, uart) && EncoderSetup(i) in BeforeThreads(n, uart)
    ensures StartAdcPwm in BeforeThreads(n, uart) && InitCommunication in BeforeThreads(n, uart)
  {
    var p, s, c := Prelude(uart), Setups(n), EncoderSetups(n);
    assert BeforeThreads(n, uart) == p + s + c + [StartAdcPwm];
    forall e | e in BeforeThreads(n, uart) ensures !e.StartThread? && e != StartAnalogThread {
      if e in s {
        var j :| 0 <= j < n && s[j] == e;
      } else if e in c {
        var j :| 0 <= j < n && c[j] == e;
      }
    }
    forall i | 0 <= i < n ensures AxisSetup(i, true) in BeforeThreads(n, uart) && EncoderSetup(i) in BeforeThreads(n, uart) {
      assert s[i] == AxisSetup(i, true) && c[i] == EncoderSetup(i);
    }
    assert InitCommunication in p;
  }

  /**
   * In a complete boot, every other step comes before the first thread is
   * started: the threads are started in axis order, after every axis and
   * every encoder was set up and after PWM was started, and the analog
   * thread is started last.
   */
  lemma {:induction false} ThreadsStartLast(n: nat, uart: bool)
    ensures var t := BootTrace(n, uart);
      && t[|t| - 1] == StartAnalogThread
      && (forall q :: 0 <= q < |t| && t[q].StartThread? ==> t[q].axis < n)
      && (forall p, q :: 0 <= p < |t| && 0 <= q < |t| && t[q].StartThread? && !t[p].StartThread? && p != |t| - 1 ==> p < q)
      && (forall q, r :: 0 <= q < r < |t| && t[q].StartThread? && t[r].StartThread? ==> t[q].axis < t[r].axis)
  {
    var b, th := BeforeThreads(n, uart), Threads(n);
    var t := BootTrace(n, uart);
    BeforeThreadsStartsNothing(n, uart);
    assert t == b + th + [StartAnalogThread];
    assert forall p :: 0 <= p < |b| ==> t[p] == b[p];
    assert forall q :: |b| <= q < |b| + n ==> t[q] == th[q - |b|];
    forall p | 0 <= p < |b| ensures !t[p].StartThread? {
      assert b[p] in b;
    }
  }

  /**
   * board_init, which starts the timers synchronously, is the first step of a
   * boot, so the timers run before PWM output is enabled.
   */
  lemma TimersStartBeforePwm(n: nat, uart: bool)
    ensures var t := BootTrace(n, uart); t[0] == BoardInit && StartAdcPwm in t[1..]
  {
    var t := BootTrace(n, uart);
    var b := BeforeThreads(n, uart);
    assert t[..|b|] == b;
    assert t[|b| - 1] == StartAdcPwm;
    assert t[1..][|b| - 2] == StartAdcPwm;
  }

  /** Every axis is set up, has its encoder set up and gets its thread in a complete boot. */
  lemma {:induction false} BootTraceCovers(n: nat, uart: bool)
    ensures forall i :: 0 <= i < n ==>
              AxisSetup(i, true) in BootTrace(n, uart) && EncoderSetup(i) in BootTrace(n, uart)
              && StartThread(i) in BootTrace(n, uart)
  {
    var b, th := BeforeThreads(n, uart), Threads(n);
    BeforeThreadsStartsNothing(n, uart);
    assert BootTrace(n, uart) == b + th + [StartAnalogThread];
    forall i | 0 <= i < n ensures StartThread(i) in BootTrace(n, uart) {
      assert th[i] == StartThread(i);
    }
  }

  /** A complete boot contains no failed axis setup, and routes the UART pins exactly when asked to. */
  lemma {:induction false} BootTraceClean(n: nat, uart: bool)
    ensures forall e :: e in BootTrace(n, uart) ==> !(e.AxisSetup? && !e.ok)
    ensures (RouteUartPins in BootTrace(n, uart)) == uart
  {
    var p, s, c, th := Prelude(uart), Setups(n), EncoderSetups(n), Threads(n);
    assert BootTrace(n, uart) == p + s + c + [StartAdcPwm] + th + [StartAnalogThread];
    assert forall j :: 0 <= j < n ==> s[j].ok && !th[j].AxisSetup? && !c[j].AxisSetup?;
    assert forall j :: 0 <= j < n ==> s[j] != RouteUartPins && th[j] != RouteUartPins && c[j] != RouteUartPins;
  }

  /**
   * A boot that hangs stops at the first axis that fails: every earlier axis
   * set itself up, and nothing after the axis setup loop happens, so no
   * thread is started.
   */
  lemma {:induction false} HungStopsAtFailure(uart: bool, i: nat)
    ensures var t := HungTrace(uart, i);
      && t[|t| - 1] == AxisSetup(i, false)
      && (forall j :: 0 <= j < i ==> AxisSetup(j, true) in t)
      && (forall e :: e in t ==> !e.StartThread? && !e.EncoderSetup? && e != StartAdcPwm && e != StartAnalogThread)
      && (forall e :: e in t[..|t| - 1] ==> !(e.AxisSetup? && !e.ok))
  {
    var p, s := Prelude(uart), Setups(i);
    var t := HungTrace(uart, i);
    assert t == p + s + [AxisSetup(i, false)];
    assert t[..|t| - 1] == p + s;
    forall j | 0 <= j < i ensures AxisSetup(j, true) in t {
      assert s[j] == AxisSetup(j, true);
    }
    forall e | e in p + s ensures !e.StartThread? && !e.EncoderSetup? && e != StartAdcPwm && e != StartAnalogThread && !(e.AxisSetup? && !e.ok) {
      if e in s {
        var j :| 0 <= j < i && s[j] == e;
      }
    }
  }

  /** The number of bytes in a FreeRTOS stack word (StackType_t) on this Cortex-M4 port. */
  const StackWordBytes: nat := 4

  /** The stack headroom, in bytes, of each axis thread, from its high-water mark in words. */
  function StackSpaces(highWater: seq<nat>): seq<nat> {
    seq(|highWater|, i requires 0 <= i < |highWater| => highWater[i] * StackWordBytes)
  }

  /**
   * The per-axis values the idle hook computes as written: the transform
   * ignores the axis it is given and queries axes[1] every time.
   */
  function StackSpacesAsWritten(highWater: seq<nat>): seq<nat>
    requires |highWater| >= 2
  {
    seq(|highWater|, _ => highWater[1] * StackWordBytes)
  }

  /** The least element of a non-empty sequence, as std::min_element returns it. */
  function MinOf(xs: seq<nat>): (m: nat)
    requires |xs| > 0
    ensures m in xs
    ensures forall x :: x in xs ==> m <= x
  {
    if |xs| == 1 then xs[0]
    else
      var rest := MinOf(xs[..|xs| - 1]);
      assert forall x :: x in xs ==> x in xs[..|xs| - 1] || x == xs[|xs| - 1];
      if xs[|xs| - 1] < rest then xs[|xs| - 1] else rest
  }

  /** std::min_element over a non-empty range: a scan that keeps the least value seen so far. */
  method MinElement(xs: seq<nat>) returns (m: nat)
    requires |xs| > 0
    ensures m == MinOf(xs)
  {
    m := xs[0];
    var i := 1;
    assert xs[..1] == [xs[0]];
    while i < |xs|
      invariant 1 <= i <= |xs|
      invariant m == MinOf(xs[..i])
    {
      assert xs[..i + 1][..i] == xs[..i];
      if xs[i] < m {
        m := xs[i];
      }
      i := i + 1;
    }
    assert xs[..i] == xs;
  }

  /**
   * The corrected statistic is the headroom of some axis thread, and no axis
   * thread has less.
   */
  lemma {:induction false} MinStackSpaceIsLeast(highWater: seq<nat>)
    requires |highWater| > 0
    ensures exists i :: 0 <= i < |highWater| && MinOf(StackSpaces(highWater)) == highWater[i] * StackWordBytes
    ensures forall i :: 0 <= i < |highWater| ==> MinOf(StackSpaces(highWater)) <= highWater[i] * StackWordBytes
  {
    var spaces := StackSpaces(highWater);
    var m := MinOf(spaces);
    var i :| 0 <= i < |spaces| && spaces[i] == m;
    assert m == highWater[i] * StackWordBytes;
    forall j | 0 <= j < |highWater| ensures m <= highWater[j] * StackWordBytes {
      assert spaces[j] in spaces;
    }
  }

  /** As written, the statistic is the headroom of axis 1, whatever the other axes use. */
  lemma {:induction false} AsWrittenReportsAxisOne(highWater: seq<nat>)
    requires |highWater| >= 2
    ensures MinOf(StackSpacesAsWritten(highWater)) == highWater[1] * StackWordBytes
  {
    var spaces := StackSpacesAsWritten(highWater);
    assert spaces[0] == highWater[1] * StackWordBytes;
  }

  /**
   * With axis 0 at 10 words of headroom and axis 1 at 50, the idle hook as
   * written reports 200 bytes; the least headroom is 40 bytes.
   */
  lemma StackSpaceMisreported()
    ensures MinOf(StackSpacesAsWritten([10, 50])) == 200
    ensures MinOf(StackSpaces([10, 50])) == 40
  {
    AsWrittenReportsAxisOne([10, 50]);
    MinStackSpaceIsLeast([10, 50]);
    assert StackSpaces([10, 50]) == [40, 200];
  }

  /** The boot flag and the one statistic of odrv.system_stats_ that this model keeps. */
  class System {
    /** AXIS_COUNT. */
    const axisCount: nat
    /** odrv.system_stats_.fully_booted. */
    var fullyBooted: bool
    /** odrv.system_stats_.min_stack_space_axis, in bytes. */
    var minStackSpaceAxis: nat
    /** The steps odrive_main has performed. */
    ghost var trace: seq<Event>

    /** The system before odrive_main runs: not booted, nothing done. */
    constructor(axisCount: nat)
      ensures this.axisCount == axisCount
      ensures !fullyBooted && minStackSpaceAxis == 0 && trace == []
    {
      this.axisCount := axisCount;
      fullyBooted, minStackSpaceAxis, trace := false, 0, [];
    }

    /** A step whose outcome odrive_main does not look at. */
    method Perform(e: Event)
      modifies this`trace
      ensures trace == old(trace) + [e]
    {
      trace := trace + [e];
    }

    /** Axis::setup for axis i; whether it succeeds depends on hardware this model does not see. */
    method SetupAxis(i: nat) returns (ok: bool)
      modifies this`trace
      ensures trace == old(trace) + [AxisSetup(i, ok)]
    {
      ok := *;
      trace := trace + [AxisSetup(i, ok)];
    }

    /**
     * odrive_main: board and ADC start, optional UART pin routing,
     * communication, PWM input, every axis's setup (a failure hangs), every
     * encoder's setup, PWM/ADC start, the axis threads in order, the analog
     * thread, and finally fully_booted. Only a complete boot sets the flag.
     * It runs once, from the start-up task, before anything else was done.
     */
    method OdriveMain(hwMajor: nat, hwMinor: nat, enableUart: bool) returns (outcome: Outcome)
      requires trace == []
      modifies this`trace, this`fullyBooted
      ensures outcome.Booted? ==>
                fullyBooted && trace == BootTrace(axisCount, UartRouted(hwMajor, hwMinor, enableUart))
      ensures outcome.Hung? ==>
                outcome.axis < axisCount && fullyBooted == old(fullyBooted)
                && trace == HungTrace(UartRouted(hwMajor, hwMinor, enableUart), outcome.axis)
    {
      ghost var uart := UartRouted(hwMajor, hwMinor, enableUart);
      Perform(BoardInit);
      Perform(StartGeneralPurposeAdc);
      if UartRouted(hwMajor, hwMinor, enableUart) {
        Perform(RouteUartPins);
      }
      Perform(InitCommunication);
      Perform(PwmInInit);
      assert trace == Prelude(uart);
      var failed, i := SetupAxes();
      if failed {
        // the source spins in for (;;) here
        return Hung(i);
      }
      SetupEncoders();
      Perform(StartAdcPwm);
      // osDelay(1500) is not modelled
      StartThreads();
      Perform(StartAnalogThread);
      fullyBooted := true;
      outcome := Booted;
    }

    /** The axis setup loop of odrive_main: it stops at the first axis whose setup fails. */
    method SetupAxes() returns (failed: bool, i: nat)
      modifies this`trace
      ensures failed ==> i < axisCount && trace == old(trace) + Setups(i) + [AxisSetup(i, false)]
      ensures !failed ==> trace == old(trace) + Setups(axisCount)
    {
      i := 0;
      while i < axisCount
        invariant i <= axisCount
        invariant trace == old(trace) + Setups(i)
      {
        var ok := SetupAxis(i);
        if !ok {
          return true, i;
        }
        assert Setups(i + 1) == Setups(i) + [AxisSetup(i, true)];
        i := i + 1;
      }
      failed := false;
    }

    /** The encoder setup loop of odrive_main; its results are ignored. */
    method SetupEncoders()
      modifies this`trace
      ensures trace == old(trace) + EncoderSetups(axisCount)
    {
      var i := 0;
      while i < axisCount
        invariant i <= axisCount
        invariant trace == old(trace) + EncoderSetups(i)
      {
        Perform(EncoderSetup(i));
        assert EncoderSetups(i + 1) == EncoderSetups(i) + [EncoderSetup(i)];
        i := i + 1;
      }
    }

    /** The loop of odrive_main that starts the axis state machine threads. */
    method StartThreads()
      modifies this`trace
      ensures trace == old(trace) + Threads(axisCount)
    {
      var i := 0;
      while i < axisCount
        invariant i <= axisCount
        invariant trace == old(trace) + Threads(i)
      {
        Perform(StartThread(i));
        assert Threads(i + 1) == Threads(i) + [StartThread(i)];
        i := i + 1;
      }
    }

    /**
     * The axis stack statistic of vApplicationIdleHook as written
     * (Firmware/MotorControl/main.cpp:229-230): it is updated only once the
     * system is fully booted, but every entry comes from axes[1].
     */
    method IdleHookAsWritten(highWater: seq<nat>)
      requires |highWater| == axisCount && axisCount >= 2
      modifies this`minStackSpaceAxis
      ensures !fullyBooted ==> minStackSpaceAxis == old(minStackSpaceAxis)
      ensures fullyBooted ==> minStackSpaceAxis == highWater[1] * StackWordBytes
    {
      if fullyBooted {
        var spaces := StackSpacesAsWritten(highWater);
        minStackSpaceAxis := MinElement(spaces);
        AsWrittenReportsAxisOne(highWater);
      }
    }

    /**
     * The axis stack statistic of vApplicationIdleHook as intended: once the
     * system is fully booted, the least stack headroom over the axis
     * threads, given their high-water marks in words.
     */
    method IdleHook(highWater: seq<nat>)
      requires |highWater| == axisCount && axisCount >= 1
      modifies this`minStackSpaceAxis
      ensures !fullyBooted ==> minStackSpaceAxis == old(minStackSpaceAxis)
      ensures fullyBooted ==> minStackSpaceAxis == MinOf(StackSpaces(highWater))
    {
      if fullyBooted {
        var spaces := StackSpaces(highWater);
        minStackSpaceAxis := MinElement(spaces);
      }
    }
  }
}
