/**
 * The power management of printers/brother.go, stated on values: one
 * function per step of the state machine (ensurePrinterOn, a fire of the
 * auto-shutdown timer, Close), each giving the error returned, the state
 * after the step, the levels written to the relay pin and the probes and
 * sleeps performed. The Printer class in module Printers is proved to
 * perform exactly these steps; the lemmas here say what the steps promise.
 */
module Power {
  import opened Wrappers
  import opened Config
  import opened Gpio

  /** The auto-shutdown timer: stopped, or armed to fire at `deadline` (seconds on the printer's clock). */
  datatype Timer = Stopped | Armed(deadline: int)

  /** The relay as the printer sees it: absent, or present and believed on or off. */
  datatype RelayView = NoRelay | Wired(on: bool)

  /** What the power manager depends on: the relay's believed state, the timer and the clock. */
  datatype PowerState = PowerState(relay: RelayView, timer: Timer, clock: int)

  /** What the printer does outside itself: a liveness probe, a sleep, or a run of the print command. */
  datatype Event = Probed(ok: bool) | Slept(seconds: int) | Ran(args: seq<string>, ok: bool)

  datatype PowerError = RelayWriteFailed | NoResponse

  /** The outcome of one step: its error, the new state, the pin writes and the events, in order. */
  datatype Step = Step(err: Option<PowerError>, post: PowerState, written: seq<Level>, events: seq<Event>)

  /**
   * The invariant the steps keep: without a relay the timer never runs, and
   * an armed timer always has a relay that is on to switch off.
   */
  predicate Consistent(s: PowerState) {
    && (s.relay.NoRelay? ==> s.timer == Stopped)
    && (s.timer.Armed? ==> s.relay == Wired(true))
  }

  /** The outcome of probe `j`; the probes are supplied by the caller, and a probe beyond them fails. */
  function ProbeOk(probes: seq<bool>, j: nat): bool {
    j < |probes| && probes[j]
  }

  /** The most probes one call may run: the first and RetryAttempts-1 retries (no retries when that is not positive). */
  function ProbeBudget(cfg: PrinterConfig): (n: nat)
    ensures n >= 1
    ensures cfg.RetryAttempts >= 1 ==> n == cfg.RetryAttempts
  {
    if cfg.RetryAttempts > 1 then cfg.RetryAttempts else 1
  }

  /**
   * The number of probes run from probe `i` on: probing stops at the first
   * success or when the budget is spent.
   */
  function ProbesRunFrom(probes: seq<bool>, i: nat, budget: nat): (m: nat)
    requires i < budget
    ensures i < m <= budget
    ensures forall j :: i <= j < m - 1 ==> !ProbeOk(probes, j)
    ensures m < budget ==> ProbeOk(probes, m - 1)
    decreases budget - i
  {
    if ProbeOk(probes, i) || i + 1 == budget then i + 1 else ProbesRunFrom(probes, i + 1, budget)
  }

  /** The number of probes one call runs: up to and including the first success, at most the budget. */
  function ProbesRun(probes: seq<bool>, budget: nat): (m: nat)
    requires budget >= 1
    ensures 1 <= m <= budget
    ensures forall j :: 0 <= j < m - 1 ==> !ProbeOk(probes, j)
    ensures m < budget ==> ProbeOk(probes, m - 1)
  {
    ProbesRunFrom(probes, 0, budget)
  }

  /** The three properties in ProbesRun's contract determine the count. */
  lemma ProbesRunUnique(probes: seq<bool>, budget: nat, m: nat)
    requires 1 <= m <= budget
    requires forall j :: 0 <= j < m - 1 ==> !ProbeOk(probes, j)
    requires m == budget || ProbeOk(probes, m - 1)
    ensures ProbesRun(probes, budget) == m
  {
    var r := ProbesRun(probes, budget);
    if r < m {
      assert !ProbeOk(probes, r - 1);
    }
  }

  /**
   * The events of `m` probes: probe 0, then for each retry j (from 1) the
   * sleep GetRetryDelay(j - 1) followed by probe j.
   */
  function ProbeTrace(cfg: PrinterConfig, probes: seq<bool>, m: nat): seq<Event>
    decreases m
  {
    if m == 0 then []
    else if m == 1 then [Probed(ProbeOk(probes, 0))]
    else ProbeTrace(cfg, probes, m - 1) + [Slept(GetRetryDelay(cfg, m - 2)), Probed(ProbeOk(probes, m - 1))]
  }

  /** Probes and sleeps alternate: probe j at position 2j, the sleep before retry j+1 at 2j+1. */
  lemma {:induction false} ProbeTraceShape(cfg: PrinterConfig, probes: seq<bool>, m: nat)
    requires m >= 1
    ensures |ProbeTrace(cfg, probes, m)| == 2 * m - 1
    ensures forall j :: 0 <= j < m ==> ProbeTrace(cfg, probes, m)[2 * j] == Probed(ProbeOk(probes, j))
    ensures forall j :: 0 <= j < m - 1 ==>
      ProbeTrace(cfg, probes, m)[2 * j + 1] == Slept(cfg.RetryBaseDelaySeconds + j)
  {
    if m > 1 {
      ProbeTraceShape(cfg, probes, m - 1);
    }
  }

  /** The durations of the sleeps among `events`, in order. */
  function Sleeps(events: seq<Event>): seq<int>
    decreases |events|
  {
    if |events| == 0 then []
    else
      var rest := Sleeps(events[..|events| - 1]);
      match events[|events| - 1]
      case Slept(d) => rest + [d]
      case _ => rest
  }

  /** The sleeps between m probes are the first m-1 delays of the retry schedule, in order. */
  lemma {:induction false} ProbeTraceSleeps(cfg: PrinterConfig, probes: seq<bool>, m: nat)
    requires 1 <= m <= ProbeBudget(cfg)
    ensures Sleeps(ProbeTrace(cfg, probes, m)) == RetrySchedule(cfg)[..m - 1]
    decreases m
  {
    var schedule := RetrySchedule(cfg);
    if m == 1 {
      assert ProbeTrace(cfg, probes, 1)[..0] == [];
    } else {
      ProbeTraceSleeps(cfg, probes, m - 1);
      var before := ProbeTrace(cfg, probes, m - 1);
      var t := ProbeTrace(cfg, probes, m);
      assert t == before + [Slept(GetRetryDelay(cfg, m - 2)), Probed(ProbeOk(probes, m - 1))];
      assert t[..|t| - 1] == before + [Slept(GetRetryDelay(cfg, m - 2))];
      assert t[..|t| - 1][..|t| - 2] == before;
      assert schedule[..m - 1] == schedule[..m - 2] + [schedule[m - 2]];
    }
  }

  /** time.Sleep of a duration that is not positive returns at once. */
  function SleepLength(seconds: int): nat {
    if seconds > 0 then seconds else 0
  }

  /** The time the sleeps between `m` probes take. */
  function SleepTime(cfg: PrinterConfig, m: nat): nat
    decreases m
  {
    if m <= 1 then 0 else SleepTime(cfg, m - 1) + SleepLength(GetRetryDelay(cfg, m - 2))
  }

  /** With a base delay that is not negative, m probes sleep (m-1)*base + (m-1)(m-2)/2 seconds in all. */
  lemma {:induction false} SleepTimeClosedForm(cfg: PrinterConfig, m: nat)
    requires cfg.RetryBaseDelaySeconds >= 0 && m >= 1
    ensures 2 * SleepTime(cfg, m) == 2 * (m - 1) * cfg.RetryBaseDelaySeconds + (m - 1) * (m - 2)
  {
    if m > 1 {
      SleepTimeClosedForm(cfg, m - 1);
      var b := cfg.RetryBaseDelaySeconds;
      assert SleepTime(cfg, m) == SleepTime(cfg, m - 1) + b + (m - 2);
      assert (m - 1) * (m - 2) == (m - 2) * (m - 3) + 2 * (m - 2);
      assert (m - 1) * b == (m - 2) * b + b;
    }
  }

  /**
   * ensurePrinterOn. Without a relay: nothing happens. With one: if it is
   * off, write Low (a failed write ends the call); if it is on, re-arm the
   * timer first. Then probe with retries; on success re-arm the timer from
   * the current time.
   */
  function EnsureOn(cfg: PrinterConfig, s: PowerState, pinOk: bool, probes: seq<bool>): Step {
    match s.relay
    case NoRelay => Step(None, s, [], [])
    case Wired(on) =>
      if !on && !pinOk then Step(Some(RelayWriteFailed), s, [Low], [])
      else
        var written := if on then [] else [Low];
        var timer := if on then Armed(s.clock + GetAutoShutdownDelay(cfg)) else s.timer;
        var m := ProbesRun(probes, ProbeBudget(cfg));
        var clock := s.clock + SleepTime(cfg, m);
        if ProbeOk(probes, m - 1) then
          Step(None, PowerState(Wired(true), Armed(clock + GetAutoShutdownDelay(cfg)), clock), written,
               ProbeTrace(cfg, probes, m))
        else
          Step(Some(NoResponse), PowerState(Wired(true), timer, clock), written, ProbeTrace(cfg, probes, m))
  }

  /** Without a relay the call succeeds and changes nothing: no write, no probe, no timer. */
  lemma EnsureOnNoRelay(cfg: PrinterConfig, s: PowerState, pinOk: bool, probes: seq<bool>)
    requires s.relay.NoRelay?
    ensures EnsureOn(cfg, s, pinOk, probes) == Step(None, s, [], [])
  {
  }

  /**
   * The relay is written at most once, only to switch it on, and only when
   * it was off; a failed write ends the call before any probe, changing nothing.
   */
  lemma EnsureOnWrites(cfg: PrinterConfig, s: PowerState, pinOk: bool, probes: seq<bool>)
    ensures var st := EnsureOn(cfg, s, pinOk, probes);
      st.written == if s.relay == Wired(false) then [Low] else []
    ensures var st := EnsureOn(cfg, s, pinOk, probes);
      st.err == Some(RelayWriteFailed) <==> s.relay == Wired(false) && !pinOk
    ensures var st := EnsureOn(cfg, s, pinOk, probes);
      st.err == Some(RelayWriteFailed) ==> st.events == [] && st.post == s
  {
  }

  /**
   * The call succeeds exactly when there is no relay, or the relay is (or
   * is switched) on and one of the first ProbeBudget probes succeeds.
   */
  lemma EnsureOnSucceedsIff(cfg: PrinterConfig, s: PowerState, pinOk: bool, probes: seq<bool>)
    ensures EnsureOn(cfg, s, pinOk, probes).err == None <==>
      s.relay.NoRelay? ||
      ((s.relay.on || pinOk) && exists j :: 0 <= j < ProbeBudget(cfg) && ProbeOk(probes, j))
  {
    if s.relay.Wired? && (s.relay.on || pinOk) {
      var budget := ProbeBudget(cfg);
      var m := ProbesRun(probes, budget);
      if exists j :: 0 <= j < budget && ProbeOk(probes, j) {
        var j :| 0 <= j < budget && ProbeOk(probes, j);
        assert ProbeOk(probes, m - 1);
      } else {
        assert !ProbeOk(probes, m - 1);
      }
    }
  }

  /**
   * Probing: at most ProbeBudget probes, stopping at the first success,
   * each retry j preceded by a sleep of GetRetryDelay(j - 1).
   */
  lemma EnsureOnProbes(cfg: PrinterConfig, s: PowerState, pinOk: bool, probes: seq<bool>)
    requires s.relay.Wired? && (s.relay.on || pinOk)
    ensures var st := EnsureOn(cfg, s, pinOk, probes);
      exists m :: 1 <= m <= ProbeBudget(cfg) && |st.events| == 2 * m - 1 &&
        (forall j :: 0 <= j < m ==> st.events[2 * j] == Probed(ProbeOk(probes, j))) &&
        (forall j :: 0 <= j < m - 1 ==> st.events[2 * j + 1] == Slept(GetRetryDelay(cfg, j))) &&
        (forall j :: 0 <= j < m - 1 ==> !ProbeOk(probes, j))
  {
    var m := ProbesRun(probes, ProbeBudget(cfg));
    ProbeTraceShape(cfg, probes, m);
  }

  /**
   * The sleeps of a call follow the retry schedule of the configuration:
   * they are a prefix of it, and all of it when the printer never answers.
   */
  lemma EnsureOnSleepsFollowSchedule(cfg: PrinterConfig, s: PowerState, pinOk: bool, probes: seq<bool>)
    ensures Sleeps(EnsureOn(cfg, s, pinOk, probes).events) <= RetrySchedule(cfg)
    ensures EnsureOn(cfg, s, pinOk, probes).err == Some(NoResponse) ==>
      Sleeps(EnsureOn(cfg, s, pinOk, probes).events) == RetrySchedule(cfg)
  {
    if s.relay.Wired? && (s.relay.on || pinOk) {
      var m := ProbesRun(probes, ProbeBudget(cfg));
      ProbeTraceSleeps(cfg, probes, m);
    }
  }

  /**
   * After a successful call with a relay, the relay is on and the timer is
   * armed to fire one auto-shutdown delay after the current time, whatever
   * it was armed to before.
   */
  lemma EnsureOnArmsTimer(cfg: PrinterConfig, s: PowerState, pinOk: bool, probes: seq<bool>)
    requires s.relay.Wired?
    ensures var st := EnsureOn(cfg, s, pinOk, probes);
      st.err == None ==>
        st.post.relay == Wired(true) && st.post.timer == Armed(st.post.clock + GetAutoShutdownDelay(cfg))
  {
  }

  /**
   * When every probe fails the relay is left on (no Low is undone), and the
   * timer is the one set before probing: re-armed if the relay was already
   * on, otherwise left as it was.
   */
  lemma EnsureOnNoResponse(cfg: PrinterConfig, s: PowerState, pinOk: bool, probes: seq<bool>)
    requires EnsureOn(cfg, s, pinOk, probes).err == Some(NoResponse)
    ensures var st := EnsureOn(cfg, s, pinOk, probes);
      && st.post.relay == Wired(true)
      && High !in st.written
      && st.post.timer == (if s.relay.on then Armed(s.clock + GetAutoShutdownDelay(cfg)) else s.timer)
      && (forall j :: 0 <= j < ProbeBudget(cfg) ==> !ProbeOk(probes, j))
  {
    EnsureOnSucceedsIff(cfg, s, pinOk, probes);
  }

  /** A step never breaks the invariant. */
  lemma EnsureOnConsistent(cfg: PrinterConfig, s: PowerState, pinOk: bool, probes: seq<bool>)
    requires Consistent(s)
    ensures Consistent(EnsureOn(cfg, s, pinOk, probes).post)
  {
  }

  /**
   * Five attempts, a five-second base, a relay that is off and a printer
   * that never answers: five probes with sleeps of 5, 6, 7 and 8 seconds,
   * then NoResponse with the relay still on.
   */
  lemma EnsureOnFiveFailedProbes(cfg: PrinterConfig, s: PowerState, probes: seq<bool>)
    requires cfg.RetryAttempts == 5 && cfg.RetryBaseDelaySeconds == 5
    requires s.relay == Wired(false) && s.timer == Stopped
    requires forall j :: 0 <= j < |probes| ==> !probes[j]
    ensures EnsureOn(cfg, s, true, probes) ==
      Step(Some(NoResponse), PowerState(Wired(true), Stopped, s.clock + 26), [Low],
           [Probed(false), Slept(5), Probed(false), Slept(6), Probed(false), Slept(7), Probed(false),
            Slept(8), Probed(false)])
  {
    ProbesRunUnique(probes, 5, 5);
  }

  /**
   * One fire of the auto-shutdown timer: the timer is spent, and if the
   * relay is on it is switched off. A failed write is only logged, so a
   * fire never reports an error.
   */
  function Fire(s: PowerState, pinOk: bool): Step {
    var spent := s.(timer := Stopped);
    if s.relay == Wired(true) then
      Step(None, spent.(relay := Wired(!pinOk)), [High], [])
    else
      Step(None, spent, [], [])
  }

  /** A timer that fires when due. */
  predicate Due(s: PowerState) {
    s.timer.Armed? && s.clock >= s.timer.deadline
  }

  /** A fire writes High exactly when the relay is on, and disarms the timer. */
  lemma FireTurnsOffOnlyIfOn(s: PowerState, pinOk: bool)
    ensures var st := Fire(s, pinOk);
      && st.err == None
      && st.written == (if s.relay == Wired(true) then [High] else [])
      && st.post.timer == Stopped
      && (pinOk ==> st.post.relay != Wired(true))
  {
  }

  /** A fire never breaks the invariant. */
  lemma FireConsistent(s: PowerState, pinOk: bool)
    requires Consistent(s)
    ensures Consistent(Fire(s, pinOk).post)
  {
  }

  /**
   * Close. Without a relay: nothing, and no error. Otherwise the timer is
   * stopped and the relay switched off if it is on, returning that write's error.
   */
  function Close(s: PowerState, pinOk: bool): Step {
    match s.relay
    case NoRelay => Step(None, s, [], [])
    case Wired(on) =>
      var stopped := s.(timer := Stopped);
      if !on then Step(None, stopped, [], [])
      else if pinOk then Step(None, stopped.(relay := Wired(false)), [High], [])
      else Step(Some(RelayWriteFailed), stopped, [High], [])
  }

  /** A Close that succeeded leaves nothing for a second Close to do: no write and no error. */
  lemma CloseIdempotent(s: PowerState, pinOk: bool, pinOk2: bool)
    requires Close(s, pinOk).err == None
    ensures var first := Close(s, pinOk);
      Close(first.post, pinOk2) == Step(None, first.post, [], [])
  {
  }

  /** Close errs only on a failed switch-off, and otherwise leaves the relay off (or absent) with the timer stopped. */
  lemma CloseOutcome(s: PowerState, pinOk: bool)
    ensures var st := Close(s, pinOk);
      && (st.err != None <==> s.relay == Wired(true) && !pinOk)
      && (st.err == None ==> st.post.relay != Wired(true))
      && (s.relay.Wired? ==> st.post.timer == Stopped)
      && |st.written| <= 1 && Low !in st.written
  {
  }

  /**
   * An auto-shutdown delay of two minutes: after a successful power-on and
   * two idle minutes the timer is due, its fire is the one and only write
   * (High), and afterwards the timer is stopped so nothing fires again.
   */
  lemma TwoMinuteShutdown(cfg: PrinterConfig, s: PowerState, probes: seq<bool>)
    requires cfg.AutoShutdownDelayMinutes == 2 && s.relay == Wired(true)
    requires EnsureOn(cfg, s, true, probes).err == None
    ensures var on := EnsureOn(cfg, s, true, probes).post;
      var idle := on.(clock := on.clock + 120);
      && on.relay == Wired(true)
      && !Due(on.(clock := on.clock + 119))
      && Due(idle)
      && Fire(idle, true).written == [High]
      && Fire(idle, true).post.relay == Wired(false)
      && !Due(Fire(idle, true).post)
  {
  }
}
