/**
 * The Printer of printers/brother.go: the power manager (relay, auto-shutdown
 * timer, liveness probe with retries) and the operations built on it, each of
 * which powers the printer on before running the ptouch-print command.
 *
 * The world outside is passed in: whether the relay's pin write succeeds,
 * the outcomes of the liveness probes, the exit status and output of the
 * command, and the file system's answers during a preview.
 */
module Printers {
  import opened Wrappers
  import opened Numbers
  import opened Config
  import opened Gpio
  import opened Power

  const VersionArg: string := "--version"
  const InfoArg: string := "--info"
  const FontSizeArg: string := "--fontsize"
  const TextArg: string := "--text"
  const FontArg: string := "--font"
  const WritePngArg: string := "--writepng"
  const UnknownVersion: string := "Unknown version"

  /** How a run of the print command ended: exit status zero or not, and its combined output. */
  datatype CommandOutcome = Exited(ok: bool, output: string)

  /** The answers of the world during one operation. */
  datatype Outside = Outside(pinOk: bool, probes: seq<bool>, command: CommandOutcome)

  /** The answers of the file system during a preview: os.Stat, os.MkdirAll and os.ReadFile. */
  datatype Files = Files(folderExists: bool, mkdirOk: bool, readBack: Option<seq<bv8>>)

  datatype PrinterError =
    | PowerFailed(cause: PowerError)
    | CommandFailed(output: string)
    | FolderCreateFailed
    | ReadBackFailed

  /** The outcome of exec on values: what it returns and the power step, with the command run appended. */
  datatype Run<T> = Run(result: Result<T, PrinterError>, step: Step)

  /**
   * exec: power the printer on and, only if that succeeded, run the command
   * with `args`; its output on exit status zero, its failure otherwise.
   */
  function ExecOn(cfg: PrinterConfig, s: PowerState, args: seq<string>, w: Outside): Run<string> {
    var on := EnsureOn(cfg, s, w.pinOk, w.probes);
    if on.err.Some? then Run(Failure(PowerFailed(on.err.value)), on)
    else
      var ran := on.(events := on.events + [Ran(args, w.command.ok)]);
      if w.command.ok then Run(Success(w.command.output), ran)
      else Run(Failure(CommandFailed(w.command.output)), ran)
  }

  /**
   * The command runs exactly when powering on succeeded, as the last event;
   * a failure to power on is reported as such and nothing is run.
   */
  lemma ExecRunsOnlyWhenPowered(cfg: PrinterConfig, s: PowerState, args: seq<string>, w: Outside)
    ensures var r := ExecOn(cfg, s, args, w);
      var on := EnsureOn(cfg, s, w.pinOk, w.probes);
      && (on.err.Some? ==> r.result == Failure(PowerFailed(on.err.value)) && r.step == on)
      && (on.err.None? ==> r.step.events == on.events + [Ran(args, w.command.ok)])
      && (on.err.None? ==> !(r.result.Failure? && r.result.error.PowerFailed?))
      && (r.result.Success? <==> on.err.None? && w.command.ok)
  {
  }

  /** GetVersion: the command's output, or "Unknown version" whenever exec fails. */
  function VersionOf(r: Result<string, PrinterError>): (v: string)
    ensures r.Failure? ==> v == UnknownVersion
    ensures r.Success? ==> v == r.value
  {
    if r.Failure? then UnknownVersion else r.value
  }

  /** The arguments of a print at a given size: --fontsize <n> --text <text>. */
  function LabelArgs(fontSize: int, text: string): seq<string> {
    [FontSizeArg, FormatInt(fontSize), TextArg, text]
  }

  /** The arguments of a print with a preset: the font family pair first, only when there is a family. */
  function PresetArgs(text: string, preset: Preset): seq<string> {
    (if preset.FontFamily != "" then [FontArg, preset.FontFamily] else []) + LabelArgs(preset.FontSize, text)
  }

  /**
   * A preset print names the font exactly when the preset has a family, and
   * always ends with the size (which reads back as the preset's) and the text.
   */
  lemma PresetArgsShape(text: string, preset: Preset)
    requires Int64Min <= preset.FontSize <= Int64Max
    ensures var args := PresetArgs(text, preset);
      && (args[0] == FontArg <==> preset.FontFamily != "")
      && (preset.FontFamily != "" ==> args[..2] == [FontArg, preset.FontFamily] && |args| == 6)
      && (preset.FontFamily == "" ==> |args| == 4)
      && args[|args| - 4..] == LabelArgs(preset.FontSize, text)
      && ParseInt(args[|args| - 3]) == Some(preset.FontSize)
      && args[|args| - 1] == text
  {
    ParseFormatRoundTrip(preset.FontSize);
  }

  /** The arguments of a preview: the default size, the text, and the PNG file to write. */
  function PreviewArgs(cfg: PrinterConfig, text: string, path: string): seq<string> {
    LabelArgs(cfg.FontSize, text) + [WritePngArg, path]
  }

  /** The preview file of a user: <drafts>/draft-<id>.png. */
  function PreviewPath(drafts: string, userIdent: int): string {
    drafts + "/draft-" + FormatInt(userIdent) + ".png"
  }

  /** Two users never share a preview file. */
  lemma PreviewPathInjective(drafts: string, a: int, b: int)
    requires a != b
    ensures PreviewPath(drafts, a) != PreviewPath(drafts, b)
  {
    var prefix := drafts + "/draft-";
    var fa, fb := FormatInt(a), FormatInt(b);
    if PreviewPath(drafts, a) == PreviewPath(drafts, b) {
      assert |fa| == |fb|;
      assert PreviewPath(drafts, a)[|prefix|..|prefix| + |fa|] == fa;
      assert PreviewPath(drafts, b)[|prefix|..|prefix| + |fb|] == fb;
      FormatIntInjective(a, b);
    }
  }

  /**
   * PreviewLabel on values. The drafts folder is created first when it does
   * not exist (a failure ends the call before anything else); then exec
   * renders the text to the user's file; then the file is read back.
   */
  function Preview(cfg: PrinterConfig, s: PowerState, text: string, userIdent: int, w: Outside, f: Files)
    : Run<seq<bv8>>
  {
    if !f.folderExists && !f.mkdirOk then Run(Failure(FolderCreateFailed), Step(None, s, [], []))
    else
      var r := ExecOn(cfg, s, PreviewArgs(cfg, text, PreviewPath(cfg.DraftsFolder, userIdent)), w);
      if r.result.Failure? then Run(Failure(r.result.error), r.step)
      else match f.readBack
        case None => Run(Failure(ReadBackFailed), r.step)
        case Some(bytes) => Run(Success(bytes), r.step)
  }

  /**
   * The errors of a preview in their order: the folder before the power and
   * the render, the render before the read-back; the file's bytes on success.
   */
  lemma PreviewErrorOrder(cfg: PrinterConfig, s: PowerState, text: string, userIdent: int, w: Outside, f: Files)
    ensures var p := Preview(cfg, s, text, userIdent, w, f);
      var r := ExecOn(cfg, s, PreviewArgs(cfg, text, PreviewPath(cfg.DraftsFolder, userIdent)), w);
      && (p.result == Failure(FolderCreateFailed) <==> !f.folderExists && !f.mkdirOk)
      && (p.result == Failure(FolderCreateFailed) ==> p.step.events == [] && p.step.written == [])
      && (f.folderExists || f.mkdirOk ==> p.step == r.step)
      && (p.result == Failure(ReadBackFailed) <==> (f.folderExists || f.mkdirOk) && r.result.Success? && f.readBack.None?)
      && (p.result.Success? <==> (f.folderExists || f.mkdirOk) && r.result.Success? && f.readBack.Some?)
      && (p.result.Success? ==> p.result.value == f.readBack.value)
  {
  }

  class Printer {
    const config: PrinterConfig
    /** The relay that switches the printer's power, if there is one. */
    const relay: Relay?
    var timer: Timer
    /** The current time, in seconds. */
    var clock: int
    /** The probes, sleeps and command runs performed so far. */
    ghost var trace: seq<Event>

    /** The state the power manager works on. */
    function State(): PowerState
      reads this, relay
    {
      PowerState(if relay == null then NoRelay else Wired(relay.GetState()), timer, clock)
    }

    ghost predicate Valid()
      reads this, relay
    {
      Consistent(State())
    }

    /** The effect of `st` between the previous and the current state. */
    twostate predicate Took(st: Step)
      reads this, relay
    {
      && State() == st.post
      && trace == old(trace) + st.events
      && (relay != null ==> relay.writes == old(relay.writes) + st.written)
    }

    /** The fields as NewPrinter sets them: a timer created and stopped at once. */
    constructor (config: PrinterConfig, relay: Relay?)
      ensures this.config == config && this.relay == relay
      ensures timer == Stopped && trace == []
      ensures Valid()
    {
      this.config := config;
      this.relay := relay;
      timer := Stopped;
      clock := 0;
      trace := [];
    }

    /** Time passing between operations. */
    method AdvanceClock(seconds: nat)
      modifies this`clock
      ensures clock == old(clock) + seconds
    {
      clock := clock + seconds;
    }

    /** resetAutoShutdownTimer: without a relay nothing; otherwise the timer fires one delay from now. */
    method ResetAutoShutdownTimer()
      modifies this`timer
      ensures timer == if relay == null then old(timer) else Armed(clock + GetAutoShutdownDelay(config))
    {
      if relay == null {
        return;
      }
      timer := Armed(clock + GetAutoShutdownDelay(config));
    }

    /** time.Sleep. */
    method Sleep(seconds: int)
      modifies this`clock, this`trace
      ensures clock == old(clock) + SleepLength(seconds)
      ensures trace == old(trace) + [Slept(seconds)]
    {
      clock := clock + SleepLength(seconds);
      trace := trace + [Slept(seconds)];
    }

    /** execDirect(--info): probe number `j`, without any power check. */
    method ExecDirectInfo(probes: seq<bool>, j: nat) returns (ok: bool)
      modifies this`trace
      ensures ok == ProbeOk(probes, j)
      ensures trace == old(trace) + [Probed(ok)]
    {
      ok := j < |probes| && probes[j];
      trace := trace + [Probed(ok)];
    }

    /** ensurePrinterOn: performs exactly the step EnsureOn. */
    method EnsurePrinterOn(pinOk: bool, probes: seq<bool>) returns (err: Option<PowerError>)
      requires Valid()
      modifies this`timer, this`clock, this`trace, relay
      ensures Valid()
      ensures var st := EnsureOn(config, old(State()), pinOk, probes); err == st.err && Took(st)
    {
      EnsureOnConsistent(config, State(), pinOk, probes);
      if relay == null {
        return None;
      }
      ghost var t0 := trace;
      if relay.GetState() {
        ResetAutoShutdownTimer();
      } else {
        var e := relay.TurnOn(pinOk);
        if e.Some? {
          return Some(RelayWriteFailed);
        }
      }
      var ok := ProbeWithRetries(probes);
      if !ok {
        return Some(NoResponse);
      }
      ResetAutoShutdownTimer();
      return None;
    }

    /**
     * The probe loop of ensurePrinterOn: the first probe, then while it has
     * failed up to RetryAttempts-1 retries, each after its delay, stopping
     * at the first success. It touches only the clock and the trace.
     */
    method ProbeWithRetries(probes: seq<bool>) returns (ok: bool)
      modifies this`clock, this`trace
      ensures var m := ProbesRun(probes, ProbeBudget(config));
        && ok == ProbeOk(probes, m - 1)
        && trace == old(trace) + ProbeTrace(config, probes, m)
        && clock == old(clock) + SleepTime(config, m)
    {
      var budget := ProbeBudget(config);
      ok := ExecDirectInfo(probes, 0);
      ghost var m := 1;
      if !ok {
        ghost var t0, c0 := old(trace), old(clock);
        var i := 0;
        while i < config.RetryAttempts - 1
          invariant m == i + 1 && m <= budget
          invariant !ok
          invariant forall j :: 0 <= j < m ==> !ProbeOk(probes, j)
          invariant trace == t0 + ProbeTrace(config, probes, m)
          invariant clock == c0 + SleepTime(config, m)
        {
          Sleep(GetRetryDelay(config, i));
          ok := ExecDirectInfo(probes, i + 1);
          assert ProbeTrace(config, probes, m + 1) ==
            ProbeTrace(config, probes, m) + [Slept(GetRetryDelay(config, i)), Probed(ok)];
          m := m + 1;
          if ok {
            break;
          }
          i := i + 1;
        }
      }
      ProbesRunUnique(probes, budget, m);
    }

    /**
     * One pass of autoShutdownRoutine, taken when the timer is due: the
     * timer is spent and the relay switched off if it is on; a failed
     * write is logged, not reported.
     */
    method AutoShutdownFire(pinOk: bool)
      requires Valid() && Due(State())
      modifies this`timer, relay
      ensures Valid()
      ensures Took(Fire(old(State()), pinOk))
    {
      FireConsistent(State(), pinOk);
      timer := Stopped;
      if relay != null && relay.GetState() {
        var ignored := relay.TurnOff(pinOk);
      }
    }

    /** Close: performs exactly the step Power.Close. */
    method Close(pinOk: bool) returns (err: Option<PowerError>)
      requires Valid()
      modifies this`timer, relay
      ensures Valid()
      ensures var st := Power.Close(old(State()), pinOk); err == st.err && Took(st)
    {
      if relay == null {
        return None;
      }
      timer := Stopped;
      if relay.GetState() {
        var e := relay.TurnOff(pinOk);
        if e.Some? {
          return Some(RelayWriteFailed);
        }
      }
      return None;
    }

    /** exec: performs exactly ExecOn. */
    method Exec(args: seq<string>, w: Outside) returns (r: Result<string, PrinterError>)
      requires Valid()
      modifies this`timer, this`clock, this`trace, relay
      ensures Valid()
      ensures var run := ExecOn(config, old(State()), args, w); r == run.result && Took(run.step)
    {
      var e := EnsurePrinterOn(w.pinOk, w.probes);
      if e.Some? {
        return Failure(PowerFailed(e.value));
      }
      trace := trace + [Ran(args, w.command.ok)];
      if !w.command.ok {
        return Failure(CommandFailed(w.command.output));
      }
      return Success(w.command.output);
    }

    /** GetVersion: never fails; "Unknown version" when exec does. */
    method GetVersion(w: Outside) returns (v: string)
      requires Valid()
      modifies this`timer, this`clock, this`trace, relay
      ensures Valid()
      ensures var run := ExecOn(config, old(State()), [VersionArg], w); v == VersionOf(run.result) && Took(run.step)
    {
      var r := Exec([VersionArg], w);
      if r.Failure? {
        return UnknownVersion;
      }
      return r.value;
    }

    /** GetPrinterInfo: exec with --info, its error passed on. */
    method GetPrinterInfo(w: Outside) returns (r: Result<string, PrinterError>)
      requires Valid()
      modifies this`timer, this`clock, this`trace, relay
      ensures Valid()
      ensures var run := ExecOn(config, old(State()), [InfoArg], w); r == run.result && Took(run.step)
    {
      r := Exec([InfoArg], w);
    }

    /** PrintLabelYolo: print at the configured font size. */
    method PrintLabelYolo(text: string, w: Outside) returns (err: Option<PrinterError>)
      requires Valid()
      modifies this`timer, this`clock, this`trace, relay
      ensures Valid()
      ensures var run := ExecOn(config, old(State()), LabelArgs(config.FontSize, text), w);
        err == (if run.result.Failure? then Some(run.result.error) else None) && Took(run.step)
    {
      var r := Exec(LabelArgs(config.FontSize, text), w);
      if r.Failure? {
        return Some(r.error);
      }
      return None;
    }

    /** PrintLabel: print at the given font size. */
    method PrintLabel(text: string, fontSize: int, w: Outside) returns (err: Option<PrinterError>)
      requires Valid()
      modifies this`timer, this`clock, this`trace, relay
      ensures Valid()
      ensures var run := ExecOn(config, old(State()), LabelArgs(fontSize, text), w);
        err == (if run.result.Failure? then Some(run.result.error) else None) && Took(run.step)
    {
      var r := Exec(LabelArgs(fontSize, text), w);
      if r.Failure? {
        return Some(r.error);
      }
      return None;
    }

    /** PrintLabelWithPreset: the argument vector is built by appending, the font pair only for a family. */
    method PrintLabelWithPreset(text: string, preset: Preset, w: Outside) returns (err: Option<PrinterError>)
      requires Valid()
      modifies this`timer, this`clock, this`trace, relay
      ensures Valid()
      ensures var run := ExecOn(config, old(State()), PresetArgs(text, preset), w);
        err == (if run.result.Failure? then Some(run.result.error) else None) && Took(run.step)
    {
      var fontSize := FormatInt(preset.FontSize);
      var args: seq<string> := [];
      if preset.FontFamily != "" {
        args := args + [FontArg, preset.FontFamily];
      }
      args := args + [FontSizeArg, fontSize, TextArg, text];
      assert args == PresetArgs(text, preset);
      var r := Exec(args, w);
      if r.Failure? {
        return Some(r.error);
      }
      return None;
    }

    /** PreviewLabel: performs exactly Preview. */
    method PreviewLabel(text: string, userIdent: int, w: Outside, f: Files) returns (r: Result<seq<bv8>, PrinterError>)
      requires Valid()
      modifies this`timer, this`clock, this`trace, relay
      ensures Valid()
      ensures var p := Preview(config, old(State()), text, userIdent, w, f); r == p.result && Took(p.step)
    {
      if !f.folderExists && !f.mkdirOk {
        return Failure(FolderCreateFailed);
      }
      var filePath := PreviewPath(config.DraftsFolder, userIdent);
      var out := Exec(PreviewArgs(config, text, filePath), w);
      if out.Failure? {
        return Failure(out.error);
      }
      if f.readBack.None? {
        return Failure(ReadBackFailed);
      }
      return Success(f.readBack.value);
    }
  }
}
