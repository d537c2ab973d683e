/**
 * The ADE9430 bring-up example: open the UART, initialise the device,
 * configure the energy model, read the temperature, read phases A, B and C,
 * read three debug registers, then release what was acquired, device before
 * UART. The first failing step skips the rest and goes to the cleanup.
 *
 * `Run` is the specification of one complete run as a value: the transcript
 * it produces and the status it returns. `BringUp` is the program itself,
 * working on the board step by step, and is proved to behave as `Run` says.
 */
module Example {
  import opened Basics
  import opened Platform

  /** Samples per energy accumulation interval handed to the driver. */
  const EGY_ACCUM_SAMPLES: uint32 := 7999

  function Label(p: Phase): string {
    match p
    case PhaseA => "Phase A"
    case PhaseB => "Phase B"
    case PhaseC => "Phase C"
  }

  /** A transcript and the value `main` returns. */
  datatype Outcome = Outcome(trace: Transcript, status: int32)

  /** Transcript `t` extended by printing one phase, given what its read returned. */
  function PhaseEvents(t: Transcript, r: PhaseReading, p: Phase, name: string): Transcript {
    var t := Then(t, Call(ReadPhase(p)));
    if r.ret != 0 then Then(t, Print(PhaseFailed(name, r.ret)))
    else Then(Then(Then(Then(t, Print(PhaseTitle(name))), Print(Current(r.irms))), Print(Voltage(r.vrms))), Print(Power(r.watt)))
  }

  /**
   * Transcript `t` extended by the debug-register block: three reads whose
   * codes are ignored, then the three values, each 0 unless its read stored one.
   */
  function DebugEvents(t: Transcript, s: Script): Transcript {
    var t := Then(Then(Then(t, Call(ReadRegister(RegRun))), Call(ReadRegister(RegEpCfg))), Call(ReadRegister(RegEgyTime)));
    var t := Then(t, Print(DebugBanner));
    Then(Then(Then(t, Print(RunRegister(s.run.stored.GetOr(0)))),
                      Print(EpCfgRegister(s.epCfg.stored.GetOr(0)))),
                      Print(EgyTimeRegister(s.egyTime.stored.GetOr(0))))
  }

  /** Transcript `t` extended by the cleanup label: the device session if one was created, then the UART. */
  function Cleanup(t: Transcript, devicePresent: bool): Transcript {
    Then(if devicePresent then Then(t, RemoveDev) else t, RemoveUart)
  }

  /** Transcript `t` extended by the three phase blocks and, if all succeed, the debug registers. */
  function Phases(s: Script, t: Transcript): Outcome {
    var t := PhaseEvents(t, s.phaseA, PhaseA, Label(PhaseA));
    if s.phaseA.ret != 0 then Outcome(t, s.phaseA.ret)
    else
      var t := PhaseEvents(t, s.phaseB, PhaseB, Label(PhaseB));
      if s.phaseB.ret != 0 then Outcome(t, s.phaseB.ret)
      else
        var t := PhaseEvents(t, s.phaseC, PhaseC, Label(PhaseC));
        if s.phaseC.ret != 0 then Outcome(t, s.phaseC.ret)
        else Outcome(DebugEvents(t, s), 0)
  }

  /**
   * Transcript `t` extended by the steps that use the device session: the
   * energy model, the temperature, the three phases and the debug registers.
   */
  function Measurements(s: Script, nrSamples: uint32, t: Transcript): Outcome {
    var t := Then(t, Call(SetEgyModel(nrSamples, EGY_ACCUM_SAMPLES)));
    if s.egyRet != 0 then Outcome(Then(t, Print(EgyModelFailed(s.egyRet))), s.egyRet)
    else
      var t := Then(t, Call(ReadTemp));
      if s.tempRet != 0 then Outcome(Then(t, Print(TempFailed(s.tempRet))), s.tempRet)
      else Phases(s, Then(Then(t, Print(Temperature(s.tempDeg))), Print(PhaseBanner)))
  }

  /** Transcript `t` extended by the steps up to the device initialisation, once the UART has opened. */
  function Opened(t: Transcript): Transcript {
    Then(Then(Then(Then(t, Call(UartInit)), Call(UartStdio)), Print(Banner)), Call(DevInit))
  }

  /** What a run whose UART opened does before its cleanup, and the status it will return. */
  function Session(s: Script, nrSamples: uint32, t: Transcript): Outcome {
    if s.devRet != 0 then Outcome(Then(Opened(t), Print(InitFailed(s.devRet))), s.devRet)
    else Measurements(s, nrSamples, Opened(t))
  }

  /** Transcript `t` extended by one whole run against the outcomes in `s`, and the status it returns. */
  function Run(s: Script, nrSamples: uint32, t: Transcript): Outcome {
    if s.uartRet != 0 then Outcome(Then(t, Call(UartInit)), s.uartRet)
    else
      var session := Session(s, nrSamples, t);
      Outcome(Cleanup(session.trace, s.devRet == 0), session.status)
  }

  /** ade9430_print_phase: read one phase; print its values only if the read returned 0. */
  method PrintPhase(board: Board, dev: Ade9430Dev, phase: Phase, name: string) returns (ret: int32)
    requires dev in board.live
    requires board.console != null && board.console in board.live
    modifies board, dev
    ensures ret == board.script.Reading(phase).ret
    ensures board.trace == PhaseEvents(old(board.trace), board.script.Reading(phase), phase, name)
    ensures board.live == old(board.live) && board.console == old(board.console)
  {
    ret := board.Ade9430ReadDataPh(dev, phase);
    if ret != 0 {
      board.Printf(PhaseFailed(name, ret));
      return ret;
    }
    board.Printf(PhaseTitle(name));
    board.Printf(Current(dev.irmsVal));
    board.Printf(Voltage(dev.vrmsVal));
    board.Printf(Power(dev.wattVal));
    return 0;
  }

  /**
   * The steps of main that use the device session, from the energy-model
   * configuration to the debug registers. Each early return stands for a
   * `goto cleanup`: the caller releases the handles.
   */
  method Measure(board: Board, dev: Ade9430Dev) returns (ret: int32)
    requires dev in board.live
    requires board.console != null && board.console in board.live
    modifies board, dev
    ensures board.trace == Measurements(board.script, board.egyNrSamples, old(board.trace)).trace
    ensures ret == Measurements(board.script, board.egyNrSamples, old(board.trace)).status
    ensures board.live == old(board.live) && board.console == old(board.console)
  {
    var runVal: uint32, epCfg: uint32, egyTime: uint32 := 0, 0, 0;

    ret := board.Ade9430SetEgyModel(dev, board.egyNrSamples, EGY_ACCUM_SAMPLES);
    if ret != 0 {
      board.Printf(EgyModelFailed(ret));
      return;
    }

    ret := board.Ade9430ReadTemp(dev);
    if ret != 0 {
      board.Printf(TempFailed(ret));
      return;
    }
    board.Printf(Temperature(dev.tempDeg));

    board.Printf(PhaseBanner);
    ret := PrintPhase(board, dev, PhaseA, Label(PhaseA));
    if ret != 0 {
      return;
    }
    ret := PrintPhase(board, dev, PhaseB, Label(PhaseB));
    if ret != 0 {
      return;
    }
    ret := PrintPhase(board, dev, PhaseC, Label(PhaseC));
    if ret != 0 {
      return;
    }

    // the codes of these three reads are not looked at
    var ignored: int32;
    ignored, runVal := board.Ade9430Read(dev, RegRun, runVal);
    ignored, epCfg := board.Ade9430Read(dev, RegEpCfg, epCfg);
    ignored, egyTime := board.Ade9430Read(dev, RegEgyTime, egyTime);

    board.Printf(DebugBanner);
    board.Printf(RunRegister(runVal));
    board.Printf(EpCfgRegister(epCfg));
    board.Printf(EgyTimeRegister(egyTime));
  }

  /** main: the bring-up sequence; every handle it acquires is released before it returns. */
  method BringUp(board: Board) returns (ret: int32)
    modifies board
    ensures board.trace == Run(board.script, board.egyNrSamples, old(board.trace)).trace
    ensures ret == Run(board.script, board.egyNrSamples, old(board.trace)).status
    ensures board.live == old(board.live)
  {
    var uart: UartDesc? := null;
    var dev: Ade9430Dev? := null;

    ret, uart := board.NoOsUartInit(uart);
    if ret != 0 {
      return ret;
    }
    board.NoOsUartStdio(uart);
    board.Printf(Banner);

    label cleanup: {
      ret, dev := board.Ade9430Init(dev);
      if ret != 0 {
        board.Printf(InitFailed(ret));
        break cleanup;
      }
      ret := Measure(board, dev);
    }

    if dev != null {
      board.Ade9430Remove(dev);
    }
    if uart != null {
      board.NoOsUartRemove(uart);
    }
  }
}
