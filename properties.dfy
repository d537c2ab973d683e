/**
 * What one run of the bring-up example guarantees, for every outcome script:
 * the calls follow the fixed protocol up to and including the first failing
 * step; exactly the handles that were acquired are released, once each,
 * device before UART, at the very end; the status is the first error code;
 * the phases report in the order A, B, C; and the debug registers neither
 * gate the status nor skip their output.
 */
module Properties {
  import opened Basics
  import opened Platform
  import opened Example

  // ---------------------------------------------------------------------------
  // Views of a transcript

  /** The calls made, in order. */
  function Steps(t: Transcript): seq<Step> {
    match t
    case Empty => []
    case Then(b, Call(x)) => Steps(b) + [x]
    case Then(b, _) => Steps(b)
  }

  /** The release events, in order. */
  function Releases(t: Transcript): seq<Event> {
    match t
    case Empty => []
    case Then(b, RemoveDev) => Releases(b) + [RemoveDev]
    case Then(b, RemoveUart) => Releases(b) + [RemoveUart]
    case Then(b, _) => Releases(b)
  }

  /** The lines printed, in order. */
  function Lines(t: Transcript): seq<Line> {
    match t
    case Empty => []
    case Then(b, Print(l)) => Lines(b) + [l]
    case Then(b, _) => Lines(b)
  }

  // ---------------------------------------------------------------------------
  // Reference definitions

  /** The order in which main.c makes its calls when nothing fails. */
  function Protocol(nrSamples: uint32): seq<Step> {
    [UartInit, UartStdio, DevInit, SetEgyModel(nrSamples, EGY_ACCUM_SAMPLES), ReadTemp,
     ReadPhase(PhaseA), ReadPhase(PhaseB), ReadPhase(PhaseC),
     ReadRegister(RegRun), ReadRegister(RegEpCfg), ReadRegister(RegEgyTime)]
  }

  /** The codes of the checked steps, in the order they are made. */
  function Codes(s: Script): seq<int32> {
    [s.uartRet, s.devRet, s.egyRet, s.tempRet, s.phaseA.ret, s.phaseB.ret, s.phaseC.ret]
  }

  /** Where each checked step stands in the protocol. */
  const CheckedAt: seq<nat> := [0, 2, 3, 4, 5, 6, 7]

  /** The index of the first non-zero code, or the length when there is none. */
  function FirstFailure(c: seq<int32>): (k: nat)
    ensures k <= |c|
    ensures forall j :: 0 <= j < k ==> c[j] == 0
    ensures k < |c| ==> c[k] != 0
  {
    if c == [] then 0
    else if c[0] != 0 then 0
    else 1 + FirstFailure(c[1..])
  }

  /** The first non-zero code, or 0 when every code is 0. */
  function FirstError(c: seq<int32>): (r: int32)
    ensures r == 0 <==> forall j :: 0 <= j < |c| ==> c[j] == 0
    ensures forall k :: 0 <= k < |c| && c[k] != 0 && (forall j :: 0 <= j < k ==> c[j] == 0) ==> r == c[k]
  {
    var k := FirstFailure(c);
    if k < |c| then c[k] else 0
  }

  /** How many protocol calls a run makes: up to and including the first failing checked step. */
  function Reached(s: Script): nat {
    var k := FirstFailure(Codes(s));
    if k < |CheckedAt| then CheckedAt[k] + 1 else 11
  }

  const AllPhases: seq<Phase> := [PhaseA, PhaseB, PhaseC]

  /** What a phase block prints. */
  function PhaseLines(r: PhaseReading, name: string): seq<Line> {
    if r.ret != 0 then [PhaseFailed(name, r.ret)]
    else [PhaseTitle(name), Current(r.irms), Voltage(r.vrms), Power(r.watt)]
  }

  /** The phases in `ps` reported one after the other, stopping after the first that fails. */
  function PhaseReport(s: Script, ps: seq<Phase>): seq<Line> {
    if ps == [] then []
    else
      var r := s.Reading(ps[0]);
      PhaseLines(r, Label(ps[0])) + if r.ret != 0 then [] else PhaseReport(s, ps[1..])
  }

  /**
   * A register value as printed: what the read stored, else the zero the
   * variable started with. Written out by cases on purpose, as a reference
   * independent of the `GetOr(0)` the program's transcript uses.
   */
  function StoredOrZero(r: RegisterRead): uint32 {
    if r.stored.Some? then r.stored.value else 0
  }

  function DebugLines(s: Script): seq<Line> {
    [DebugBanner, RunRegister(StoredOrZero(s.run)), EpCfgRegister(StoredOrZero(s.epCfg)),
     EgyTimeRegister(StoredOrZero(s.egyTime))]
  }

  /** All three phase reads succeed. */
  predicate PhasesOk(s: Script) {
    s.phaseA.ret == 0 && s.phaseB.ret == 0 && s.phaseC.ret == 0
  }

  /** What the device session prints once the device has been initialised. */
  function MeasurementReport(s: Script): seq<Line> {
    if s.egyRet != 0 then [EgyModelFailed(s.egyRet)]
    else if s.tempRet != 0 then [TempFailed(s.tempRet)]
    else
      [Temperature(s.tempDeg), PhaseBanner] + PhaseReport(s, AllPhases) + (if PhasesOk(s) then DebugLines(s) else [])
  }

  /** Everything a run prints: the banner once the UART is open, then each step's report up to the first failure. */
  function Report(s: Script): seq<Line> {
    if s.uartRet != 0 then []
    else [Banner] + if s.devRet != 0 then [InitFailed(s.devRet)] else MeasurementReport(s)
  }

  // ---------------------------------------------------------------------------
  // The views of each piece of a run

  /** The calls made from the first phase read on, as each piece of main.c makes them. */
  function PhaseSteps(s: Script): seq<Step> {
    if s.phaseA.ret != 0 then [ReadPhase(PhaseA)]
    else if s.phaseB.ret != 0 then [ReadPhase(PhaseA), ReadPhase(PhaseB)]
    else if s.phaseC.ret != 0 then [ReadPhase(PhaseA), ReadPhase(PhaseB), ReadPhase(PhaseC)]
    else [ReadPhase(PhaseA), ReadPhase(PhaseB), ReadPhase(PhaseC),
          ReadRegister(RegRun), ReadRegister(RegEpCfg), ReadRegister(RegEgyTime)]
  }

  /** The calls made from the energy-model configuration on. */
  function MeasurementSteps(s: Script, nrSamples: uint32): seq<Step> {
    [SetEgyModel(nrSamples, EGY_ACCUM_SAMPLES)] +
      (if s.egyRet != 0 then [] else if s.tempRet != 0 then [ReadTemp] else [ReadTemp] + PhaseSteps(s))
  }

  lemma FirstFailureIs(c: seq<int32>, k: nat)
    requires k <= |c|
    requires forall j :: 0 <= j < k ==> c[j] == 0
    requires k < |c| ==> c[k] != 0
    ensures FirstFailure(c) == k
  {
  }

  lemma ViewsOfPhaseEvents(t: Transcript, r: PhaseReading, p: Phase, name: string)
    ensures Steps(PhaseEvents(t, r, p, name)) == Steps(t) + [ReadPhase(p)]
    ensures Releases(PhaseEvents(t, r, p, name)) == Releases(t)
    ensures Lines(PhaseEvents(t, r, p, name)) == Lines(t) + PhaseLines(r, name)
  {
    var t1 := Then(t, Call(ReadPhase(p)));
    ViewsOfCall(t, ReadPhase(p));
    if r.ret != 0 {
      ViewsOfPrint(t1, PhaseFailed(name, r.ret));
    } else {
      var t2 := Then(t1, Print(PhaseTitle(name)));
      var t3 := Then(t2, Print(Current(r.irms)));
      var t4 := Then(t3, Print(Voltage(r.vrms)));
      ViewsOfPrint(t1, PhaseTitle(name));
      ViewsOfPrint(t2, Current(r.irms));
      ViewsOfPrint(t3, Voltage(r.vrms));
      ViewsOfPrint(t4, Power(r.watt));
      assert Lines(t4) == Lines(t) + [PhaseTitle(name), Current(r.irms), Voltage(r.vrms)];
    }
  }

  lemma ViewsOfDebugEvents(t: Transcript, s: Script)
    ensures Steps(DebugEvents(t, s)) == Steps(t) + [ReadRegister(RegRun), ReadRegister(RegEpCfg), ReadRegister(RegEgyTime)]
    ensures Releases(DebugEvents(t, s)) == Releases(t)
    ensures Lines(DebugEvents(t, s)) == Lines(t) + DebugLines(s)
  {
    var t1 := Then(t, Call(ReadRegister(RegRun)));
    var t2 := Then(t1, Call(ReadRegister(RegEpCfg)));
    var t3 := Then(t2, Call(ReadRegister(RegEgyTime)));
    ViewsOfCall(t, ReadRegister(RegRun));
    ViewsOfCall(t1, ReadRegister(RegEpCfg));
    ViewsOfCall(t2, ReadRegister(RegEgyTime));
    assert Steps(t3) == Steps(t) + [ReadRegister(RegRun), ReadRegister(RegEpCfg), ReadRegister(RegEgyTime)];
    var t4 := Then(t3, Print(DebugBanner));
    var t5 := Then(t4, Print(RunRegister(s.run.stored.GetOr(0))));
    var t6 := Then(t5, Print(EpCfgRegister(s.epCfg.stored.GetOr(0))));
    ViewsOfPrint(t3, DebugBanner);
    ViewsOfPrint(t4, RunRegister(s.run.stored.GetOr(0)));
    ViewsOfPrint(t5, EpCfgRegister(s.epCfg.stored.GetOr(0)));
    ViewsOfPrint(t6, EgyTimeRegister(s.egyTime.stored.GetOr(0)));
    assert Lines(t6) == Lines(t) + [DebugBanner, RunRegister(StoredOrZero(s.run)), EpCfgRegister(StoredOrZero(s.epCfg))];
  }

  lemma StepsOfPhases(s: Script, t: Transcript)
    ensures Steps(Phases(s, t).trace) == Steps(t) + PhaseSteps(s)
    ensures Releases(Phases(s, t).trace) == Releases(t)
  {
    var a := PhaseEvents(t, s.phaseA, PhaseA, Label(PhaseA));
    ViewsOfPhaseEvents(t, s.phaseA, PhaseA, Label(PhaseA));
    if s.phaseA.ret == 0 {
      var b := PhaseEvents(a, s.phaseB, PhaseB, Label(PhaseB));
      ViewsOfPhaseEvents(a, s.phaseB, PhaseB, Label(PhaseB));
      if s.phaseB.ret == 0 {
        var c := PhaseEvents(b, s.phaseC, PhaseC, Label(PhaseC));
        ViewsOfPhaseEvents(b, s.phaseC, PhaseC, Label(PhaseC));
        if s.phaseC.ret == 0 {
          ViewsOfDebugEvents(c, s);
        }
      }
    }
  }

  lemma LinesOfPhases(s: Script, t: Transcript)
    ensures Lines(Phases(s, t).trace) == Lines(t) + PhaseReport(s, AllPhases) + (if PhasesOk(s) then DebugLines(s) else [])
  {
    var la, lb, lc := PhaseLines(s.phaseA, Label(PhaseA)), PhaseLines(s.phaseB, Label(PhaseB)), PhaseLines(s.phaseC, Label(PhaseC));
    var ta := PhaseEvents(t, s.phaseA, PhaseA, Label(PhaseA));
    ViewsOfPhaseEvents(t, s.phaseA, PhaseA, Label(PhaseA));
    assert AllPhases[1..] == [PhaseB, PhaseC];
    assert [PhaseB, PhaseC][1..] == [PhaseC];
    if s.phaseA.ret != 0 {
      assert PhaseReport(s, AllPhases) == la;
    } else {
      var tb := PhaseEvents(ta, s.phaseB, PhaseB, Label(PhaseB));
      ViewsOfPhaseEvents(ta, s.phaseB, PhaseB, Label(PhaseB));
      AppendAssoc(Lines(t), la, lb);
      if s.phaseB.ret != 0 {
        assert PhaseReport(s, [PhaseB, PhaseC]) == lb;
        assert PhaseReport(s, AllPhases) == la + lb;
      } else {
        var tc := PhaseEvents(tb, s.phaseC, PhaseC, Label(PhaseC));
        ViewsOfPhaseEvents(tb, s.phaseC, PhaseC, Label(PhaseC));
        assert PhaseReport(s, [PhaseC]) == lc;
        assert PhaseReport(s, [PhaseB, PhaseC]) == lb + lc;
        assert PhaseReport(s, AllPhases) == la + (lb + lc);
        AppendAssoc(la, lb, lc);
        AppendAssoc(Lines(t), la + lb, lc);
        if s.phaseC.ret == 0 {
          ViewsOfDebugEvents(tc, s);
        }
      }
    }
  }

  lemma FirstFailureByCase(s: Script)
    ensures FirstFailure(Codes(s)) ==
      if s.uartRet != 0 then 0
      else if s.devRet != 0 then 1
      else if s.egyRet != 0 then 2
      else if s.tempRet != 0 then 3
      else if s.phaseA.ret != 0 then 4
      else if s.phaseB.ret != 0 then 5
      else if s.phaseC.ret != 0 then 6
      else 7
  {
    var c := Codes(s);
    if s.uartRet != 0 {
      FirstFailureIs(c, 0);
    } else if s.devRet != 0 {
      FirstFailureIs(c, 1);
    } else if s.egyRet != 0 {
      FirstFailureIs(c, 2);
    } else if s.tempRet != 0 {
      FirstFailureIs(c, 3);
    } else if s.phaseA.ret != 0 {
      FirstFailureIs(c, 4);
    } else if s.phaseB.ret != 0 {
      FirstFailureIs(c, 5);
    } else if s.phaseC.ret != 0 {
      FirstFailureIs(c, 6);
    } else {
      FirstFailureIs(c, 7);
    }
  }

  // ---------------------------------------------------------------------------
  // Properties of a whole run

  /** main returns 0 when every checked step succeeds, and otherwise the code of the first that fails. */
  lemma StatusIsFirstError(s: Script, nrSamples: uint32, t: Transcript)
    ensures Run(s, nrSamples, t).status == FirstError(Codes(s))
  {
    FirstFailureByCase(s);
  }

  lemma AppendAssoc<T>(a: seq<T>, b: seq<T>, c: seq<T>)
    ensures a + (b + c) == a + b + c
  {
  }

  lemma SuffixOfAppend<T>(a: seq<T>, b: seq<T>)
    ensures (a + b)[|a|..] == b
  {
  }

  /** How a call extends each view. */
  lemma ViewsOfCall(t: Transcript, x: Step)
    ensures Steps(Then(t, Call(x))) == Steps(t) + [x]
    ensures Releases(Then(t, Call(x))) == Releases(t)
    ensures Lines(Then(t, Call(x))) == Lines(t)
  {
  }

  /** How a printed line extends each view. */
  lemma ViewsOfPrint(t: Transcript, l: Line)
    ensures Steps(Then(t, Print(l))) == Steps(t)
    ensures Releases(Then(t, Print(l))) == Releases(t)
    ensures Lines(Then(t, Print(l))) == Lines(t) + [l]
  {
  }

  /** How a release extends each view. */
  lemma ViewsOfRelease(t: Transcript, e: Event)
    requires e == RemoveDev || e == RemoveUart
    ensures Steps(Then(t, e)) == Steps(t)
    ensures Releases(Then(t, e)) == Releases(t) + [e]
    ensures Lines(Then(t, e)) == Lines(t)
  {
  }

  lemma StepsOfMeasurements(s: Script, nrSamples: uint32, t: Transcript)
    ensures Steps(Measurements(s, nrSamples, t).trace) == Steps(t) + MeasurementSteps(s, nrSamples)
    ensures Releases(Measurements(s, nrSamples, t).trace) == Releases(t)
  {
    var egy := SetEgyModel(nrSamples, EGY_ACCUM_SAMPLES);
    var t1 := Then(t, Call(egy));
    ViewsOfCall(t, egy);
    if s.egyRet != 0 {
      ViewsOfPrint(t1, EgyModelFailed(s.egyRet));
      assert MeasurementSteps(s, nrSamples) == [egy];
    } else {
      var t2 := Then(t1, Call(ReadTemp));
      ViewsOfCall(t1, ReadTemp);
      AppendAssoc(Steps(t), [egy], [ReadTemp]);
      if s.tempRet != 0 {
        ViewsOfPrint(t2, TempFailed(s.tempRet));
        assert MeasurementSteps(s, nrSamples) == [egy, ReadTemp];
      } else {
        var t3 := Then(t2, Print(Temperature(s.tempDeg)));
        var t4 := Then(t3, Print(PhaseBanner));
        ViewsOfPrint(t2, Temperature(s.tempDeg));
        ViewsOfPrint(t3, PhaseBanner);
        StepsOfPhases(s, t4);
        assert MeasurementSteps(s, nrSamples) == [egy, ReadTemp] + PhaseSteps(s);
        AppendAssoc(Steps(t), [egy, ReadTemp], PhaseSteps(s));
      }
    }
  }

  lemma ViewsOfCleanup(t: Transcript, devicePresent: bool)
    ensures Steps(Cleanup(t, devicePresent)) == Steps(t)
    ensures Releases(Cleanup(t, devicePresent)) == Releases(t) + if devicePresent then [RemoveDev, RemoveUart] else [RemoveUart]
    ensures Lines(Cleanup(t, devicePresent)) == Lines(t)
  {
    if devicePresent {
      ViewsOfRelease(t, RemoveDev);
      ViewsOfRelease(Then(t, RemoveDev), RemoveUart);
    } else {
      ViewsOfRelease(t, RemoveUart);
    }
  }

  lemma ViewsOfOpened(t: Transcript)
    ensures Steps(Opened(t)) == Steps(t) + [UartInit, UartStdio, DevInit]
    ensures Releases(Opened(t)) == Releases(t)
    ensures Lines(Opened(t)) == Lines(t) + [Banner]
  {
    var t1 := Then(t, Call(UartInit));
    var t2 := Then(t1, Call(UartStdio));
    var t3 := Then(t2, Print(Banner));
    ViewsOfCall(t, UartInit);
    ViewsOfCall(t1, UartStdio);
    ViewsOfPrint(t2, Banner);
    ViewsOfCall(t3, DevInit);
  }

  /** The calls of a run, case by case. */
  lemma StepsOfRun(s: Script, nrSamples: uint32, t: Transcript)
    ensures Steps(Run(s, nrSamples, t).trace) == Steps(t) +
      if s.uartRet != 0 then [UartInit]
      else [UartInit, UartStdio, DevInit] + (if s.devRet != 0 then [] else MeasurementSteps(s, nrSamples))
  {
    if s.uartRet != 0 {
      ViewsOfCall(t, UartInit);
    } else {
      var session := Session(s, nrSamples, t);
      ViewsOfCleanup(session.trace, s.devRet == 0);
      ViewsOfOpened(t);
      if s.devRet != 0 {
        ViewsOfPrint(Opened(t), InitFailed(s.devRet));
      } else {
        StepsOfMeasurements(s, nrSamples, Opened(t));
        AppendAssoc(Steps(t), [UartInit, UartStdio, DevInit], MeasurementSteps(s, nrSamples));
      }
    }
  }

  /**
   * The calls of a run are the protocol up to and including the first
   * failing checked step: nothing is called after a failure, and the debug
   * registers are read only when every step before them succeeded.
   */
  lemma CallsFollowProtocol(s: Script, nrSamples: uint32, t: Transcript)
    ensures Steps(Run(s, nrSamples, t).trace) == Steps(t) + Protocol(nrSamples)[..Reached(s)]
  {
    FirstFailureByCase(s);
    StepsOfRun(s, nrSamples, t);
  }

  lemma ReleasesOfSession(s: Script, nrSamples: uint32, t: Transcript)
    ensures Releases(Session(s, nrSamples, t).trace) == Releases(t)
  {
    ViewsOfOpened(t);
    if s.devRet != 0 {
      ViewsOfPrint(Opened(t), InitFailed(s.devRet));
    } else {
      StepsOfMeasurements(s, nrSamples, Opened(t));
    }
  }

  /**
   * A failed UART open releases nothing; otherwise the UART is released once,
   * preceded by the device exactly when its initialisation succeeded.
   */
  lemma ReleasesMatchAcquisitions(s: Script, nrSamples: uint32, t: Transcript)
    ensures Releases(Run(s, nrSamples, t).trace) == Releases(t) +
      if s.uartRet != 0 then [] else if s.devRet != 0 then [RemoveUart] else [RemoveDev, RemoveUart]
  {
    if s.uartRet != 0 {
      ViewsOfCall(t, UartInit);
    } else {
      ReleasesOfSession(s, nrSamples, t);
      ViewsOfCleanup(Session(s, nrSamples, t).trace, s.devRet == 0);
    }
  }

  /** The device is released exactly once if it was initialised and never otherwise; the UART likewise. */
  lemma EachHandleReleasedOnce(s: Script, nrSamples: uint32, t: Transcript)
    ensures multiset(Releases(Run(s, nrSamples, t).trace))[RemoveDev] ==
      multiset(Releases(t))[RemoveDev] + if s.uartRet == 0 && s.devRet == 0 then 1 else 0
    ensures multiset(Releases(Run(s, nrSamples, t).trace))[RemoveUart] ==
      multiset(Releases(t))[RemoveUart] + if s.uartRet == 0 then 1 else 0
  {
    ReleasesMatchAcquisitions(s, nrSamples, t);
  }

  /**
   * Once the UART opened, the run ends with the cleanup: the UART release is
   * the last event, and the event before it is the device release exactly
   * when the device was initialised.
   */
  lemma CleanupComesLast(s: Script, nrSamples: uint32, t: Transcript)
    requires s.uartRet == 0
    ensures Run(s, nrSamples, t).trace.Then? && Run(s, nrSamples, t).trace.last == RemoveUart
    ensures Run(s, nrSamples, t).trace.before.Then?
    ensures Run(s, nrSamples, t).trace.before.last == RemoveDev <==> s.devRet == 0
  {
    var session := Session(s, nrSamples, t);
    if s.devRet != 0 {
      assert session.trace.last.Print?;
    }
  }

  /** A failed UART open ends the run at once: only that call, and its code as the status. */
  lemma UartFailureReturnsAtOnce(s: Script, nrSamples: uint32, t: Transcript)
    requires s.uartRet != 0
    ensures Steps(Run(s, nrSamples, t).trace) == Steps(t) + [UartInit]
    ensures Releases(Run(s, nrSamples, t).trace) == Releases(t)
    ensures Lines(Run(s, nrSamples, t).trace) == Lines(t)
    ensures Run(s, nrSamples, t).status == s.uartRet
  {
    ViewsOfCall(t, UartInit);
  }

  lemma LinesOfMeasurements(s: Script, nrSamples: uint32, t: Transcript)
    ensures Lines(Measurements(s, nrSamples, t).trace) == Lines(t) + MeasurementReport(s)
  {
    var t1 := Then(t, Call(SetEgyModel(nrSamples, EGY_ACCUM_SAMPLES)));
    ViewsOfCall(t, SetEgyModel(nrSamples, EGY_ACCUM_SAMPLES));
    if s.egyRet != 0 {
      ViewsOfPrint(t1, EgyModelFailed(s.egyRet));
    } else {
      var t2 := Then(t1, Call(ReadTemp));
      ViewsOfCall(t1, ReadTemp);
      if s.tempRet != 0 {
        ViewsOfPrint(t2, TempFailed(s.tempRet));
      } else {
        var t3 := Then(t2, Print(Temperature(s.tempDeg)));
        var t4 := Then(t3, Print(PhaseBanner));
        ViewsOfPrint(t2, Temperature(s.tempDeg));
        ViewsOfPrint(t3, PhaseBanner);
        assert Lines(t4) == Lines(t) + [Temperature(s.tempDeg), PhaseBanner];
        assert Measurements(s, nrSamples, t) == Phases(s, t4);
        LinesOfPhases(s, t4);
        var p := PhaseReport(s, AllPhases);
        var d := if PhasesOk(s) then DebugLines(s) else [];
        assert MeasurementReport(s) == [Temperature(s.tempDeg), PhaseBanner] + p + d;
        AppendAssoc(Lines(t), [Temperature(s.tempDeg), PhaseBanner], p);
        AppendAssoc(Lines(t), [Temperature(s.tempDeg), PhaseBanner] + p, d);
      }
    }
  }

  /**
   * A run prints exactly its report: the banner, then for each step that is
   * reached its values or its error, in program order; a failure prints its
   * own line and nothing after it, and keeps everything printed before.
   */
  lemma OutputIsReport(s: Script, nrSamples: uint32, t: Transcript)
    ensures Lines(Run(s, nrSamples, t).trace) == Lines(t) + Report(s)
  {
    if s.uartRet != 0 {
      ViewsOfCall(t, UartInit);
    } else {
      var session := Session(s, nrSamples, t);
      ViewsOfCleanup(session.trace, s.devRet == 0);
      ViewsOfOpened(t);
      if s.devRet != 0 {
        ViewsOfPrint(Opened(t), InitFailed(s.devRet));
      } else {
        LinesOfMeasurements(s, nrSamples, Opened(t));
      }
    }
  }

  /**
   * When the UART, device, energy model and temperature steps succeed, the
   * phases report in the order A, B, C after the temperature, and the first
   * failing phase is the last one reported.
   */
  lemma PhasesReportInOrder(s: Script, nrSamples: uint32, t: Transcript)
    requires s.uartRet == 0 && s.devRet == 0 && s.egyRet == 0 && s.tempRet == 0
    ensures s.phaseA.ret != 0 ==>
      Lines(Run(s, nrSamples, t).trace) ==
        Lines(t) + [Banner, Temperature(s.tempDeg), PhaseBanner, PhaseFailed(Label(PhaseA), s.phaseA.ret)]
    ensures s.phaseA.ret == 0 && s.phaseB.ret != 0 ==>
      Lines(Run(s, nrSamples, t).trace) ==
        Lines(t) + [Banner, Temperature(s.tempDeg), PhaseBanner] + PhaseLines(s.phaseA, Label(PhaseA)) +
        [PhaseFailed(Label(PhaseB), s.phaseB.ret)]
    ensures s.phaseA.ret == 0 && s.phaseB.ret == 0 && s.phaseC.ret != 0 ==>
      Lines(Run(s, nrSamples, t).trace) ==
        Lines(t) + [Banner, Temperature(s.tempDeg), PhaseBanner] + PhaseLines(s.phaseA, Label(PhaseA)) +
        PhaseLines(s.phaseB, Label(PhaseB)) + [PhaseFailed(Label(PhaseC), s.phaseC.ret)]
  {
    OutputIsReport(s, nrSamples, t);
    var head := [Banner, Temperature(s.tempDeg), PhaseBanner];
    var p := PhaseReport(s, AllPhases);
    var d := if PhasesOk(s) then DebugLines(s) else [];
    assert Report(s) == [Banner] + ([Temperature(s.tempDeg), PhaseBanner] + p + d);
    AppendAssoc([Banner], [Temperature(s.tempDeg), PhaseBanner] + p, d);
    AppendAssoc([Banner], [Temperature(s.tempDeg), PhaseBanner], p);
    assert [Banner] + [Temperature(s.tempDeg), PhaseBanner] == head;
    AppendAssoc(Lines(t), head, p);
    AppendAssoc(Lines(t), head + p, d);
    assert AllPhases[1..] == [PhaseB, PhaseC];
    assert [PhaseB, PhaseC][1..] == [PhaseC];
    var a := PhaseLines(s.phaseA, Label(PhaseA));
    var b := PhaseLines(s.phaseB, Label(PhaseB));
    if s.phaseA.ret != 0 {
      assert p == [PhaseFailed(Label(PhaseA), s.phaseA.ret)];
    } else if s.phaseB.ret != 0 {
      assert PhaseReport(s, [PhaseB, PhaseC]) == [PhaseFailed(Label(PhaseB), s.phaseB.ret)];
      assert p == a + [PhaseFailed(Label(PhaseB), s.phaseB.ret)];
      AppendAssoc(Lines(t) + head, a, [PhaseFailed(Label(PhaseB), s.phaseB.ret)]);
    } else if s.phaseC.ret != 0 {
      var c := [PhaseFailed(Label(PhaseC), s.phaseC.ret)];
      assert PhaseReport(s, [PhaseC]) == c;
      assert PhaseReport(s, [PhaseB, PhaseC]) == b + c;
      assert p == a + (b + c);
      AppendAssoc(Lines(t) + head, a, b + c);
      AppendAssoc(Lines(t) + head + a, b, c);
    }
  }

  /**
   * When every checked step succeeds, the run's last four lines are the debug
   * block: the banner and the three register values, each the value its read
   * stored or 0, whatever codes the reads returned.
   */
  lemma DebugBlockAlwaysPrints(s: Script, nrSamples: uint32, t: Transcript)
    requires forall j :: 0 <= j < |Codes(s)| ==> Codes(s)[j] == 0
    ensures |Lines(Run(s, nrSamples, t).trace)| >= 4
    ensures Lines(Run(s, nrSamples, t).trace)[|Lines(Run(s, nrSamples, t).trace)| - 4..] == DebugLines(s)
  {
    OutputIsReport(s, nrSamples, t);
    assert s.uartRet == Codes(s)[0] && s.devRet == Codes(s)[1] && s.egyRet == Codes(s)[2] && s.tempRet == Codes(s)[3];
    assert s.phaseA.ret == Codes(s)[4] && s.phaseB.ret == Codes(s)[5] && s.phaseC.ret == Codes(s)[6];
    var x := [Temperature(s.tempDeg), PhaseBanner] + PhaseReport(s, AllPhases);
    assert Report(s) == [Banner] + (x + DebugLines(s));
    AppendAssoc([Banner], x, DebugLines(s));
    AppendAssoc(Lines(t), [Banner] + x, DebugLines(s));
    SuffixOfAppend(Lines(t) + ([Banner] + x), DebugLines(s));
  }

  /**
   * The debug-register reads never change the status or the calls made: a run
   * whose three register reads return other codes or store other values
   * returns the same status and makes the same calls.
   */
  lemma DebugReadsNeverGateStatus(s: Script, nrSamples: uint32, t: Transcript, run: RegisterRead, epCfg: RegisterRead, egyTime: RegisterRead)
    ensures Run(s.(run := run, epCfg := epCfg, egyTime := egyTime), nrSamples, t).status == Run(s, nrSamples, t).status
    ensures Steps(Run(s.(run := run, epCfg := epCfg, egyTime := egyTime), nrSamples, t).trace) == Steps(Run(s, nrSamples, t).trace)
  {
    var s' := s.(run := run, epCfg := epCfg, egyTime := egyTime);
    assert Codes(s') == Codes(s);
    StatusIsFirstError(s, nrSamples, t);
    StatusIsFirstError(s', nrSamples, t);
    CallsFollowProtocol(s, nrSamples, t);
    CallsFollowProtocol(s', nrSamples, t);
  }
}
