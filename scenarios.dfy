/**
 * Four concrete runs of the bring-up example, each worked out from the
 * general properties: the happy path, a device-initialisation failure, a
 * failure in the middle of the phases, and an energy-model failure.
 */
module Scenarios {
  import opened Basics
  import opened Platform
  import opened Example
  import opened Properties

  const Ok: PhaseReading := PhaseReading(0, 1000, 2000, 3000)

  /** Every call succeeds; the temperature is 25 and each phase reads (1000, 2000, 3000). */
  const HappyPath: Script := Script(
    0, 0, 0, 0, 25, Ok, Ok, Ok,
    RegisterRead(0, Some(1)), RegisterRead(0, Some(0x10)), RegisterRead(0, Some(500)))

  function PhaseOk(name: string): seq<Line> {
    [PhaseTitle(name), Current(1000), Voltage(2000), Power(3000)]
  }

  lemma HappyPathPrintsEverySection(nrSamples: uint32)
    ensures Run(HappyPath, nrSamples, Empty).status == 0
    ensures Lines(Run(HappyPath, nrSamples, Empty).trace) ==
      [Banner, Temperature(25), PhaseBanner] + PhaseOk("Phase A") + PhaseOk("Phase B") + PhaseOk("Phase C") +
      [DebugBanner, RunRegister(1), EpCfgRegister(0x10), EgyTimeRegister(500)]
    ensures Releases(Run(HappyPath, nrSamples, Empty).trace) == [RemoveDev, RemoveUart]
  {
    var s := HappyPath;
    StatusIsFirstError(s, nrSamples, Empty);
    FirstFailureIs(Codes(s), 7);
    OutputIsReport(s, nrSamples, Empty);
    ReleasesMatchAcquisitions(s, nrSamples, Empty);
    assert AllPhases[1..] == [PhaseB, PhaseC];
    assert [PhaseB, PhaseC][1..] == [PhaseC];
    assert PhaseReport(s, AllPhases) == PhaseOk("Phase A") + (PhaseOk("Phase B") + (PhaseOk("Phase C") + []));
  }

  lemma DeviceInitFailureReleasesOnlyTheUart(nrSamples: uint32)
    ensures Run(HappyPath.(devRet := 5), nrSamples, Empty).status == 5
    ensures Lines(Run(HappyPath.(devRet := 5), nrSamples, Empty).trace) == [Banner, InitFailed(5)]
    ensures Steps(Run(HappyPath.(devRet := 5), nrSamples, Empty).trace) == [UartInit, UartStdio, DevInit]
    ensures Releases(Run(HappyPath.(devRet := 5), nrSamples, Empty).trace) == [RemoveUart]
  {
    var s := HappyPath.(devRet := 5);
    StatusIsFirstError(s, nrSamples, Empty);
    FirstFailureIs(Codes(s), 1);
    OutputIsReport(s, nrSamples, Empty);
    CallsFollowProtocol(s, nrSamples, Empty);
    ReleasesMatchAcquisitions(s, nrSamples, Empty);
  }

  lemma PhaseBFailureKeepsPhaseA(nrSamples: uint32)
    ensures Run(HappyPath.(phaseB := PhaseReading(3, 0, 0, 0)), nrSamples, Empty).status == 3
    ensures Lines(Run(HappyPath.(phaseB := PhaseReading(3, 0, 0, 0)), nrSamples, Empty).trace) ==
      [Banner, Temperature(25), PhaseBanner] + PhaseOk("Phase A") + [PhaseFailed("Phase B", 3)]
    ensures ReadPhase(PhaseC) !in Steps(Run(HappyPath.(phaseB := PhaseReading(3, 0, 0, 0)), nrSamples, Empty).trace)
    ensures Releases(Run(HappyPath.(phaseB := PhaseReading(3, 0, 0, 0)), nrSamples, Empty).trace) == [RemoveDev, RemoveUart]
  {
    var s := HappyPath.(phaseB := PhaseReading(3, 0, 0, 0));
    StatusIsFirstError(s, nrSamples, Empty);
    FirstFailureIs(Codes(s), 5);
    PhasesReportInOrder(s, nrSamples, Empty);
    CallsFollowProtocol(s, nrSamples, Empty);
    assert Protocol(nrSamples)[..7] ==
      [UartInit, UartStdio, DevInit, SetEgyModel(nrSamples, EGY_ACCUM_SAMPLES), ReadTemp, ReadPhase(PhaseA), ReadPhase(PhaseB)];
    ReleasesMatchAcquisitions(s, nrSamples, Empty);
  }

  lemma EnergyModelFailureStopsTheMeasurements(nrSamples: uint32)
    ensures Run(HappyPath.(egyRet := 2), nrSamples, Empty).status == 2
    ensures Lines(Run(HappyPath.(egyRet := 2), nrSamples, Empty).trace) == [Banner, EgyModelFailed(2)]
    ensures Steps(Run(HappyPath.(egyRet := 2), nrSamples, Empty).trace) ==
      [UartInit, UartStdio, DevInit, SetEgyModel(nrSamples, EGY_ACCUM_SAMPLES)]
    ensures Releases(Run(HappyPath.(egyRet := 2), nrSamples, Empty).trace) == [RemoveDev, RemoveUart]
  {
    var s := HappyPath.(egyRet := 2);
    StatusIsFirstError(s, nrSamples, Empty);
    FirstFailureIs(Codes(s), 2);
    OutputIsReport(s, nrSamples, Empty);
    CallsFollowProtocol(s, nrSamples, Empty);
    ReleasesMatchAcquisitions(s, nrSamples, Empty);
  }
}
