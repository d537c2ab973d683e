# ADE9430 + STM32 bring-up example, modelled in Dafny

The firmware's `main` is a one-shot bring-up sequence for the ADE9430
energy-metering front end. It does the following, in order:

1. Opens the diagnostic UART and routes `printf` to it.
2. Prints a banner and initialises the ADE9430 driver session.
3. Configures the energy-accumulation model and reads the temperature.
4. Reads phases A, B and C through `ade9430_print_phase`.
5. Reads three debug registers (RUN, EP_CFG, EGY_TIME).

Every failure after the UART is open prints an error line and jumps to one
`cleanup:` label. That label removes the device session, if one was created,
and then the UART. `main` returns 0 or the first non-zero error code.

The model has these parts:

- `basics.dfy`: the target's `int`/`uint32_t` as bounded subset types, and an `Option`.
- `platform.dfy`: the outside world as a class `Board`.
  - The board holds an outcome script: one prescribed return code, and the values stored, for every call the example can make.
  - Every call, printed line and release is appended to a transcript.
  - A ghost set `live` holds the handles that were acquired and not yet released. The UART descriptor and the device session are objects; the read calls write the device session's fields in place.
  - The remove calls and the driver calls that take a handle require it to be live. So a double release, or a use after release, does not verify.
  - A ghost field `console` records the UART that `no_os_uart_stdio` bound standard output to. `Printf` requires it to be live, so printing before the binding or after the UART's release does not verify.
  - The UART layer and the driver are not part of this model. Each of their functions is a `Board` method whose contract is what `main` relies on.
- `example.dfy`: the program itself.
  - `BringUp` is `main`, `Measure` is the part of `main` that runs while the device session is open, and `PrintPhase` is `ade9430_print_phase`.
  - These are imperative methods on the board. `goto cleanup` is a labelled block left with `break`.
  - They are proved equal to the specification function `Run`: the exact transcript and the exact status of a run.
  - `BringUp` also proves that the live handles afterwards are exactly those before, so nothing leaks.
- `properties.dfy`: what `main.c` guarantees, proved about `Run` for every outcome script. It uses three views of a transcript: the calls, the releases and the printed lines.
- `scenarios.dfy`: four concrete runs worked out from those properties: the happy path, a device-init failure, a phase-B failure and an energy-model failure.

`main` is named `BringUp` because a method named `Main` would be an entry point.

`ADE9430_EGY_ACCUM_SAMPLES` is the constant 7999 (`parameters.h`). `ADE9430_EGY_NR_SAMPLES` comes from a driver header that is not part of this model. It is a constant of the board, `egyNrSamples`, and nothing is assumed about its value.

### Modelling notes

- **Early UART failure.** The early `return ret` after a failed UART open skips the cleanup label. The model does the same. This matters little, because no handle exists yet: the only observable effect is the one `UartInit` call.
- **The `Measure` method.** It exists to keep each proof small. Its early `return`s stand for the `goto cleanup` jumps; `BringUp` then runs the cleanup.
- **Failed init calls.** The init calls take the caller's pointer and leave it untouched on failure, as `main`'s cleanup relies on. The device handle is therefore NULL after a failed `ade9430_init` only because `main` initialises it to NULL, and the proof of `BringUp` uses that initialiser. The model assumes the same of `no_os_uart_init`.
- **Failed reads.** A failed phase or temperature read leaves the device fields unspecified, and `main` does not print them.
- **The debug registers.** `ade9430_read` is given the variable's current value and returns its new value: either the value the read stored, or the old one.

## Model

| member | source | states |
|---|---|---|
| Example.BringUp | src/platform/stm32/main.c:73-137 | the whole of `main`: the transcript and status are exactly those of `Run`; every handle acquired is released before return (the live set is unchanged) |
| Example.Measure | src/platform/stm32/main.c:95-128 | the device-session steps each check their code and stop at the first failure; the transcript and status are those of `Measurements` |
| Example.PrintPhase | src/platform/stm32/main.c:51-68 | returns the phase read's code unchanged; the events after the read depend only on that code and the values the read stored |
| Platform.Board.NoOsUartInit | src/platform/stm32/main.c:82-84 | the UART open yields a fresh live descriptor exactly when it returns 0; on failure the caller's pointer keeps its value and nothing is acquired |
| Platform.Board.NoOsUartStdio | src/platform/stm32/main.c:86 | needs a live descriptor; binds standard output to it; has no failure path |
| Platform.Board.Printf | src/platform/stm32/main.c:87 | prints one line, only while standard output is bound to a live UART |
| Platform.Board.Ade9430Init | src/platform/stm32/main.c:89-93 | the device init yields a fresh live session on 0; on failure the caller's pointer keeps its value and nothing is acquired |
| Platform.Board.Ade9430SetEgyModel | src/platform/stm32/main.c:95-97 | needs a live session; records the sample counts it was given and returns the scripted code |
| Platform.Board.Ade9430ReadTemp | src/platform/stm32/main.c:103-108 | needs a live session; on 0 the temperature is in the session record |
| Platform.Board.Ade9430ReadDataPh | src/platform/stm32/main.c:55 | needs a live session; on 0 current, voltage and power of the phase are in the session record |
| Example.Run | src/platform/stm32/main.c:73-137 | definition of a whole run's transcript and status; what it guarantees is proved in `Properties` (`CallsFollowProtocol`, `ReleasesMatchAcquisitions`, `OutputIsReport`, `StatusIsFirstError`) |
| Example.Opened | src/platform/stm32/main.c:82-89 | definition of the events up to the device init once the UART opened; its views are proved in `Properties.ViewsOfOpened` |
| Example.Session | src/platform/stm32/main.c:89-128 | definition of what happens between the device init and the cleanup label; proved about in `Properties.ReleasesOfSession` and `Properties.StepsOfRun` |
| Example.Measurements | src/platform/stm32/main.c:95-128 | definition of the device-session steps; proved about in `Properties.StepsOfMeasurements` and `Properties.LinesOfMeasurements` |
| Example.Phases | src/platform/stm32/main.c:111-128 | definition of the three phase blocks and the debug block; proved about in `Properties.StepsOfPhases` and `Properties.LinesOfPhases` |
| Example.PhaseEvents | src/platform/stm32/main.c:55-67 | definition of one phase block; its views are proved in `Properties.ViewsOfPhaseEvents` |
| Example.DebugEvents | src/platform/stm32/main.c:121-128 | definition of the debug block; its views are proved in `Properties.ViewsOfDebugEvents` |
| Example.Cleanup | src/platform/stm32/main.c:130-134 | definition of the cleanup label; its views are proved in `Properties.ViewsOfCleanup` |
| Platform.Board.Ade9430Remove | src/platform/stm32/main.c:131-132 | only a live session can be removed, and it is not live afterwards |
| Platform.Board.NoOsUartRemove | src/platform/stm32/main.c:133-134 | only a live descriptor can be removed, and it is not live afterwards |
| Platform.Board.Ade9430Read | src/platform/stm32/main.c:121-123 | the caller's variable ends up holding the stored value, or keeps its old value when nothing was stored |
| Properties.FirstFailure | src/platform/stm32/main.c:89-119 | the index of the first non-zero code: every earlier code is 0, and the one at the index is not |
| Properties.FirstError | src/platform/stm32/main.c:136 | 0 exactly when every code is 0; otherwise the first non-zero code |
| Properties.ViewsOfPhaseEvents | src/platform/stm32/main.c:55-67 | one phase block makes exactly one read and no release; it prints one error line carrying the code when the read fails, and otherwise the title and the three stored values |
| Properties.ViewsOfDebugEvents | src/platform/stm32/main.c:121-128 | the debug block reads RUN, EP_CFG and EGY_TIME in that order, then prints its banner and the three values |
| Properties.StepsOfPhases | src/platform/stm32/main.c:111-123 | phases are read in the order A, B, C; the first failing one is the last call; the registers are read only when all three succeed; no release |
| Properties.LinesOfPhases | src/platform/stm32/main.c:111-128 | the phase output is the phase report in order A, B, C, cut after the first failure, followed by the debug block only when every phase succeeded |
| Properties.FirstFailureByCase | src/platform/stm32/main.c:82-119 | the first failing checked step, case by case, in the program's order |
| Properties.StepsOfMeasurements | src/platform/stm32/main.c:95-123 | the device-session calls stop at the first failing step, and make no release |
| Properties.StepsOfRun | src/platform/stm32/main.c:82-123 | the calls of a whole run, case by case |
| Properties.CallsFollowProtocol | src/platform/stm32/main.c:82-123 | the calls are the fixed protocol cut just after the first failing checked step, so nothing runs after a failure |
| Properties.ViewsOfOpened | src/platform/stm32/main.c:82-89 | with the UART open, a run calls open, stdio and device init, and prints only the banner |
| Properties.ViewsOfCleanup | src/platform/stm32/main.c:130-134 | the cleanup makes no call and prints nothing; it releases the device, if present, and then the UART |
| Properties.ReleasesOfSession | src/platform/stm32/main.c:89-128 | nothing is released before the cleanup label |
| Properties.ReleasesMatchAcquisitions | src/platform/stm32/main.c:86-134 | no release after a failed UART open; otherwise the UART only, after a failed device init; otherwise the device, then the UART |
| Properties.EachHandleReleasedOnce | src/platform/stm32/main.c:77-134 | the device is released exactly once iff the UART and device inits succeeded, else never; the UART is released exactly once iff it opened |
| Properties.CleanupComesLast | src/platform/stm32/main.c:130-134 | once the UART opened, the last event is its release, and the one before it is the device release exactly when init succeeded |
| Properties.UartFailureReturnsAtOnce | src/platform/stm32/main.c:82-84 | a failed UART open makes that one call, releases nothing, prints nothing and returns its code |
| Properties.StatusIsFirstError | src/platform/stm32/main.c:75-136 | the status is 0 when every checked step succeeds and otherwise the first failing step's code |
| Properties.LinesOfMeasurements | src/platform/stm32/main.c:95-128 | the device-session output: the energy-model error, or the temperature error, or the temperature, banner, phases and debug block |
| Properties.OutputIsReport | src/platform/stm32/main.c:86-128 | a run prints exactly the banner and each reached step's values or error, in program order, nothing after a failure |
| Properties.PhasesReportInOrder | src/platform/stm32/main.c:110-119 | when phase A, B or C is the first to fail, the output is the earlier phases' values followed by that phase's error line |
| Properties.DebugBlockAlwaysPrints | src/platform/stm32/main.c:78-128 | after full success the last four lines are the debug banner and the three values, each the stored value or 0, whatever the read codes |
| Properties.DebugReadsNeverGateStatus | src/platform/stm32/main.c:121-123 | changing what the three register reads return changes neither the status nor the calls made |
| Scenarios.HappyPathPrintsEverySection | src/platform/stm32/main.c:86-136 | with every call succeeding, every section is printed, the status is 0, and both handles are released, device first |
| Scenarios.DeviceInitFailureReleasesOnlyTheUart | src/platform/stm32/main.c:89-93 | a device-init failure with code 5 prints the banner and the init error, returns 5 and releases only the UART |
| Scenarios.PhaseBFailureKeepsPhaseA | src/platform/stm32/main.c:111-116 | a phase-B failure with code 3 keeps phase A's output, never reads phase C, returns 3 and releases both handles |
| Scenarios.EnergyModelFailureStopsTheMeasurements | src/platform/stm32/main.c:95-101 | an energy-model failure with code 2 prints no temperature or phase output, returns 2 and releases both handles |

## Left out

- `stm32_init`, and the HAL clock and pin setup: platform I/O with no result that `main` checks.
- The ADE9430 driver and the no-OS UART layer are foreign code that is not part of this model. Each call returns the code the outcome script prescribes. Register encoding, the RMS and power computation, and the SPI/UART transport are not modelled.
- `parameters.c` and `parameters.h`: static configuration records. Only `ADE9430_EGY_ACCUM_SAMPLES` (7999) is used.
- `printf` formatting: each printed line is a labelled event carrying its values, such as `PhaseTitle(name)` or `Current(raw)`. The exact text and the hexadecimal format of EP_CFG are not modelled.
- Timeouts and concurrency: the program is single-threaded and blocking, and its timeouts live in the transport parameters.
- Platform.Board.Ade9430ReadDataPh and Platform.Board.Ade9430ReadTemp: on a failed read, the device fields are left unconstrained. The driver's behaviour there is not visible, and `main` never prints them.
