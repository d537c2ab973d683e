/**
 * The outside world of the bring-up example: the no-OS UART layer and the
 * ADE9430 driver. Their code is not part of this model; each call returns the
 * code an outcome script prescribes, and every call, printed line and release
 * is appended to a transcript. A ghost set records which handles are live, so
 * a call on a handle that was never acquired or already released does not verify.
 */
module Platform {
  import opened Basics

  datatype Phase = PhaseA | PhaseB | PhaseC

  /** The three debug registers read at the end of the run. */
  datatype Register = RegRun | RegEpCfg | RegEgyTime

  /** A call into the UART layer or the driver, other than a release. */
  datatype Step =
    | UartInit
    | UartStdio
    | DevInit
    | SetEgyModel(nrSamples: uint32, accumSamples: uint32)
    | ReadTemp
    | ReadPhase(phase: Phase)
    | ReadRegister(reg: Register)

  /** One line of the diagnostic transcript, with the values it shows. */
  datatype Line =
    | Banner
    | InitFailed(err: int32)
    | EgyModelFailed(err: int32)
    | TempFailed(err: int32)
    | Temperature(deg: int32)
    | PhaseBanner
    | PhaseFailed(name: string, err: int32)
    | PhaseTitle(name: string)
    | Current(raw: uint32)
    | Voltage(raw: uint32)
    | Power(raw: uint32)
    | DebugBanner
    | RunRegister(raw: uint32)
    | EpCfgRegister(raw: uint32)
    | EgyTimeRegister(raw: uint32)

  datatype Event = Call(step: Step) | Print(line: Line) | RemoveDev | RemoveUart

  /** Events in the order they happened: `Then(t, e)` is transcript `t` followed by event `e`. */
  datatype Transcript = Empty | Then(before: Transcript, last: Event)

  /** What one phase read returns, and the values it leaves in the device record on success. */
  datatype PhaseReading = PhaseReading(ret: int32, irms: uint32, vrms: uint32, watt: uint32)

  /** What one raw register read returns, and the value it stores, if any. */
  datatype RegisterRead = RegisterRead(ret: int32, stored: Option<uint32>)

  /** The outcome of every call the example can make, one entry per call. */
  datatype Script = Script(
    uartRet: int32,
    devRet: int32,
    egyRet: int32,
    tempRet: int32,
    tempDeg: int32,
    phaseA: PhaseReading,
    phaseB: PhaseReading,
    phaseC: PhaseReading,
    run: RegisterRead,
    epCfg: RegisterRead,
    egyTime: RegisterRead)
  {
    function Reading(p: Phase): PhaseReading {
      match p
      case PhaseA => phaseA
      case PhaseB => phaseB
      case PhaseC => phaseC
    }

    function RegisterOutcome(r: Register): RegisterRead {
      match r
      case RegRun => run
      case RegEpCfg => epCfg
      case RegEgyTime => egyTime
    }
  }

  /** An open UART descriptor. */
  class UartDesc {
    constructor () {}
  }

  /** An ADE9430 device session; the read calls store their results in its fields. */
  class Ade9430Dev {
    var irmsVal: uint32
    var vrmsVal: uint32
    var wattVal: uint32
    var tempDeg: int32

    constructor ()
      ensures irmsVal == 0 && vrmsVal == 0 && wattVal == 0 && tempDeg == 0
    {
      irmsVal, vrmsVal, wattVal, tempDeg := 0, 0, 0, 0;
    }
  }

  class Board {
    /** The prescribed outcome of every call. */
    const script: Script
    /** The driver's number of samples per energy accumulation interval. */
    const egyNrSamples: uint32
    /** Everything the example has done so far, in order. */
    var trace: Transcript
    /** The handles acquired and not yet released. */
    ghost var live: set<object>
    /** The UART that standard output is routed to, if any. */
    ghost var console: UartDesc?

    constructor (script: Script, egyNrSamples: uint32)
      ensures this.script == script && this.egyNrSamples == egyNrSamples
      ensures trace == Empty && live == {} && console == null
    {
      this.script := script;
      this.egyNrSamples := egyNrSamples;
      trace := Empty;
      live := {};
      console := null;
    }

    /**
     * no_os_uart_init: `uart0` is what the caller's pointer holds before the
     * call. On success the pointer receives a fresh live descriptor; on
     * failure it is left untouched and nothing is acquired.
     */
    method NoOsUartInit(uart0: UartDesc?) returns (ret: int32, uart: UartDesc?)
      modifies this
      ensures ret == script.uartRet
      ensures ret == 0 ==> uart != null && fresh(uart) && live == old(live) + {uart}
      ensures ret != 0 ==> uart == uart0 && live == old(live)
      ensures console == old(console)
      ensures trace == Then(old(trace), Call(UartInit))
    {
      ret := script.uartRet;
      uart := uart0;
      if ret == 0 {
        uart := new UartDesc();
        live := live + {uart};
      }
      trace := Then(trace, Call(UartInit));
    }

    /** no_os_uart_stdio: routes later output to the UART; it has no failure path. */
    method NoOsUartStdio(uart: UartDesc)
      requires uart in live
      modifies this
      ensures live == old(live)
      ensures console == uart
      ensures trace == Then(old(trace), Call(UartStdio))
    {
      console := uart;
      trace := Then(trace, Call(UartStdio));
    }

    /**
     * ade9430_init: `dev0` is what the caller's pointer holds before the
     * call. On success the pointer receives a fresh live session; on failure
     * it is left untouched and nothing is acquired.
     */
    method Ade9430Init(dev0: Ade9430Dev?) returns (ret: int32, dev: Ade9430Dev?)
      modifies this
      ensures ret == script.devRet
      ensures ret == 0 ==> dev != null && fresh(dev) && live == old(live) + {dev}
      ensures ret != 0 ==> dev == dev0 && live == old(live)
      ensures console == old(console)
      ensures trace == Then(old(trace), Call(DevInit))
    {
      ret := script.devRet;
      dev := dev0;
      if ret == 0 {
        dev := new Ade9430Dev();
        live := live + {dev};
      }
      trace := Then(trace, Call(DevInit));
    }

    /** ade9430_set_egy_model. */
    method Ade9430SetEgyModel(dev: Ade9430Dev, nrSamples: uint32, accumSamples: uint32) returns (ret: int32)
      requires dev in live
      modifies this
      ensures ret == script.egyRet
      ensures live == old(live)
      ensures console == old(console)
      ensures trace == Then(old(trace), Call(SetEgyModel(nrSamples, accumSamples)))
    {
      ret := script.egyRet;
      trace := Then(trace, Call(SetEgyModel(nrSamples, accumSamples)));
    }

    /** ade9430_read_temp: on success the temperature is in the device record. */
    method Ade9430ReadTemp(dev: Ade9430Dev) returns (ret: int32)
      requires dev in live
      modifies this, dev
      ensures ret == script.tempRet
      ensures ret == 0 ==> dev.tempDeg == script.tempDeg
      ensures live == old(live)
      ensures console == old(console)
      ensures trace == Then(old(trace), Call(ReadTemp))
    {
      ret := script.tempRet;
      if ret == 0 {
        dev.tempDeg := script.tempDeg;
      }
      trace := Then(trace, Call(ReadTemp));
    }

    /** ade9430_read_data_ph: on success current, voltage and power are in the device record. */
    method Ade9430ReadDataPh(dev: Ade9430Dev, phase: Phase) returns (ret: int32)
      requires dev in live
      modifies this, dev
      ensures ret == script.Reading(phase).ret
      ensures ret == 0 ==>
        && dev.irmsVal == script.Reading(phase).irms
        && dev.vrmsVal == script.Reading(phase).vrms
        && dev.wattVal == script.Reading(phase).watt
      ensures live == old(live)
      ensures console == old(console)
      ensures trace == Then(old(trace), Call(ReadPhase(phase)))
    {
      var r := script.Reading(phase);
      ret := r.ret;
      if ret == 0 {
        dev.irmsVal, dev.vrmsVal, dev.wattVal := r.irms, r.vrms, r.watt;
      }
      trace := Then(trace, Call(ReadPhase(phase)));
    }

    /** ade9430_read: `val` is the caller's variable; it is overwritten only if the read stores a value. */
    method Ade9430Read(dev: Ade9430Dev, reg: Register, val: uint32) returns (ret: int32, val': uint32)
      requires dev in live
      modifies this
      ensures ret == script.RegisterOutcome(reg).ret
      ensures val' == script.RegisterOutcome(reg).stored.GetOr(val)
      ensures live == old(live)
      ensures console == old(console)
      ensures trace == Then(old(trace), Call(ReadRegister(reg)))
    {
      var r := script.RegisterOutcome(reg);
      ret := r.ret;
      val' := r.stored.GetOr(val);
      trace := Then(trace, Call(ReadRegister(reg)));
    }

    /** printf on the diagnostic channel, which must be bound to a live UART. */
    method Printf(line: Line)
      requires console != null && console in live
      modifies this
      ensures console == old(console)
      ensures live == old(live)
      ensures trace == Then(old(trace), Print(line))
    {
      trace := Then(trace, Print(line));
    }

    /** ade9430_remove: the session must be live, and is not afterwards. */
    method Ade9430Remove(dev: Ade9430Dev)
      requires dev in live
      modifies this
      ensures live == old(live) - {dev}
      ensures console == old(console)
      ensures trace == Then(old(trace), RemoveDev)
    {
      live := live - {dev};
      trace := Then(trace, RemoveDev);
    }

    /** no_os_uart_remove: the descriptor must be live, and is not afterwards. */
    method NoOsUartRemove(uart: UartDesc)
      requires uart in live
      modifies this
      ensures live == old(live) - {uart}
      ensures console == old(console)
      ensures trace == Then(old(trace), RemoveUart)
    {
      live := live - {uart};
      trace := Then(trace, RemoveUart);
    }
  }
}
