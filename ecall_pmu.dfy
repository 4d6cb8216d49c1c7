/** The function-ID sub-dispatcher of the PMU extension (`rustsbi/src/ecall/pmu.rs`):
    a stateless decoding of the function ID and the argument registers into one
    call on the registry. */
module EcallPmu {
  import opened Sbi
  import opened PmuExtension

  /** Extension ID of the PMU extension ("PMU" in ASCII). */
  const EXTENSION_PMU: Usize := 0x504D55

  // Function IDs within the extension (SBI v0.3).
  const FUNCTION_PMU_NUM_COUNTERS: Usize := 0x0
  const FUNCTION_PMU_COUNTER_GET_INFO: Usize := 0x1
  const FUNCTION_PMU_COUNTER_CFG_MATCH: Usize := 0x2
  const FUNCTION_PMU_COUNTER_START: Usize := 0x3
  const FUNCTION_PMU_COUNTER_STOP: Usize := 0x4
  const FUNCTION_PMU_COUNTER_FW_READ: Usize := 0x5

  /** Declared with the value 0 and never read by the dispatcher. */
  const SBI_PMU_START_SET_INIT_VALUE: Usize := 0x0

  /** What one ecall asks for once its function ID is decoded: one constructor per
      arm of the dispatcher's `match`, carrying the parameters that arm forwards. */
  datatype Action =
    | NumCounters
    | CounterGetInfo
    | CounterCfgMatch
    | CounterStart(base: Usize, mask: Usize, flags: Usize, init: U64)
    | CounterStop(base: Usize, mask: Usize, flags: Usize)
    | CounterFwRead(idx: Usize)
    | Unknown

  /** The dispatcher's `match` on the function ID. Each ID in 0..5 selects its own
      arm, every other ID the fallback; start, stop and fw_read take their
      parameters from `param1` on, in order, and never look at `param0`. */
  function Route(fid: Usize, param0: Usize, param1: Usize, param2: Usize, param3: Usize, param4: U64)
    : (a: Action)
    ensures a.NumCounters? <==> fid == FUNCTION_PMU_NUM_COUNTERS
    ensures a.CounterGetInfo? <==> fid == FUNCTION_PMU_COUNTER_GET_INFO
    ensures a.CounterCfgMatch? <==> fid == FUNCTION_PMU_COUNTER_CFG_MATCH
    ensures a.CounterStart? <==> fid == FUNCTION_PMU_COUNTER_START
    ensures a.CounterStop? <==> fid == FUNCTION_PMU_COUNTER_STOP
    ensures a.CounterFwRead? <==> fid == FUNCTION_PMU_COUNTER_FW_READ
    ensures a.Unknown? <==> fid > 5
    ensures a.CounterStart? ==> a == CounterStart(param1, param2, param3, param4)
    ensures a.CounterStop? ==> a == CounterStop(param1, param2, param3)
    ensures a.CounterFwRead? ==> a == CounterFwRead(param1)
  {
    if fid == FUNCTION_PMU_NUM_COUNTERS then NumCounters
    else if fid == FUNCTION_PMU_COUNTER_GET_INFO then CounterGetInfo
    else if fid == FUNCTION_PMU_COUNTER_CFG_MATCH then CounterCfgMatch
    else if fid == FUNCTION_PMU_COUNTER_START then CounterStart(param1, param2, param3, param4)
    else if fid == FUNCTION_PMU_COUNTER_STOP then CounterStop(param1, param2, param3)
    else if fid == FUNCTION_PMU_COUNTER_FW_READ then CounterFwRead(param1)
    else Unknown
  }

  /** `pmu_num_counters`: no provider hook; always not-supported. */
  function PmuNumCounters(): SbiRet
  {
    SbiRet.NotSupported()
  }

  /** `pmu_counter_get_info`: no provider hook; always not-supported. */
  function PmuCounterGetInfo(): SbiRet
  {
    SbiRet.NotSupported()
  }

  /** `pmu_counter_cfg_map`: no provider hook; always not-supported. */
  function PmuCounterCfgMap(): SbiRet
  {
    SbiRet.NotSupported()
  }

  /** Carries out a decoded action on the slot. */
  function Perform<S>(slot: Option<ProviderView<S>>, a: Action): (Option<ProviderView<S>>, SbiRet)
  {
    match a
    case NumCounters => (slot, PmuNumCounters())
    case CounterGetInfo => (slot, PmuCounterGetInfo())
    case CounterCfgMatch => (slot, PmuCounterCfgMap())
    case CounterStart(base, mask, flags, init) => SlotStart(slot, base, mask, flags, init)
    case CounterStop(base, mask, flags) => SlotStop(slot, base, mask, flags)
    case CounterFwRead(idx) => (slot, SlotFwRead(slot, idx))
    case Unknown => (slot, SbiRet.NotSupported())
  }

  /** `handle_ecall_pmu` on the value of the slot: the next slot and the answer. */
  function Handle<S>(slot: Option<ProviderView<S>>, fid: Usize,
                     param0: Usize, param1: Usize, param2: Usize, param3: Usize, param4: U64)
    : (Option<ProviderView<S>>, SbiRet)
  {
    Perform(slot, Route(fid, param0, param1, param2, param3, param4))
  }

  /** `handle_ecall_pmu`, calling through the registry object. */
  method HandleEcallPmu<S>(registry: PmuRegistry<S>, fid: Usize,
                           param0: Usize, param1: Usize, param2: Usize, param3: Usize, param4: U64)
    returns (r: SbiRet)
    modifies registry.Objects()
    ensures registry.slot == old(registry.slot)
    ensures (registry.View(), r) == Handle(old(registry.View()), fid, param0, param1, param2, param3, param4)
  {
    if fid == FUNCTION_PMU_NUM_COUNTERS {
      r := PmuNumCounters();
    } else if fid == FUNCTION_PMU_COUNTER_GET_INFO {
      r := PmuCounterGetInfo();
    } else if fid == FUNCTION_PMU_COUNTER_CFG_MATCH {
      r := PmuCounterCfgMap();
    } else if fid == FUNCTION_PMU_COUNTER_START {
      r := registry.PmuStart(param1, param2, param3, param4);
    } else if fid == FUNCTION_PMU_COUNTER_STOP {
      r := registry.PmuStop(param1, param2, param3);
    } else if fid == FUNCTION_PMU_COUNTER_FW_READ {
      r := registry.PmuFwRead(param1);
    } else {
      r := SbiRet.NotSupported();
    }
  }

  /** A call that arrives before any `init_pmu`: whatever the function ID, the
      answer is not-supported and the slot stays empty. */
  method EcallBeforeInit<S>(fid: Usize, param0: Usize, param1: Usize, param2: Usize, param3: Usize, param4: U64)
    returns (installed: bool, r: SbiRet)
    ensures !installed
    ensures r == SbiRet.NotSupported()
  {
    var registry := new PmuRegistry<S>();
    installed := registry.ProbePmu();
    r := HandleEcallPmu(registry, fid, param0, param1, param2, param3, param4);
  }

  // ---------------------------------------------------------------------------
  // Properties of the dispatcher.
  // ---------------------------------------------------------------------------

  /** The function-ID constants agree with the SBI v0.3 function table of the PMU
      extension, extension ID 0x504D55. This only compares the declarations above with
      that table; it says nothing about how the dispatcher uses them. */
  lemma FunctionIdsMatchTable()
    ensures [FUNCTION_PMU_NUM_COUNTERS, FUNCTION_PMU_COUNTER_GET_INFO, FUNCTION_PMU_COUNTER_CFG_MATCH,
             FUNCTION_PMU_COUNTER_START, FUNCTION_PMU_COUNTER_STOP, FUNCTION_PMU_COUNTER_FW_READ]
            == [0, 1, 2, 3, 4, 5]
    ensures EXTENSION_PMU == 0x504D55
  {
  }

  /** A function ID above 5 is answered not-supported and changes nothing. */
  lemma UnknownFunctionNotSupported<S>(slot: Option<ProviderView<S>>, fid: Usize,
                                       param0: Usize, param1: Usize, param2: Usize, param3: Usize, param4: U64)
    requires fid > FUNCTION_PMU_COUNTER_FW_READ
    ensures Handle(slot, fid, param0, param1, param2, param3, param4) == (slot, SbiRet.NotSupported())
  {
  }

  /** IDs 0, 1 and 2 are answered not-supported whatever the arguments and whether
      or not a provider is installed, and never reach the provider. */
  lemma UnimplementedFunctionsNotSupported<S>(slot: Option<ProviderView<S>>, fid: Usize,
                                              param0: Usize, param1: Usize, param2: Usize, param3: Usize, param4: U64)
    requires fid <= FUNCTION_PMU_COUNTER_CFG_MATCH
    ensures Handle(slot, fid, param0, param1, param2, param3, param4) == (slot, SbiRet.NotSupported())
  {
  }

  /** With no provider installed every function ID is answered not-supported. */
  lemma NoProviderNotSupported<S>(fid: Usize, param0: Usize, param1: Usize, param2: Usize, param3: Usize, param4: U64)
    ensures Handle<S>(None, fid, param0, param1, param2, param3, param4) == (None, SbiRet.NotSupported())
  {
  }

  /** ID 3 hands `(param1, param2, param3, param4)` to `pmu_start` unchanged, reserved
      flag bits included; ID 4 hands `(param1, param2, param3)` to `pmu_stop`; ID 5
      hands `param1` to `pmu_fw_read`. */
  lemma ForwardsSelectedParams<S>(slot: Option<ProviderView<S>>,
                                  param0: Usize, param1: Usize, param2: Usize, param3: Usize, param4: U64)
    ensures Handle(slot, FUNCTION_PMU_COUNTER_START, param0, param1, param2, param3, param4)
            == SlotStart(slot, param1, param2, param3, param4)
    ensures Handle(slot, FUNCTION_PMU_COUNTER_STOP, param0, param1, param2, param3, param4)
            == SlotStop(slot, param1, param2, param3)
    ensures Handle(slot, FUNCTION_PMU_COUNTER_FW_READ, param0, param1, param2, param3, param4)
            == (slot, SlotFwRead(slot, param1))
  {
  }

  /** `param0` never affects the outcome; neither do the parameters an arm does not
      forward (`param4` for stop, `param2..param4` for fw_read). */
  lemma IgnoredParamsHaveNoEffect<S>(slot: Option<ProviderView<S>>, fid: Usize,
                                     param0: Usize, param1: Usize, param2: Usize, param3: Usize, param4: U64,
                                     other0: Usize, other2: Usize, other3: Usize, other4: U64)
    ensures Handle(slot, fid, param0, param1, param2, param3, param4)
            == Handle(slot, fid, other0, param1, param2, param3, param4)
    ensures fid == FUNCTION_PMU_COUNTER_STOP ==>
            Handle(slot, fid, param0, param1, param2, param3, param4)
            == Handle(slot, fid, other0, param1, param2, param3, other4)
    ensures fid == FUNCTION_PMU_COUNTER_FW_READ ==>
            Handle(slot, fid, param0, param1, param2, param3, param4)
            == Handle(slot, fid, other0, param1, other2, other3, other4)
  {
  }

  /** No ecall installs, removes or replaces the provider; only start and stop can
      move its state. */
  lemma HandleKeepsProvider<S>(slot: Option<ProviderView<S>>, fid: Usize,
                               param0: Usize, param1: Usize, param2: Usize, param3: Usize, param4: U64)
    ensures Handle(slot, fid, param0, param1, param2, param3, param4).0.Some? <==> slot.Some?
    ensures slot.Some? ==> Handle(slot, fid, param0, param1, param2, param3, param4).0.value.ops == slot.value.ops
    ensures fid != FUNCTION_PMU_COUNTER_START && fid != FUNCTION_PMU_COUNTER_STOP ==>
            Handle(slot, fid, param0, param1, param2, param3, param4).0 == slot
  {
  }

  /** With a provider that answers with standard codes, every ecall answers with a
      standard code. */
  lemma HandleAnswersStandard<S(!new)>(slot: Option<ProviderView<S>>, fid: Usize,
                                       param0: Usize, param1: Usize, param2: Usize, param3: Usize, param4: U64)
    requires slot.Some? ==> ReturnsStandardCodes(slot.value.ops)
    ensures WellFormed(Handle(slot, fid, param0, param1, param2, param3, param4).1)
  {
    SlotAnswersStandard(slot, param1, param2, param3, param4, param1);
  }
}
