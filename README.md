# PMU extension of RustSBI, modelled in Dafny

This project models the performance-monitoring (PMU) part of the RustSBI firmware:
the SBI extension with ID `0x504D55` through which a supervisor-mode kernel asks
machine-mode firmware to start, stop and read performance counters.

It has three pieces, one Dafny module each, plus a shared module for the return value
and a module for sequences of calls:

- `Sbi` (`sbi.dfy`): 64-bit words (`Usize`, `U64`, `Isize`), the return value `SbiRet`
  (an error register and a value register, both signed words) and the standard
  error codes of section 3 (Binary Encoding) of the RISC-V SBI specification. It also
  defines an enumeration `SbiError` with its encoding `Code` and decoding `ErrorOf`.
  `SbiRet.NotSupported()` is `not_supported()`: error -2, value 0.
- `PmuExtension` (`pmu_extension.dfy`, from `rustsbi/src/pmu.rs`): the `Pmu` provider
  interface, the provider object, and the `PMU` registry slot.
  - `PmuOps<S>` is the interface. It is a table of the three operations over the
    provider's own state type `S`. `counterStart` and `counterStop` return a new
    state with their answer, because they take `&mut self`. `counterFwRead` returns
    only an answer, because it takes `&self`.
  - `Provider<S>` is an installed provider (`Box<dyn Pmu>`). It is a class with a
    fixed `ops` table and a mutable `state`.
  - `PmuRegistry<S>` is the slot, a class with the field
    `slot: Option<Provider<S>>`. Its methods are `InitPmu`, `ProbePmu`, `PmuStart`,
    `PmuStop` and `PmuFwRead`. `InitPmu` and `ProbePmu` state directly what the slot
    holds and what the probe answers. Start, stop and fw_read state their effect on
    the slot's value through a pure function: `SlotStart`, `SlotStop` or
    `SlotFwRead`.
- `EcallPmu` (`ecall_pmu.dfy`, from `rustsbi/src/ecall/pmu.rs`): the function-ID
  constants 0 to 5 and the dispatcher.
  - `Route` decodes a function ID and the argument registers into an `Action`, one
    constructor per arm of the source's `match`.
  - `Perform` carries an action out on the slot, and `Handle` composes the two.
  - `HandleEcallPmu` is the dispatcher as a method over the registry object. Its
    contract ties it to `Handle`.
  - The three always-unsupported helpers are `PmuNumCounters`, `PmuCounterGetInfo`
    and `PmuCounterCfgMap`.
  - The one-line forwarders `pmu_start`, `pmu_stop` and `pmu_read` are the
    `CounterStart`, `CounterStop` and `CounterFwRead` arms of `Perform` and of
    `HandleEcallPmu`.
- `PmuTrace` (`pmu_trace.dfy`): the registry's lock makes each installation and each
  ecall one indivisible step. So whatever the harts do, the firmware sees some
  sequence of steps. `Run` plays such a sequence on the slot. Its lemmas cover any
  sequence: the last installation wins, reads never change anything, nothing is
  served before installation, and standard codes stay standard.
- `QemuPmu` (`qemu_pmu.dfy`, from `rustsbi-qemu/rustsbi-qemu/src/pmu.rs`): the QEMU
  board's provider. It is a unit struct whose three operations answer success with
  value 0 for any input. The module also holds end-to-end statements: boot installs
  the stub, and an ecall with function ID 3, 4 or 5 then succeeds.

The trait documentation in `rustsbi/src/pmu.rs` describes more than the code does. The
model follows the code:

- The documentation reserves every start-flag and stop-flag bit above bit 0
  (`rustsbi/src/pmu.rs:73-74` and `:96`). It lists ALREADY_STARTED and
  ALREADY_STOPPED as answers for counters already in that state (`:86-87` and
  `:104-105`). Neither the dispatcher nor the registry checks any of this; whether a
  provider does is up to the provider. The QEMU provider accepts everything
  (`QemuPmu.StartTwiceSucceedsTwice`).
- The SBI function table (`rustsbi/src/pmu.rs:107-113`) lists num_counters,
  counter_get_info and counter_config_matching. The interface has no operation for
  any of them, and the dispatcher answers all three with not-supported.
- `init_pmu` overwrites the slot (`rustsbi/src/pmu.rs:130`), state included. The
  last installation therefore wins (`PmuTrace.LastInitWins`). After an installation
  the run goes on exactly as from a fresh slot holding the new provider, and the
  earlier answers stay as they were (`PmuTrace.InitResetsSlot`).
- `SBI_PMU_START_SET_INIT_VALUE` is declared as `0x0`, where the SBI flag is bit 0
  (`0x1`). Nothing reads it, so no behaviour depends on it. The model keeps the
  constant as declared and decodes no flags.

## Model

| member | source | states |
|---|---|---|
| `Sbi.Code` | rustsbi/src/pmu.rs:82-87 | every standard error named in the interface documentation encodes to its value from section 3 (Binary Encoding) of the RISC-V SBI specification, in -8..0, and to 0 exactly for success |
| `Sbi.ErrorOf` | rustsbi/src/pmu.rs:100-105 | following the same SBI encoding table, a register value decodes to an error exactly when it is in -8..0, and the decoded error encodes back to that value |
| `Sbi.ErrorOfCode` | rustsbi/src/pmu.rs:82-87 | decoding undoes encoding, so the codes are pairwise distinct |
| `Sbi.NotSupportedIsStandard` | rustsbi/src/pmu.rs:142 | `not_supported()` carries the standard NOT_SUPPORTED code (-2) and value 0 |
| `PmuExtension.SlotStart` | rustsbi/src/pmu.rs:138-143 | with no provider: not-supported, slot still empty; with one: exactly the provider's start answer on the unchanged arguments, its new state stored, its operations kept |
| `PmuExtension.SlotStop` | rustsbi/src/pmu.rs:145-150 | with no provider: not-supported; with one: exactly the provider's stop answer on the unchanged arguments, its new state stored, its operations kept |
| `PmuExtension.SlotFwRead` | rustsbi/src/pmu.rs:152-157 | with no provider: not-supported; with one: the provider's fw_read answer for the index; there is no new slot to return |
| `PmuExtension.StartStopKeepProvider` | rustsbi/src/pmu.rs:138-150 | start and stop neither fill nor empty the slot and keep the installed operations |
| `PmuExtension.SlotAnswersStandard` | rustsbi/src/pmu.rs:138-157 | if the provider answers only with standard codes, so do the three registry entry points |
| `PmuExtension.Provider.constructor` | rustsbi/src/pmu.rs:129-130 | a boxed provider holds the given operations and initial state |
| `PmuExtension.Provider.CounterStart` | rustsbi/src/pmu.rs:88 | `&mut self` start: new state and answer are those of the interface's start on the old state |
| `PmuExtension.Provider.CounterStop` | rustsbi/src/pmu.rs:106 | `&mut self` stop: new state and answer are those of the interface's stop on the old state |
| `PmuExtension.PmuRegistry.constructor` | rustsbi/src/pmu.rs:123-126 | the slot starts empty |
| `PmuExtension.PmuRegistry.InitPmu` | rustsbi/src/pmu.rs:129-131 | afterwards the slot holds exactly the given provider, whatever it held before |
| `PmuExtension.PmuRegistry.ProbePmu` | rustsbi/src/pmu.rs:133-136 | true exactly when a provider is installed; changes nothing |
| `PmuExtension.PmuRegistry.PmuStart` | rustsbi/src/pmu.rs:138-143 | the slot still holds the same provider object; its new state and the answer are `SlotStart` of the old slot value |
| `PmuExtension.PmuRegistry.PmuStop` | rustsbi/src/pmu.rs:145-150 | the slot still holds the same provider object; its new state and the answer are `SlotStop` of the old slot value |
| `PmuExtension.PmuRegistry.PmuFwRead` | rustsbi/src/pmu.rs:152-157 | the answer is `SlotFwRead` of the slot; no object is modified |
| `EcallPmu.Route` | rustsbi/src/ecall/pmu.rs:33-43 | each of IDs 0..5 selects its own arm, IDs above 5 the fallback; start gets `(param1, param2, param3, param4)`, stop `(param1, param2, param3)`, fw_read `param1` |
| `EcallPmu.HandleEcallPmu` | rustsbi/src/ecall/pmu.rs:33-58 | the registry keeps the same provider object; the provider's new state and the answer are `Handle` of the old slot value |
| `EcallPmu.EcallBeforeInit` | rustsbi/src/ecall/pmu.rs:33-43 | on a fresh registry the probe is false and any ecall answers not-supported |
| `EcallPmu.FunctionIdsMatchTable` | rustsbi/src/pmu.rs:107-113 | the dispatcher's function-ID constants agree with the SBI v0.3 function table in the interface documentation: num_counters=0, get_info=1, cfg_match=2, start=3, stop=4, fw_read=5, extension 0x504D55 |
| `EcallPmu.UnknownFunctionNotSupported` | rustsbi/src/ecall/pmu.rs:41 | any ID above 5 answers not-supported and leaves the slot unchanged |
| `EcallPmu.UnimplementedFunctionsNotSupported` | rustsbi/src/ecall/pmu.rs:35-37 | IDs 0, 1 and 2 answer not-supported whatever the arguments and whether or not a provider is installed; the slot is unchanged |
| `EcallPmu.NoProviderNotSupported` | rustsbi/src/ecall/pmu.rs:33-43 | with the slot empty, every function ID answers not-supported and the slot stays empty |
| `EcallPmu.ForwardsSelectedParams` | rustsbi/src/ecall/pmu.rs:38-40 | ID 3 is exactly `pmu_start(param1, param2, param3, param4)`, reserved flag bits included; ID 4 is `pmu_stop(param1, param2, param3)`; ID 5 is `pmu_fw_read(param1)` |
| `EcallPmu.IgnoredParamsHaveNoEffect` | rustsbi/src/ecall/pmu.rs:38-40 | `param0` never changes the outcome; `param4` does not for stop, `param2..param4` do not for fw_read |
| `EcallPmu.HandleKeepsProvider` | rustsbi/src/ecall/pmu.rs:33-58 | no ecall fills, empties or replaces the provider; only IDs 3 and 4 can move its state |
| `EcallPmu.HandleAnswersStandard` | rustsbi/src/ecall/pmu.rs:33-43 | with a provider that answers with standard codes, every ecall answers with a standard code |
| `PmuTrace.Run` | rustsbi/src/pmu.rs:123-157 | a sequence of steps yields one answer per ecall, and a filled slot stays filled |
| `PmuTrace.LastInitIsLast` | rustsbi/src/pmu.rs:130 | `LastInit` is absent exactly when no installation occurs, and otherwise is an installation that no later installation follows |
| `PmuTrace.LastInitWins` | rustsbi/src/pmu.rs:129-131 | after any sequence the slot is filled exactly when it was filled before or something was installed; the installed operations are those of the last installation |
| `PmuTrace.RunAppend` | rustsbi/src/pmu.rs:123-157 | running two sequences one after the other is running their concatenation: the second starts from the slot the first leaves, and the answers are the first's followed by the second's |
| `PmuTrace.InitResetsSlot` | rustsbi/src/pmu.rs:129-131 | an installation replaces the whole slot, operations and state: whatever ran before, the rest of the sequence ends in the same slot and gives the same answers as from a fresh slot holding the new provider, and the earlier answers are kept |
| `PmuTrace.NoProviderNoService` | rustsbi/src/pmu.rs:123-157 | before any installation, any sequence of ecalls leaves the slot empty and answers not-supported every time |
| `PmuTrace.FwReadsAreReadOnly` | rustsbi/src/pmu.rs:152-157 | any sequence of fw_read ecalls leaves the slot and provider state unchanged; each answer is the provider's answer for its own index in the initial state |
| `PmuTrace.RunAnswersStandard` | rustsbi/src/pmu.rs:138-157 | if every provider ever installed answers with standard codes, every answer of the sequence is a standard code |
| `QemuPmu.CounterStart` | rustsbi-qemu/rustsbi-qemu/src/pmu.rs:8-13 | success with value 0 for every base, mask, flags and initial value; the provider is unchanged |
| `QemuPmu.CounterStop` | rustsbi-qemu/rustsbi-qemu/src/pmu.rs:31-36 | success with value 0 for every base, mask and flags; the provider is unchanged |
| `QemuPmu.CounterFwRead` | rustsbi-qemu/rustsbi-qemu/src/pmu.rs:47-52 | success with value 0 for every counter index |
| `QemuPmu.StubReturnsStandardCodes` | rustsbi-qemu/rustsbi-qemu/src/pmu.rs:7-53 | the stub answers with standard codes only |
| `QemuPmu.StartTwiceSucceedsTwice` | rustsbi-qemu/rustsbi-qemu/src/pmu.rs:8-13 | two identical start ecalls in a row both succeed with value 0: the stub does not report ALREADY_STARTED and does not reject reserved flags |
| `QemuPmu.StubRunAlwaysSucceeds` | rustsbi-qemu/rustsbi-qemu/src/pmu.rs:7-53 | with the stub installed, any sequence of start, stop and fw_read ecalls keeps the stub installed and unchanged and answers success with value 0 every time |
| `QemuPmu.BootThenEcall` | rustsbi-qemu/rustsbi-qemu/src/pmu.rs:7-53 | after installing the stub the probe is true, IDs 3, 4 and 5 answer success with value 0, and every other ID answers not-supported |

## Left out

- The `spin::Mutex` and `lazy_static` around the slot, and concurrent harts. The model is sequential. `PmuTrace` stands for the serialisation the lock provides: each call is one atomic step.
- `Box<dyn Pmu>`, `alloc` and the `Send` bound. A provider is a table of operations over its own state type. A registry holds providers of one state type, so a slot that holds providers of different Rust types over time is not modelled. `init_pmu` moves the provider into a `Box` that only the slot can reach. `PmuRegistry.InitPmu` instead takes a shared `Provider` reference, so the model does not rule out a caller that keeps the reference and changes the installed provider's state without going through the registry.
- `SbiRet` is defined in the crate's `ecall` module, which is not part of this model. It is modelled as two signed 64-bit words with the standard SBI error codes. Words are 64 bits wide, as on the RV64 QEMU target; 32-bit targets are not modelled.
- `PmuExtension.PmuOps`: a provider's answers depend only on its own state, and only start and stop change that state. Hardware counting, and firmware events such as misaligned accesses, RFENCEs and IPIs that a provider records between PMU calls, are not modelled. So in the model two fw_reads of one index with no start or stop in between always agree, which a real provider need not guarantee. The calling hart is not an input either. The documentation says counters are per hart (`rustsbi/src/pmu.rs:26`) and that start and stop act on the calling hart (`:47` and `:89`). The model's operations carry no hart ID, so a provider's state stands for the counters of all harts at once, and the model cannot state that one hart's start leaves another hart's counters alone.
- `EcallPmu.Handle` and `EcallPmu.Perform` have no contract of their own. `Handle` is `handle_ecall_pmu` on the slot's value, and `Perform` carries out one decoded arm. What they promise is stated by `HandleEcallPmu` and by the lemmas about `Handle`, from `UnknownFunctionNotSupported` to `HandleAnswersStandard`.
- `Sbi.SbiRet.NotSupported` has no contract of its own. It is `SbiRet::not_supported()`, and `NotSupportedIsStandard` states its value: error -2, value 0.
- `PmuExtension.Provider.CounterFwRead` has no contract of its own. It is a function that reads the provider, so it cannot change it. `PmuRegistry.PmuFwRead` states what it answers.
- `EcallPmu.PmuNumCounters`, `EcallPmu.PmuCounterGetInfo` and `EcallPmu.PmuCounterCfgMap` have no contract of their own. They always return not-supported, as `UnimplementedFunctionsNotSupported` states for IDs 0, 1 and 2.
- Nothing enforces the provider behaviour that the trait documentation describes. It names ALREADY_STARTED for counters already started (`rustsbi/src/pmu.rs:86-87`), ALREADY_STOPPED for counters already stopped (`:104-105`), and INVALID_PARAM for invalid counters (`:84-85` and `:102-103`). The start-flag and stop-flag bits above bit 0 are only marked reserved (`:73-74` and `:96`), with no error named for them. The code does not enforce any of this either. Whether a provider meets it is the provider's own business.
- The top-level extension-ID dispatcher and trap entry are not part of this model. Only the extension ID constant `EXTENSION_PMU` is kept.
- `use riscv::register`, the `SBI_PMU_HW_CACHE_*` constants and the QEMU `TEST_FAIL`, `TEST_PASS` and `TEST_RESET` constants are all unused. The event_idx bit layout exists only in documentation. None of these are modelled.
- `embedded-hal/src/blocking/serial.rs` is blocking serial output, a peripheral adapter outside the PMU path. It is not part of this model.
