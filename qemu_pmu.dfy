/** The PMU provider of the QEMU board (`rustsbi-qemu/rustsbi-qemu/src/pmu.rs`): a
    unit struct whose three operations answer success with value 0 whatever they
    are asked, and end-to-end consequences of installing it. */
module QemuPmu {
  import opened Sbi
  import opened PmuExtension
  import opened EcallPmu
  import opened PmuTrace

  /** The unit struct: it has no fields, so it has exactly one value. */
  datatype Pmu = Pmu

  /** `pmu_counter_start`: succeeds with value 0 for every counter set, flags and
      initial value, and leaves the provider as it was. */
  function CounterStart(self: Pmu, base: Usize, mask: Usize, flags: Usize, init: U64): (out: (Pmu, SbiRet))
    ensures out.0 == self
    ensures out.1.error == SBI_SUCCESS && out.1.value == 0
  {
    (self, SbiRet(SBI_SUCCESS, 0))
  }

  /** `pmu_counter_stop`: succeeds with value 0 for every counter set and flags, and
      leaves the provider as it was. */
  function CounterStop(self: Pmu, base: Usize, mask: Usize, flags: Usize): (out: (Pmu, SbiRet))
    ensures out.0 == self
    ensures out.1.error == SBI_SUCCESS && out.1.value == 0
  {
    (self, SbiRet(SBI_SUCCESS, 0))
  }

  /** `pmu_counter_fw_read`: succeeds with value 0 for every counter index. */
  function CounterFwRead(self: Pmu, idx: Usize): (r: SbiRet)
    ensures r.error == SBI_SUCCESS && r.value == 0
  {
    SbiRet(SBI_SUCCESS, 0)
  }

  /** The stub as a provider of the `Pmu` interface. */
  function Ops(): PmuOps<Pmu>
  {
    PmuOps(CounterStart, CounterStop, CounterFwRead)
  }

  /** The stub as it sits in the slot after `init_pmu`. */
  function Installed(): ProviderView<Pmu>
  {
    ProviderView(Ops(), Pmu.Pmu)
  }

  /** The stub answers with standard codes only. */
  lemma StubReturnsStandardCodes()
    ensures ReturnsStandardCodes(Ops())
  {
  }

  /** The stub keeps no record of started counters: starting the same counter set
      twice in a row succeeds both times instead of reporting ALREADY_STARTED, and
      reserved start-flag bits are not rejected either. */
  lemma StartTwiceSucceedsTwice(param0: Usize, base: Usize, mask: Usize, flags: Usize, init: U64)
    ensures Run(Some(Installed()), [Ecall(FUNCTION_PMU_COUNTER_START, param0, base, mask, flags, init),
                                   Ecall(FUNCTION_PMU_COUNTER_START, param0, base, mask, flags, init)])
            == (Some(Installed()), [SbiRet.Ok(0), SbiRet.Ok(0)])
  {
    var start := Ecall(FUNCTION_PMU_COUNTER_START, param0, base, mask, flags, init);
    var both := [start, start];
    StubRunAlwaysSucceeds(both);
    assert both[..1][..0] == [];
    assert EcallCount(both) == 2;
    var answers := Run(Some(Installed()), both).1;
    assert answers[0] in answers && answers[1] in answers;
    assert answers == [SbiRet.Ok(0), SbiRet.Ok(0)];
  }

  /** Ecalls the stub serves. */
  ghost predicate StubCalls(calls: seq<Call<Pmu>>)
  {
    forall k :: 0 <= k < |calls| ==>
      || calls[k] == InitPmu(Installed())
      || (calls[k].Ecall? && FUNCTION_PMU_COUNTER_START <= calls[k].fid <= FUNCTION_PMU_COUNTER_FW_READ)
  }

  /** With the stub installed, any run of start, stop and fw_read ecalls (and
      re-installations of the stub) keeps the stub installed unchanged and answers
      success with value 0 every time. */
  lemma {:induction false} StubRunAlwaysSucceeds(calls: seq<Call<Pmu>>)
    requires StubCalls(calls)
    ensures Run(Some(Installed()), calls).0 == Some(Installed())
    ensures forall r :: r in Run(Some(Installed()), calls).1 ==> r == SbiRet.Ok(0)
  {
    if calls != [] {
      var n := |calls| - 1;
      var prefix := calls[..n];
      assert forall k :: 0 <= k < n ==> prefix[k] == calls[k];
      StubRunAlwaysSucceeds(prefix);
      var c := calls[n];
      if c.Ecall? {
        ForwardsSelectedParams(Some(Installed()), c.param0, c.param1, c.param2, c.param3, c.param4);
      }
    }
  }

  /** Boot installs the stub; a following PMU ecall with function ID 3, 4 or 5
      succeeds with value 0, and every other function ID is not-supported. */
  method BootThenEcall(fid: Usize, param0: Usize, param1: Usize, param2: Usize, param3: Usize, param4: U64)
    returns (installed: bool, r: SbiRet)
    ensures installed
    ensures FUNCTION_PMU_COUNTER_START <= fid <= FUNCTION_PMU_COUNTER_FW_READ ==> r == SbiRet.Ok(0)
    ensures !(FUNCTION_PMU_COUNTER_START <= fid <= FUNCTION_PMU_COUNTER_FW_READ) ==> r == SbiRet.NotSupported()
  {
    var registry := new PmuRegistry<Pmu>();
    var provider := new Provider(Ops(), Pmu.Pmu);
    registry.InitPmu(provider);
    installed := registry.ProbePmu();
    r := HandleEcallPmu(registry, fid, param0, param1, param2, param3, param4);
  }
}
