/** The performance-monitoring (PMU) provider interface and the registry slot that
    holds the one provider installed at boot (`rustsbi/src/pmu.rs`).

    The provider interface is a table of three operations over the provider's own
    state type `S`: a platform supplies the table and an initial state, and the
    registry calls through the table without knowing what the state is. Start and
    stop may change the provider's state; a firmware-counter read may not. */
module PmuExtension {
  import opened Sbi

  /** The `Pmu` provider interface. Start and stop return the provider's next state
      with their answer; a firmware-counter read returns only its answer. */
  datatype PmuOps<!S> = PmuOps(
    counterStart: (S, Usize, Usize, Usize, U64) -> (S, SbiRet),
    counterStop: (S, Usize, Usize, Usize) -> (S, SbiRet),
    counterFwRead: (S, Usize) -> SbiRet)

  /** The value of an installed provider: which operations it has and its current state. */
  datatype ProviderView<!S> = ProviderView(ops: PmuOps<S>, state: S)

  /** A provider whose every answer carries a standard SBI error code. */
  ghost predicate ReturnsStandardCodes<S(!new)>(ops: PmuOps<S>)
  {
    && (forall s: S, base: Usize, mask: Usize, flags: Usize, init: U64 ::
          WellFormed(ops.counterStart(s, base, mask, flags, init).1))
    && (forall s: S, base: Usize, mask: Usize, flags: Usize ::
          WellFormed(ops.counterStop(s, base, mask, flags).1))
    && (forall s: S, idx: Usize :: WellFormed(ops.counterFwRead(s, idx)))
  }

  // ---------------------------------------------------------------------------
  // The registry as a value: what each entry point does to the slot.
  // ---------------------------------------------------------------------------

  /** `pmu_start`: forwards to the installed provider, or answers not-supported. */
  function SlotStart<S>(slot: Option<ProviderView<S>>, base: Usize, mask: Usize, flags: Usize, init: U64)
    : (out: (Option<ProviderView<S>>, SbiRet))
    ensures slot.None? ==> out == (None, SbiRet.NotSupported())
    ensures slot.Some? ==>
      && out.0.Some? && out.0.value.ops == slot.value.ops
      && (out.0.value.state, out.1) == slot.value.ops.counterStart(slot.value.state, base, mask, flags, init)
  {
    match slot
    case None => (None, SbiRet.NotSupported())
    case Some(p) =>
      var (next, r) := p.ops.counterStart(p.state, base, mask, flags, init);
      (Some(ProviderView(p.ops, next)), r)
  }

  /** `pmu_stop`: forwards to the installed provider, or answers not-supported. */
  function SlotStop<S>(slot: Option<ProviderView<S>>, base: Usize, mask: Usize, flags: Usize)
    : (out: (Option<ProviderView<S>>, SbiRet))
    ensures slot.None? ==> out == (None, SbiRet.NotSupported())
    ensures slot.Some? ==>
      && out.0.Some? && out.0.value.ops == slot.value.ops
      && (out.0.value.state, out.1) == slot.value.ops.counterStop(slot.value.state, base, mask, flags)
  {
    match slot
    case None => (None, SbiRet.NotSupported())
    case Some(p) =>
      var (next, r) := p.ops.counterStop(p.state, base, mask, flags);
      (Some(ProviderView(p.ops, next)), r)
  }

  /** `pmu_fw_read`: asks the installed provider, or answers not-supported.
      It returns no new slot: a read leaves the provider as it was. */
  function SlotFwRead<S>(slot: Option<ProviderView<S>>, idx: Usize): (r: SbiRet)
    ensures slot.None? ==> r == SbiRet.NotSupported()
    ensures slot.Some? ==> r == slot.value.ops.counterFwRead(slot.value.state, idx)
  {
    match slot
    case None => SbiRet.NotSupported()
    case Some(p) => p.ops.counterFwRead(p.state, idx)
  }

  /** Start and stop never install, remove or replace the provider; they may only
      move its state. */
  lemma StartStopKeepProvider<S>(slot: Option<ProviderView<S>>, base: Usize, mask: Usize, flags: Usize, init: U64)
    ensures SlotStart(slot, base, mask, flags, init).0.Some? <==> slot.Some?
    ensures SlotStop(slot, base, mask, flags).0.Some? <==> slot.Some?
    ensures slot.Some? ==> SlotStart(slot, base, mask, flags, init).0.value.ops == slot.value.ops
    ensures slot.Some? ==> SlotStop(slot, base, mask, flags).0.value.ops == slot.value.ops
  {
  }

  /** A provider that answers with standard codes makes every entry point answer
      with standard codes: the registry fabricates no other error. */
  lemma SlotAnswersStandard<S(!new)>(slot: Option<ProviderView<S>>, base: Usize, mask: Usize, flags: Usize, init: U64, idx: Usize)
    requires slot.Some? ==> ReturnsStandardCodes(slot.value.ops)
    ensures WellFormed(SlotStart(slot, base, mask, flags, init).1)
    ensures WellFormed(SlotStop(slot, base, mask, flags).1)
    ensures WellFormed(SlotFwRead(slot, idx))
  {
    NotSupportedIsStandard();
  }

  // ---------------------------------------------------------------------------
  // The heap objects: an installed provider (`Box<dyn Pmu>`) and the registry.
  // ---------------------------------------------------------------------------

  /** A provider object: fixed operations over a state it updates in place. */
  class Provider<S> {
    const ops: PmuOps<S>
    var state: S

    constructor (ops: PmuOps<S>, state: S)
      ensures this.ops == ops && this.state == state
    {
      this.ops := ops;
      this.state := state;
    }

    function View(): (v: ProviderView<S>)
      reads this
    {
      ProviderView(ops, state)
    }

    /** `pmu_counter_start` (takes `&mut self`). */
    method CounterStart(base: Usize, mask: Usize, flags: Usize, init: U64) returns (r: SbiRet)
      modifies this
      ensures (state, r) == ops.counterStart(old(state), base, mask, flags, init)
    {
      var (next, ret) := ops.counterStart(state, base, mask, flags, init);
      state := next;
      r := ret;
    }

    /** `pmu_counter_stop` (takes `&mut self`). */
    method CounterStop(base: Usize, mask: Usize, flags: Usize) returns (r: SbiRet)
      modifies this
      ensures (state, r) == ops.counterStop(old(state), base, mask, flags)
    {
      var (next, ret) := ops.counterStop(state, base, mask, flags);
      state := next;
      r := ret;
    }

    /** `pmu_counter_fw_read` (takes `&self`): it may read the provider and change nothing. */
    function CounterFwRead(idx: Usize): (r: SbiRet)
      reads this
    {
      ops.counterFwRead(state, idx)
    }
  }

  /** The `PMU` slot: no provider until `init_pmu` installs one. */
  class PmuRegistry<S> {
    var slot: Option<Provider<S>>

    /** The objects a call through the registry may change: the installed provider. */
    ghost function Objects(): set<object>
      reads this
    {
      if slot.Some? then {slot.value} else {}
    }

    /** The value of the slot. */
    ghost function View(): Option<ProviderView<S>>
      reads this, Objects()
    {
      if slot.Some? then Some(slot.value.View()) else None
    }

    /** The slot starts empty. */
    constructor ()
      ensures slot == None && View() == None
    {
      slot := None;
    }

    /** `init_pmu`: installs `p`, replacing whatever was installed before. */
    method InitPmu(p: Provider<S>)
      modifies this
      ensures slot == Some(p)
      ensures View() == Some(p.View())
    {
      slot := Some(p);
    }

    /** `probe_pmu`: whether a provider is installed. */
    method ProbePmu() returns (installed: bool)
      ensures installed <==> slot.Some?
    {
      installed := slot.Some?;
    }

    /** `pmu_start`: passes its arguments unchanged to the installed provider. */
    method PmuStart(base: Usize, mask: Usize, flags: Usize, init: U64) returns (r: SbiRet)
      modifies Objects()
      ensures slot == old(slot)
      ensures (View(), r) == SlotStart(old(View()), base, mask, flags, init)
    {
      match slot
      case None =>
        r := SbiRet.NotSupported();
      case Some(obj) =>
        r := obj.CounterStart(base, mask, flags, init);
    }

    /** `pmu_stop`: passes its arguments unchanged to the installed provider. */
    method PmuStop(base: Usize, mask: Usize, flags: Usize) returns (r: SbiRet)
      modifies Objects()
      ensures slot == old(slot)
      ensures (View(), r) == SlotStop(old(View()), base, mask, flags)
    {
      match slot
      case None =>
        r := SbiRet.NotSupported();
      case Some(obj) =>
        r := obj.CounterStop(base, mask, flags);
    }

    /** `pmu_fw_read`: asks the installed provider; changes no object. */
    method PmuFwRead(idx: Usize) returns (r: SbiRet)
      ensures r == SlotFwRead(View(), idx)
    {
      match slot
      case None =>
        r := SbiRet.NotSupported();
      case Some(obj) =>
        r := obj.CounterFwRead(idx);
    }
  }
}
