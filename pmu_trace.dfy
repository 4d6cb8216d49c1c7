/** Runs of the PMU entry points in sequence. The registry's lock makes every
    installation and every ecall one indivisible step, so whatever harts issue them,
    what the firmware observes is some sequence of steps; this module states what
    any such sequence does to the slot and what it answers. */
module PmuTrace {
  import opened Sbi
  import opened PmuExtension
  import opened EcallPmu

  /** One step under the lock: `init_pmu` of a provider, or one PMU ecall. */
  datatype Call<!S> =
    | InitPmu(provider: ProviderView<S>)
    | Ecall(fid: Usize, param0: Usize, param1: Usize, param2: Usize, param3: Usize, param4: U64)

  /** The number of ecalls among `calls`. */
  function EcallCount<S>(calls: seq<Call<S>>): nat
  {
    if calls == [] then 0
    else EcallCount(calls[..|calls| - 1]) + (if calls[|calls| - 1].Ecall? then 1 else 0)
  }

  /** The slot after `calls` starting from `slot`, and the answers of the ecalls in order. */
  function Run<S>(slot: Option<ProviderView<S>>, calls: seq<Call<S>>): (out: (Option<ProviderView<S>>, seq<SbiRet>))
    ensures |out.1| == EcallCount(calls)
    ensures slot.Some? ==> out.0.Some?
  {
    if calls == [] then (slot, [])
    else
      var (before, answers) := Run(slot, calls[..|calls| - 1]);
      match calls[|calls| - 1]
      case InitPmu(p) => (Some(p), answers)
      case Ecall(fid, p0, p1, p2, p3, p4) =>
        var (after, r) := Handle(before, fid, p0, p1, p2, p3, p4);
        (after, answers + [r])
  }

  /** The provider of the last `InitPmu` among `calls`, if any. */
  function LastInit<S>(calls: seq<Call<S>>): Option<ProviderView<S>>
  {
    if calls == [] then None
    else if calls[|calls| - 1].InitPmu? then Some(calls[|calls| - 1].provider)
    else LastInit(calls[..|calls| - 1])
  }

  /** `LastInit` is the provider of an `InitPmu` that no later `InitPmu` follows, and
      it is absent exactly when there is no `InitPmu` at all. */
  lemma {:induction false} LastInitIsLast<S>(calls: seq<Call<S>>)
    ensures LastInit(calls).None? <==> forall k :: 0 <= k < |calls| ==> !calls[k].InitPmu?
    ensures LastInit(calls).Some? ==>
      exists k :: 0 <= k < |calls| && calls[k] == InitPmu(LastInit(calls).value) &&
                  forall j :: k < j < |calls| ==> !calls[j].InitPmu?
  {
    if calls != [] {
      var n := |calls| - 1;
      var prefix := calls[..n];
      LastInitIsLast(prefix);
      assert forall k :: 0 <= k < n ==> prefix[k] == calls[k];
      if calls[n].InitPmu? {
        assert calls[n] == InitPmu(LastInit(calls).value);
      } else if LastInit(prefix).Some? {
        var k :| 0 <= k < n && prefix[k] == InitPmu(LastInit(prefix).value) &&
                 forall j :: k < j < n ==> !prefix[j].InitPmu?;
        assert calls[k] == InitPmu(LastInit(calls).value);
      }
    }
  }

  /** Only `init_pmu` writes the slot, and the last write wins: after any run the
      slot is filled exactly when it was filled before or some `InitPmu` ran, and
      the installed operations are those of the last `InitPmu` (or, with none, the
      ones installed before). Ecalls only ever move the installed provider's state. */
  lemma {:induction false} LastInitWins<S>(slot: Option<ProviderView<S>>, calls: seq<Call<S>>)
    ensures Run(slot, calls).0.Some? <==> slot.Some? || LastInit(calls).Some?
    ensures LastInit(calls).Some? ==> Run(slot, calls).0.value.ops == LastInit(calls).value.ops
    ensures LastInit(calls).None? && slot.Some? ==> Run(slot, calls).0.value.ops == slot.value.ops
  {
    if calls != [] {
      var n := |calls| - 1;
      LastInitWins(slot, calls[..n]);
      match calls[n]
      case InitPmu(p) =>
      case Ecall(fid, p0, p1, p2, p3, p4) =>
        HandleKeepsProvider(Run(slot, calls[..n]).0, fid, p0, p1, p2, p3, p4);
    }
  }

  /** Running two sequences one after the other is running their concatenation:
      the second starts from the slot the first leaves, and the answers follow on. */
  lemma {:induction false} RunAppend<S>(slot: Option<ProviderView<S>>, a: seq<Call<S>>, b: seq<Call<S>>)
    ensures Run(slot, a + b).0 == Run(Run(slot, a).0, b).0
    ensures Run(slot, a + b).1 == Run(slot, a).1 + Run(Run(slot, a).0, b).1
    decreases |b|
  {
    if b == [] {
      assert a + b == a;
    } else {
      var n := |b| - 1;
      RunAppend(slot, a, b[..n]);
      assert (a + b)[..|a + b| - 1] == a + b[..n];
      assert (a + b)[|a + b| - 1] == b[n];
    }
  }

  /** `init_pmu` overwrites the whole slot, state included: whatever ran before, the
      rest of the run behaves exactly as if `p` had been installed in a fresh slot,
      and the earlier answers are kept as they were. */
  lemma InitResetsSlot<S>(slot: Option<ProviderView<S>>, pre: seq<Call<S>>, p: ProviderView<S>, post: seq<Call<S>>)
    ensures Run(slot, pre + [InitPmu(p)] + post).0 == Run(Some(p), post).0
    ensures Run(slot, pre + [InitPmu(p)] + post).1 == Run(slot, pre).1 + Run(Some(p), post).1
  {
    RunAppend(slot, pre + [InitPmu(p)], post);
    RunAppend(slot, pre, [InitPmu(p)]);
    assert [InitPmu(p)][..0] == [];
    assert Run(Run(slot, pre).0, [InitPmu(p)]) == (Some(p), []);
  }

  /** Before any `init_pmu`, a run of ecalls leaves the slot empty and every answer
      is not-supported. */
  lemma {:induction false} NoProviderNoService<S>(calls: seq<Call<S>>)
    requires forall k :: 0 <= k < |calls| ==> calls[k].Ecall?
    ensures Run(None, calls).0 == None
    ensures forall r :: r in Run(None, calls).1 ==> r == SbiRet.NotSupported()
  {
    if calls != [] {
      var n := |calls| - 1;
      NoProviderNoService(calls[..n]);
      var c := calls[n];
      NoProviderNotSupported<S>(c.fid, c.param0, c.param1, c.param2, c.param3, c.param4);
    }
  }

  /** Every step of the run is a firmware-counter read. */
  ghost predicate OnlyFwReads<S>(calls: seq<Call<S>>)
  {
    forall k :: 0 <= k < |calls| ==> calls[k].Ecall? && calls[k].fid == FUNCTION_PMU_COUNTER_FW_READ
  }

  /** A run of firmware-counter reads with no intervening start or stop leaves the
      slot and the provider's state as they were, and each read answers what the
      provider answers for its own counter index in the initial state: no read
      causes an update. */
  lemma {:induction false} FwReadsAreReadOnly<S>(slot: Option<ProviderView<S>>, calls: seq<Call<S>>)
    requires OnlyFwReads(calls)
    ensures Run(slot, calls).0 == slot
    ensures |Run(slot, calls).1| == |calls|
    ensures forall k :: 0 <= k < |calls| ==> Run(slot, calls).1[k] == SlotFwRead(slot, calls[k].param1)
  {
    if calls != [] {
      var n := |calls| - 1;
      var prefix := calls[..n];
      assert forall k :: 0 <= k < n ==> prefix[k] == calls[k];
      FwReadsAreReadOnly(slot, prefix);
      var c := calls[n];
      ForwardsSelectedParams(slot, c.param0, c.param1, c.param2, c.param3, c.param4);
    }
  }

  /** Every `InitPmu` of the run installs a provider that answers with standard codes. */
  ghost predicate InitsStandard<S(!new)>(calls: seq<Call<S>>)
  {
    forall k :: 0 <= k < |calls| && calls[k].InitPmu? ==> ReturnsStandardCodes(calls[k].provider.ops)
  }

  /** When every provider ever installed answers with standard codes, so does every
      ecall of the run: no step fabricates an error outside the taxonomy. */
  lemma {:induction false} RunAnswersStandard<S(!new)>(slot: Option<ProviderView<S>>, calls: seq<Call<S>>)
    requires slot.Some? ==> ReturnsStandardCodes(slot.value.ops)
    requires InitsStandard(calls)
    ensures Run(slot, calls).0.Some? ==> ReturnsStandardCodes(Run(slot, calls).0.value.ops)
    ensures forall r :: r in Run(slot, calls).1 ==> WellFormed(r)
  {
    if calls != [] {
      var n := |calls| - 1;
      var prefix := calls[..n];
      assert forall k :: 0 <= k < n ==> prefix[k] == calls[k];
      RunAnswersStandard(slot, prefix);
      match calls[n]
      case InitPmu(p) =>
      case Ecall(fid, p0, p1, p2, p3, p4) =>
        var before := Run(slot, prefix).0;
        HandleAnswersStandard(before, fid, p0, p1, p2, p3, p4);
        HandleKeepsProvider(before, fid, p0, p1, p2, p3, p4);
    }
  }
}
