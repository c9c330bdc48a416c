/** Starting and stopping the processors: what happened, in which order, and where it stopped. */
module Lifecycle {
  import opened CommonModel
  import opened Config
  import opened Machine
  import opened Safety

  /** What starting the processors from, ..., to - 1 does. */
  function Up(from: nat, to: nat): seq<CpuEvent>
    decreases to - from
  {
    if to <= from then [] else [InitCpu(from), StartCpu(from)] + Up(from + 1, to)
  }

  /** What stopping the processors from - 1, ..., to does. */
  function Down(from: nat, to: nat): seq<CpuEvent> {
    if from <= to then [] else [StopCpu(from - 1), FiniCpu(from - 1)] + Down(from - 1, to)
  }

  /** Nothing but the status and the counter of the driver changed, no memory moved, and the VMM is
      initialised if it was. */
  predicate SameHoldings(s: State, s': State) {
    s'.g.a == s.g.a && s'.m.mem == s.m.mem && s'.m.initialised == s.m.initialised
  }

  /** Ready to run per-processor requests. */
  predicate Able(e: Env, s: State) {
    Ready(s.g.a, s.m.mem.live) && s.g.a.entry != 0 && SafeLog(e, s.m.log)
  }

  /** Stopping from n processors on broke down on the last processor still counted: before its STOP
      vmcall, or between that and its FINI request. */
  predicate Broken(s: State, s': State, n: nat, launched: set<nat>) {
    var k := s'.g.started;
    && 1 <= k <= n
    && ((&& s'.m.launched == (if k == n then launched else CpusBelow(k))
         && s'.m.cpuEvents == s.m.cpuEvents + Down(n, k))
        || (&& s'.m.launched == CpusBelow(k - 1)
            && s'.m.cpuEvents == s.m.cpuEvents + Down(n, k) + [StopCpu(k - 1)]))
  }

  predicate StopOutcome(s: State, o: Out) {
    && SameHoldings(s, o.s)
    && match o.ret
       case Success =>
         && o.s.g.status == Loaded && o.s.g.started == 0 && o.s.m.launched == {}
         && o.s.m.cpuEvents == s.m.cpuEvents + Down(s.g.started, 0)
       case VmmStopFailed =>
         && o.s.g.status == Running && 1 <= o.s.g.started <= s.g.started
         && (if o.s.g.started == s.g.started then o.s.m.launched == s.m.launched
             else o.s.m.launched == CpusBelow(o.s.g.started))
         && o.s.m.cpuEvents == s.m.cpuEvents + Down(s.g.started, o.s.g.started)
       case _ => o.s.g.status == Corrupt && Broken(s, o.s, s.g.started, s.m.launched)
  }

  predicate StopOneOutcome(s: State, o: Out)
    requires s.g.started > 0
  {
    && SameHoldings(s, o.s)
    && match o.ret
       case Success =>
         && o.s.g.status == Running && o.s.g.started == s.g.started - 1
         && o.s.m.launched == CpusBelow(s.g.started - 1)
         && o.s.m.cpuEvents == s.m.cpuEvents + [StopCpu(s.g.started - 1), FiniCpu(s.g.started - 1)]
       case VmmStopFailed =>
         && o.s.g == s.g && o.s.m.launched == s.m.launched && o.s.m.cpuEvents == s.m.cpuEvents
       case _ =>
         && o.s.g == s.g.(status := Corrupt)
         && ((o.s.m.launched == s.m.launched && o.s.m.cpuEvents == s.m.cpuEvents)
             || (&& o.s.m.launched == CpusBelow(s.g.started - 1)
                 && o.s.m.cpuEvents == s.m.cpuEvents + [StopCpu(s.g.started - 1)]))
  }

  /** Switching processors changes nothing but the processor. */
  lemma AffinityFrame(e: Env, m: Machine, k: nat)
    ensures
      var m' := SetAffinity(e, m, k).0;
      m' == m.(now := m'.now, cpu := m'.cpu)
    ensures
      var m' := RestoreAffinity(e, m, k);
      m' == m.(now := m'.now, cpu := m'.cpu)
  {
  }

  lemma StopOneWorks(e: Env, s: State)
    requires Able(e, s) && s.g.status == Running && s.g.started > 0 && Counted(s.g.started, s.m.launched)
    ensures StopOneOutcome(s, StopOne(e, s)) && SafeLog(e, StopOne(e, s).s.m.log)
  {
    hide Ready, SafeLog, CallVmm, CpusBelow, SetAffinity, RestoreAffinity;
    var cpuid := s.g.started - 1;
    var (m1, caller) := SetAffinity(e, s.m, cpuid);
    AffinityFrame(e, s.m, cpuid);
    if caller >= 0 {
      var (m2, ok) := Vmcall(e, m1, VmcallStop);
      if ok {
        LastCpu(s.g.started);
        CallVmmKeeps(e, s.g.a, m2, VmmFini(cpuid));
        CallVmmFrame(e, s.g.a, m2, VmmFini(cpuid));
        AffinityFrame(e, CallVmm(e, s.g.a, m2, VmmFini(cpuid)).0, caller);
      }
    }
  }

  lemma StopCompose(s: State, o: Out, rest: Out)
    requires s.g.started > 0 && StopOneOutcome(s, o) && o.ret == Success && StopOutcome(o.s, rest)
    ensures StopOutcome(s, rest)
  {
    var from, to := s.g.started, rest.s.g.started;
    if from > to {
      assert Down(from, to) == [StopCpu(from - 1), FiniCpu(from - 1)] + Down(from - 1, to);
    }
  }

  lemma {:induction false} StopLoopWorks(e: Env, s: State)
    requires Able(e, s) && s.g.status == Running && Counted(s.g.started, s.m.launched)
    ensures StopOutcome(s, StopLoop(e, s)) && SafeLog(e, StopLoop(e, s).s.m.log)
    decreases s.g.started
  {
    hide StopOne, Ready, SafeLog;
    if s.g.started <= 0 {
    } else {
      StopOneWorks(e, s);
      var o := StopOne(e, s);
      if o.ret == Success {
        StopLoopWorks(e, o.s);
        StopCompose(s, o, StopLoop(e, o.s));
      } else {
        assert Down(s.g.started, s.g.started) == [];
      }
    }
  }

  /** A start or stop in the wrong state does nothing. */
  lemma WrongState(e: Env, s: State)
    ensures s.g.status != Running ==> Stop(e, s).s == s
    ensures s.g.status != Loaded ==> Start(e, s).s == s
  {
  }

  // ---- Start ---------------------------------------------------------------------------------

  /** The status while, and after, the first k processors run the VMM. */
  function StatusAfter(k: nat): Status {
    if k == 0 then Loaded else Running
  }

  /** The first k processors run the VMM. */
  predicate StartedUpTo(s: State, k: nat) {
    s.g.started == k && s.m.launched == CpusBelow(k) && s.g.status == StatusAfter(k)
  }

  /** The rollback from k running processors: either complete, or cut short by a refused stop, or
      the VMM is corrupt. */
  predicate RolledBack(s: State, s': State, k: nat) {
    match s'.g.status
    case Loaded =>
      && s'.g.started == 0 && s'.m.launched == {}
      && s'.m.cpuEvents == s.m.cpuEvents + Down(k, 0)
    case Running =>
      && 1 <= s'.g.started <= k && s'.m.launched == CpusBelow(s'.g.started)
      && s'.m.cpuEvents == s.m.cpuEvents + Down(k, s'.g.started)
    case Corrupt => Broken(s, s', k, CpusBelow(k))
    case Unloaded => false
  }

  lemma RollbackWorks(e: Env, s: State, k: nat)
    requires Able(e, s) && StartedUpTo(s, k)
    ensures
      var o := Stop(e, s);
      SameHoldings(s, o.s) && SafeLog(e, o.s.m.log) && RolledBack(s, o.s, k)
  {
    if k > 0 {
      StopLoopWorks(e, s);
    }
  }

  predicate StartOneOutcome(s: State, o: Out, k: nat) {
    && SameHoldings(s, o.s)
    && match o.ret
       case Success =>
         && StartedUpTo(o.s, k + 1)
         && o.s.m.cpuEvents == s.m.cpuEvents + [InitCpu(k), StartCpu(k)]
       case VmmStartFailed =>
         && o.s.g == s.g.(started := k + 1) && o.s.m.launched == s.m.launched && o.s.m.cpu == k
         && o.s.m.cpuEvents == s.m.cpuEvents + [InitCpu(k)]
       case _ => RolledBack(s, o.s, k)
  }

  lemma StartOneWorks(e: Env, s: State, k: nat)
    requires Able(e, s) && StartedUpTo(s, k)
    ensures StartOneOutcome(s, StartOne(e, s, k), k) && SafeLog(e, StartOne(e, s, k).s.m.log)
  {
    hide Ready, SafeLog, CallVmm, Down, Stop, SetAffinity, RestoreAffinity;
    var (m1, caller) := SetAffinity(e, s.m, k);
    AffinityFrame(e, s.m, k);
    if caller < 0 {
      RollbackWorks(e, s.(m := m1), k);
    } else {
      CallVmmKeeps(e, s.g.a, m1, VmmInit(k));
      CallVmmFrame(e, s.g.a, m1, VmmInit(k));
      var (m2, ret) := CallVmm(e, s.g.a, m1, VmmInit(k));
      if ret != Success {
        RollbackWorks(e, s.(m := m2), k);
      } else {
        AffinityFrame(e, Vmcall(e, m2, VmcallStart).0, caller);
      }
    }
  }

  /** The outcome of starting the processors from k on; `j` is the processor it stopped at. */
  predicate StartOutcome(s: State, o: Out, k: nat, j: nat) {
    && k <= j && SameHoldings(s, o.s)
    && match o.ret
       case Success =>
         && StartedUpTo(o.s, j)
         && o.s.m.cpuEvents == s.m.cpuEvents + Up(k, j)
       case VmmStartFailed =>
         && o.s.g.started == j + 1 && o.s.m.launched == CpusBelow(j) && o.s.m.cpu == j
         && o.s.g.status == StatusAfter(j)
         && o.s.m.cpuEvents == s.m.cpuEvents + Up(k, j) + [InitCpu(j)]
       case _ => RolledBack(s.(m := s.m.(cpuEvents := s.m.cpuEvents + Up(k, j))), o.s, j)
  }

  lemma StartCompose(s: State, o: Out, rest: Out, k: nat, j: nat)
    requires StartOneOutcome(s, o, k) && o.ret == Success && StartOutcome(o.s, rest, k + 1, j)
    ensures StartOutcome(s, rest, k, j)
  {
    assert Up(k, j) == [InitCpu(k), StartCpu(k)] + Up(k + 1, j);
    assert o.s.m.cpuEvents + Up(k + 1, j) == s.m.cpuEvents + Up(k, j);
  }

  lemma {:induction false} StartLoopWorks(e: Env, s: State, k: CpuCount) returns (j: nat)
    requires Able(e, s) && StartedUpTo(s, k)
    ensures StartOutcome(s, StartLoop(e, s, k), k, j) && SafeLog(e, StartLoop(e, s, k).s.m.log)
    decreases 0x8000_0000_0000_0000 - k
  {
    hide StartOne, Ready, SafeLog;
    var (m, n) := NumCpus(e, s.m);
    assert s.m.cpuEvents + Up(k, k) == s.m.cpuEvents;
    j := k;
    if k >= n {
    } else {
      var s1 := s.(m := m);
      StartOneWorks(e, s1, k);
      var o := StartOne(e, s1, k);
      if o.ret == Success {
        j := StartLoopWorks(e, o.s, k + 1);
        StartCompose(s1, o, StartLoop(e, o.s, k + 1), k, j);
      }
    }
  }
}
