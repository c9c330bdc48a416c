/** When the processors counted are not the processors inside the VMM. A gap can only be one processor
    wide (Runs.LaunchedIsPrefix); what is left to say is when there is one. */
module Gaps {
  import opened CommonModel
  import opened Config
  import opened History
  import opened Invariant
  import opened Lifecycle
  import opened Machine
  import opened Safety

  /** Some processor is counted and not inside the VMM. */
  predicate Gap(s: State) {
    s.m.launched != CpusBelow(s.g.started)
  }

  /** The processor whose START vmcall is the first one the VMM answers with a non-zero code when
      the processors are started from k on; -1 if there is none, because all are accepted or the
      start fails before. */
  function FirstRefused(e: Env, a: Assets, m: Machine, k: CpuCount): (j: int)
    ensures j == -1 || k <= j
    decreases 0x8000_0000_0000_0000 - k
  {
    var (m0, n) := NumCpus(e, m);
    var (m1, caller) := SetAffinity(e, m0, k);
    var (m2, ret) := CallVmm(e, a, m1, VmmInit(k));
    if k >= n || caller < 0 || ret != Success then -1
    else if e.answers(m2.now).code != 0 then k
    else FirstRefused(e, a, RestoreAffinity(e, Vmcall(e, m2, VmcallStart).0, caller), k + 1)
  }

  // ---- One start -----------------------------------------------------------------------------

  /** The step of the loop the VMM refused, and the other ones. */
  lemma StartOneRefused(e: Env, s: State, k: CpuCount)
    requires NumCpus(e, s.m).1 > k
    ensures
      var o := StartOne(e, s.(m := NumCpus(e, s.m).0), k);
      var j := FirstRefused(e, s.g.a, s.m, k);
      match o.ret
      case Success => j == FirstRefused(e, o.s.g.a, o.s.m, k + 1)
      case VmmStartFailed => j == k
      case _ => j == -1
  {
    hide CallVmm, Stop;
    var m1 := SetAffinity(e, NumCpus(e, s.m).0, k).0;
    CallVmmFrame(e, s.g.a, m1, VmmInit(k));
  }

  /** A start is refused on the processor whose vmcall is the first to be answered with a non-zero
      code. */
  lemma {:induction false} StartLoopRefused(e: Env, s: State, k: CpuCount)
    requires s.g.started == k
    ensures
      var j := FirstRefused(e, s.g.a, s.m, k);
      var o := StartLoop(e, s, k);
      && (o.ret == VmmStartFailed <==> j >= 0)
      && (j >= 0 ==> o.s.g.started == j + 1)
    decreases 0x8000_0000_0000_0000 - k
  {
    hide FirstRefused, StartOne;
    if k < NumCpus(e, s.m).1 {
      StartOneRefused(e, s, k);
      var o := StartOne(e, s.(m := NumCpus(e, s.m).0), k);
      StartOneCounts(e, s.(m := NumCpus(e, s.m).0), k);
      if o.ret == Success {
        StartLoopRefused(e, o.s, k + 1);
      }
    } else {
      NobodyAsked(e, s, k);
    }
  }

  lemma NobodyAsked(e: Env, s: State, k: CpuCount)
    requires k >= NumCpus(e, s.m).1
    ensures FirstRefused(e, s.g.a, s.m, k) == -1
  {
  }

  lemma StartOneCounts(e: Env, s: State, k: CpuCount)
    ensures StartOne(e, s, k).ret == VmmStartFailed ==> StartOne(e, s, k).s.g.started == s.g.started + 1
  {
    hide CallVmm, Stop;
    var m1 := SetAffinity(e, s.m, k).0;
    CallVmmFrame(e, s.g.a, m1, VmmInit(k));
  }

  lemma OneMore(n: nat)
    requires n > 0
    ensures CpusBelow(n - 1) != CpusBelow(n)
  {
    CpusBelowHolds(n, n - 1);
    CpusBelowHolds(n - 1, n - 1);
  }

  // ---- Stops that break down -----------------------------------------------------------------

  /** The last per-processor request that succeeded is a STOP: its FINI failed. */
  predicate EndsInStop(events: seq<CpuEvent>) {
    events != [] && events[|events| - 1].StopCpu?
  }

  lemma EndsAfter(events: seq<CpuEvent>, more: seq<CpuEvent>)
    ensures EndsInStop(events + more) == if more == [] then EndsInStop(events) else EndsInStop(more)
  {
    assert more == [] ==> events + more == events;
  }

  lemma {:induction false} UpEnds(from: nat, upTo: nat)
    ensures !EndsInStop(Up(from, upTo)) && (from < upTo ==> Up(from, upTo) != [])
    decreases upTo - from
  {
    if upTo <= from {
    } else {
      UpEnds(from + 1, upTo);
      EndsAfter([InitCpu(from), StartCpu(from)], Up(from + 1, upTo));
    }
  }

  lemma {:induction false} DownEnds(from: nat, downTo: nat)
    ensures !EndsInStop(Down(from, downTo)) && (from > downTo ==> Down(from, downTo) != [])
    decreases from
  {
    if from <= downTo {
    } else {
      DownEnds(from - 1, downTo);
      EndsAfter([StopCpu(from - 1), FiniCpu(from - 1)], Down(from - 1, downTo));
    }
  }

  /** The books of the driver: a gap is there exactly when it is `open`, or the VMM is corrupt because
      the FINI of a processor that had been stopped failed. */
  predicate Tally(s: State, open: bool) {
    && (Gap(s) <==> open || EndsInStop(s.m.cpuEvents))
    && (s.g.status != Corrupt ==> !EndsInStop(s.m.cpuEvents))
  }

  /** A stop from n processors that broke down: the gap stays open on the last processor, or it is
      one the breakdown made. */
  lemma BrokenTally(s: State, s': State, n: nat, launched: set<nat>)
    requires Broken(s, s', n, launched) && !EndsInStop(s.m.cpuEvents) && s'.g.status == Corrupt
    ensures Tally(s', launched != CpusBelow(n) && s'.g.started == n)
  {
    hide CpusBelow, Down, EndsInStop;
    var k := s'.g.started;
    DownEnds(n, k);
    EndsAfter(s.m.cpuEvents, Down(n, k));
    EndsAfter(s.m.cpuEvents + Down(n, k), [StopCpu(k - 1)]);
    LoneStop(k - 1);
    OneMore(k);
  }

  lemma LoneStop(k: nat)
    ensures EndsInStop([StopCpu(k)])
  {
  }

  // ---- One start, continued ------------------------------------------------------------------

  lemma RollbackTally(s: State, s': State, n: nat)
    requires RolledBack(s, s', n) && !EndsInStop(s.m.cpuEvents)
    ensures Tally(s', false)
  {
    hide CpusBelow, Down, EndsInStop, Broken;
    NoCpus();
    if s'.g.status == Corrupt {
      BrokenTally(s, s', n, CpusBelow(n));
    } else {
      DownEnds(n, s'.g.started);
      EndsAfter(s.m.cpuEvents, Down(n, s'.g.started));
    }
  }

  lemma StartTally(s: State, o: Out, j: nat)
    requires s.g.status == Loaded && !EndsInStop(s.m.cpuEvents) && StartOutcome(s, o, 0, j)
    ensures Tally(o.s, o.ret == VmmStartFailed)
  {
    hide CpusBelow, Up, Down, RolledBack, EndsInStop;
    var events := s.m.cpuEvents + Up(0, j);
    UpEnds(0, j);
    EndsAfter(s.m.cpuEvents, Up(0, j));
    match o.ret
    case Success =>
    case VmmStartFailed =>
      EndsAfter(events, [InitCpu(j)]);
      LoneInit(j);
      OneMore(j + 1);
    case _ => RollbackTally(s.(m := s.m.(cpuEvents := events)), o.s, j);
  }

  lemma LoneInit(k: nat)
    ensures !EndsInStop([InitCpu(k)])
  {
  }

  /** A start leaves a gap exactly when the VMM answers the START vmcall of some processor j with a
      non-zero code, or accepts the STOP but not the FINI of a processor in its rollback. In the first
      case j + 1 processors are counted and j are inside; the VMM counts as running unless j is 0. */
  lemma StartLeavesGap(e: Env, s: State)
    requires Inv(e, s) && s.g.status == Loaded && !EndsInStop(s.m.cpuEvents)
    ensures Tally(Start(e, s).s, FirstRefused(e, s.g.a, s.m, 0) >= 0)
    ensures FirstRefused(e, s.g.a, s.m, 0) >= 0 ==>
              && Start(e, s).s.g.started == FirstRefused(e, s.g.a, s.m, 0) + 1
              && Start(e, s).s.m.launched == CpusBelow(FirstRefused(e, s.g.a, s.m, 0))
              && Start(e, s).s.g.status == StatusAfter(FirstRefused(e, s.g.a, s.m, 0))
  {
    hide FirstRefused, StartLoop, Inv, CpusBelow, Up, Down, Unheld, Broken, EndsInStop, Tally;
    var j := StartWorks(e, s);
    StartTally(s, Start(e, s), j);
    StartLoopRefused(e, s.(g := s.g.(started := 0)), 0);
  }

  lemma NoCpus()
    ensures CpusBelow(0) == {}
  {
  }

  // ---- The other calls -----------------------------------------------------------------------

  /** A call that does not start the VMM opens no gap, and closes one exactly when it changes the
      counter. */
  predicate TallyKept(s: State, s': State, open: bool) {
    && s'.g.started <= s.g.started
    && Tally(s', open && s'.g.started == s.g.started)
  }

  /** The counter is right while it is 0. */
  lemma ZeroIsRight(e: Env, s: State)
    requires Inv(e, s) && s.g.started == 0
    ensures !Gap(s)
  {
    NoCpus();
  }

  lemma StopTally(e: Env, s: State, open: bool)
    requires Inv(e, s) && Tally(s, open)
    ensures TallyKept(s, Stop(e, s).s, open)
  {
    hide Stop, Inv, CpusBelow, Unheld, Down, Broken, EndsInStop;
    NoCpus();
    WrongState(e, s);
    if s.g.status == Running {
      RunningCounts(e, s);
      StopWorks(e, s);
      var s' := Stop(e, s).s;
      if s'.g.status == Corrupt {
        BrokenStarted(s, s');
        BrokenTally(s, s', s.g.started, s.m.launched);
      } else {
        DownEnds(s.g.started, s'.g.started);
        EndsAfter(s.m.cpuEvents, Down(s.g.started, s'.g.started));
      }
    }
  }

  lemma BrokenStarted(s: State, s': State)
    requires Broken(s, s', s.g.started, s.m.launched)
    ensures s'.g.started <= s.g.started
  {
  }

  lemma RunningCounts(e: Env, s: State)
    requires Inv(e, s) && s.g.status == Running
    ensures s.g.started >= 1
  {
  }

  lemma UnloadedCount(e: Env, s: State)
    requires Inv(e, s) && s.g.status == Unloaded
    ensures s.g.started == 0
  {
  }

  /** Nothing counted any more. */
  lemma NothingCounted(e: Env, s: State, s': State, open: bool)
    requires Inv(e, s) && Inv(e, s') && Tally(s, open)
    requires s'.g.started == 0 && s'.g.status == Unloaded && s.g.status != Corrupt
    requires s'.m.cpuEvents == s.m.cpuEvents
    ensures TallyKept(s, s', open)
  {
    hide Inv, CpusBelow, EndsInStop;
    ZeroIsRight(e, s');
    if s.g.started == 0 {
      ZeroIsRight(e, s);
    }
  }

  lemma UnloadTally(e: Env, s: State, open: bool)
    requires Inv(e, s) && Tally(s, open)
    ensures TallyKept(s, Unload(e, s).s, open)
  {
    hide Inv, Unload, CpusBelow, Unheld, FreeAll, Holdings, EndsInStop, Tally;
    UnloadWorks(e, s);
    UnloadCases(e, s);
    var s' := Unload(e, s).s;
    if s'.g.status == Unloaded {
      NothingCounted(e, s, s', open);
    } else if s.g.status == Loaded {
      RefusedFini(e, s, s', open);
    }
  }

  lemma RefusedFini(e: Env, s: State, s': State, open: bool)
    requires Inv(e, s) && Inv(e, s') && Tally(s, open) && s.g.status == Loaded
    requires s'.g == s.g.(status := Corrupt) && s'.m.cpuEvents == s.m.cpuEvents && s'.m.launched == s.m.launched
    ensures TallyKept(s, s', open)
  {
    hide Inv, CpusBelow, EndsInStop;
  }

  lemma KeptBoth(s: State, s1: State, s2: State, open: bool)
    requires TallyKept(s, s1, open) && TallyKept(s1, s2, open && s1.g.started == s.g.started)
    ensures TallyKept(s, s2, open)
  {
    hide Tally;
  }

  lemma ResetTally(e: Env, s: State, open: bool)
    requires Inv(e, s) && Inv(e, Reset(s)) && Tally(s, open) && s.g.status == Unloaded
    ensures TallyKept(s, Reset(s), open)
  {
    hide Inv, FreeAll, Holdings, CpusBelow, EndsInStop;
    FreeAllFrame(s.m, Holdings(s.g.a), Driver);
    NothingCounted(e, s, Reset(s), open);
  }

  lemma FinishTally(e: Env, s: State, open: bool)
    requires Inv(e, s) && Tally(s, open)
    ensures TallyKept(s, Finish(e, s).s, open)
  {
    hide Stop, Unload, Reset, Inv, Unheld, StopOutcome, Tally;
    StopTally(e, s, open);
    StopWorks(e, s);
    var s1 := if s.g.status == Running then Stop(e, s).s else s;
    var open1 := open && s1.g.started == s.g.started;
    UnloadTally(e, s1, open1);
    UnloadWorks(e, s1);
    var s2 := if s1.g.status == Loaded then Unload(e, s1).s else s1;
    KeptBoth(s, s1, s2, open);
    FinishWorks(e, s);
    if s2.g.status == Unloaded && s2.g.a.mods != [] {
      ResetTally(e, s2, open1 && s2.g.started == s1.g.started);
      KeptBoth(s, s2, Reset(s2), open);
    }
  }

  lemma LoadTally(e: Env, s: State, open: bool)
    requires Inv(e, s) && Tally(s, open)
    ensures TallyKept(s, Load(e, s).s, open)
  {
    hide Prepare, AnnounceAll, CpusBelow, Inv, Unheld, EndsInStop;
    if s.g.status == Unloaded {
      LoadStatus(e, s);
      LoadWorks(e, s);
      UnloadedCount(e, s);
      ZeroIsRight(e, s);
      ZeroIsRight(e, Load(e, s).s);
    }
  }

  lemma DumpTally(e: Env, s: State, drr: bool, vcpuid: nat, open: bool)
    requires Tally(s, open)
    ensures TallyKept(s, Dump(e, s, drr, vcpuid).s, open)
  {
    hide ContextOf, CpusBelow, EndsInStop;
  }

  lemma PerformTally(e: Env, s: State, op: Op, open: bool)
    requires Inv(e, s) && Tally(s, open) && !(op == StartOp && s.g.status == Loaded)
    ensures TallyKept(s, Perform(e, s, op).s, open)
  {
    hide Inv, Load, Unload, Stop, Start, Finish, Dump, CpusBelow, EndsInStop;
    match op
    case AddOp(_, _) =>
    case LoadOp => LoadTally(e, s, open);
    case UnloadOp => UnloadTally(e, s, open);
    case StartOp => WrongState(e, s);
    case StopOp => StopTally(e, s, open);
    case DumpOp(drr, vcpuid) => DumpTally(e, s, drr, vcpuid, open);
    case FiniOp => FinishTally(e, s, open);
  }

  // ---- Whole runs ----------------------------------------------------------------------------

  /** Whether a gap is open after a call: a start out of LOADED opens one when it is refused, and
      every other call closes one when it changes the counter. */
  predicate OpenAfter(e: Env, s: State, op: Op, open: bool) {
    if op == StartOp && s.g.status == Loaded then FirstRefused(e, s.g.a, Enters(e, s).m, 0) >= 0
    else open && Step(e, s, op).s.g.started == s.g.started
  }

  /** True when the VMM refused the last start out of LOADED in the run and the counter has not
      changed since (no processor was stopped); `open` says the same of the calls before the run. */
  predicate RefusedSince(e: Env, s: State, ops: seq<Op>, open: bool)
    decreases ops
  {
    if ops == [] then open
    else RefusedSince(e, Step(e, s, ops[0]).s, ops[1..], OpenAfter(e, s, ops[0], open))
  }

  lemma TallyEnters(e: Env, s: State, open: bool)
    ensures Tally(Enters(e, s), open) == Tally(s, open) && Enters(e, s).g == s.g
    ensures Enters(e, s).m.cpuEvents == s.m.cpuEvents
  {
    hide CpusBelow;
  }

  lemma StepTally(e: Env, s: State, op: Op, open: bool)
    requires Inv(e, s) && Tally(s, open)
    ensures Tally(Step(e, s, op).s, OpenAfter(e, s, op, open))
  {
    hide Inv, Start, Gap, EndsInStop, FirstRefused, Unheld;
    EntersKeeps(e, s);
    TallyEnters(e, s, open);
    var s0 := Enters(e, s);
    if op == StartOp && s.g.status == Loaded {
      StartLeavesGap(e, s0);
    } else {
      hide Perform;
      PerformTally(e, s0, op, open);
    }
  }

  lemma {:induction false} GapAlongRun(e: Env, s: State, ops: seq<Op>, open: bool)
    requires Inv(e, s) && Tally(s, open)
    ensures Tally(Run(e, s, ops), RefusedSince(e, s, ops, open))
    decreases ops
  {
    hide Inv, Step, Tally, OpenAfter;
    if ops == [] {
    } else {
      StepWorks(e, s, ops[0]);
      StepTally(e, s, ops[0], open);
      GapAlongRun(e, Step(e, s, ops[0]).s, ops[1..], OpenAfter(e, s, ops[0], open));
    }
  }

  lemma BootTally(cpu: nat)
    ensures Tally(Boot(cpu), false)
  {
  }

  /** Over every run: the processors counted are the processors inside the VMM, except exactly when
      the last start was refused and no processor was stopped since, or the VMM is corrupt because it
      accepted the STOP of a processor and the FINI failed. */
  lemma CountedAreLaunched(e: Env, cpu: nat, ops: seq<Op>)
    ensures
      var s := Run(e, Boot(cpu), ops);
      s.m.launched == CpusBelow(s.g.started) <==>
        !RefusedSince(e, Boot(cpu), ops, false) && !(s.g.status == Corrupt && EndsInStop(s.m.cpuEvents))
  {
    hide Run, Inv, CpusBelow, RefusedSince, EndsInStop;
    BootIsSafe(e, cpu);
    BootTally(cpu);
    GapAlongRun(e, Boot(cpu), ops, false);
  }

  /** A call opens a gap only when it is a start whose vmcall is refused, or when it breaks down
      between the STOP and the FINI of a processor. */
  lemma GapOnlyAfterRefusedStart(e: Env, cpu: nat, ops: seq<Op>, op: Op)
    requires !Gap(Run(e, Boot(cpu), ops)) && Gap(Step(e, Run(e, Boot(cpu), ops), op).s)
    ensures
      var o := Step(e, Run(e, Boot(cpu), ops), op);
      (op == StartOp && o.ret == VmmStartFailed) || (o.s.g.status == Corrupt && EndsInStop(o.s.m.cpuEvents))
  {
    hide Run, Inv, Step, CpusBelow, RefusedSince, EndsInStop, FirstRefused, StartLoop;
    var s := Run(e, Boot(cpu), ops);
    BootIsSafe(e, cpu);
    EveryRunIsSafe(e, Boot(cpu), ops);
    BootTally(cpu);
    GapAlongRun(e, Boot(cpu), ops, false);
    StepTally(e, s, op, false);
    if op == StartOp && s.g.status == Loaded {
      StepIsStart(e, s);
      StartLoopRefused(e, Enters(e, s).(g := s.g.(started := 0)), 0);
    }
  }

  lemma StepIsStart(e: Env, s: State)
    requires s.g.status == Loaded
    ensures Step(e, s, StartOp) == StartLoop(e, Enters(e, s).(g := s.g.(started := 0)), 0)
  {
    hide StartLoop;
  }
}
