/** Which answers of the outside lead to which outcome: for each call of the driver a reference
    definition that looks for the first step that fails, and the lemma that the call ends there. */
module Outcomes {
  import opened CommonModel
  import opened Config
  import opened Descriptors
  import opened Invariant
  import opened Lifecycle
  import opened Machine
  import opened Safety
  import opened Words

  // ---- A call into the VMM -------------------------------------------------------------------

  /** A call into the VMM gets through: the entry point is known, its arguments can be set up (the
      call made at `now`), and the VMM answers the request (two calls later) with success. */
  predicate Accepted(e: Env, entry: nat, now: nat) {
    entry != 0 && e.answers(now).code == 0 && e.answers(now + 2).code == 0
  }

  /** What the caller of call_vmm is told. */
  function Told(e: Env, entry: nat, now: nat): (ret: Ret)
    ensures ret == Success <==> Accepted(e, entry, now)
    ensures ret == Success || ret == Unknown || ret.External?
  {
    if e.answers(now).code != 0 then External(e.answers(now).code)
    else if entry == 0 then Unknown
    else CodeOf(e.answers(now + 2).code)
  }

  lemma CallVmmTells(e: Env, a: Assets, m: Machine, request: Request)
    ensures CallVmm(e, a, m, request).1 == Told(e, a.entry, m.now)
  {
    hide ContextOf;
  }

  // ---- Stop ----------------------------------------------------------------------------------

  /** How stopping the processors from n - 1 down ends: with all of them stopped (`at` is the machine at
      that moment), or on processor k because the switch to it fails, it refuses STOP, or its FINI
      fails. */
  datatype StopEnd =
    | Through(at: Machine)
    | NoSwitch(k: nat, code: int)
    | NotStopped(k: nat)
    | NotFinished(k: nat, ret: Ret)

  function StopEndOf(e: Env, a: Assets, m: Machine, n: nat): (end: StopEnd)
    ensures !end.Through? ==> end.k < n
    ensures end.NotFinished? ==> end.ret != Success
    decreases n
  {
    if n == 0 then Through(m)
    else
      var (m1, caller) := SetAffinity(e, m, n - 1);
      var m2 := Vmcall(e, m1, VmcallStop).0;
      if caller < 0 then NoSwitch(n - 1, caller)
      else if e.answers(m1.now).code != 0 then NotStopped(n - 1)
      else if !Accepted(e, a.entry, m2.now) then NotFinished(n - 1, Told(e, a.entry, m2.now))
      else StopEndOf(e, a, RestoreAffinity(e, CallVmm(e, a, m2, VmmFini(n - 1)).0, caller), n - 1)
  }

  /** The state a stop from n processors leaves behind; `launched` were inside before. */
  predicate StopLeaves(s: State, s': State, n: nat, launched: set<nat>, end: StopEnd) {
    && SameHoldings(s, s')
    && match end
       case Through(_) =>
         && s'.g.status == Loaded && s'.g.started == 0 && s'.m.launched == {}
         && s'.m.cpuEvents == s.m.cpuEvents + Down(n, 0)
       case NoSwitch(k, _) =>
         && s'.g.status == Corrupt && s'.g.started == k + 1
         && s'.m.launched == (if k + 1 == n then launched else CpusBelow(k + 1))
         && s'.m.cpuEvents == s.m.cpuEvents + Down(n, k + 1)
       case NotStopped(k) =>
         && s'.g.status == Running && s'.g.started == k + 1
         && s'.m.launched == (if k + 1 == n then launched else CpusBelow(k + 1))
         && s'.m.cpuEvents == s.m.cpuEvents + Down(n, k + 1)
       case NotFinished(k, _) =>
         && s'.g.status == Corrupt && s'.g.started == k + 1 && s'.m.launched == CpusBelow(k)
         && s'.m.cpuEvents == s.m.cpuEvents + Down(n, k + 1) + [StopCpu(k)]
  }

  function StopRet(end: StopEnd): Ret {
    match end
    case Through(_) => Success
    case NoSwitch(_, code) => External(code)
    case NotStopped(_) => VmmStopFailed
    case NotFinished(_, ret) => ret
  }

  lemma StopOneEnds(e: Env, s: State)
    requires s.g.started > 0
    ensures
      var end := StopEndOf(e, s.g.a, s.m, s.g.started);
      var o := StopOne(e, s);
      if o.ret == Success then end == StopEndOf(e, s.g.a, o.s.m, s.g.started - 1)
      else !end.Through? && end.k == s.g.started - 1 && o.ret == StopRet(end) && o.s.g.started == s.g.started
           && o.s.g.status == (if end.NotStopped? then s.g.status else Corrupt)
           && (end.NotFinished? <==> o.s.m.cpuEvents == s.m.cpuEvents + [StopCpu(s.g.started - 1)])
           && (!end.NotFinished? ==> o.s.m.cpuEvents == s.m.cpuEvents && o.s.m.launched == s.m.launched)
           && (end.NotFinished? ==> o.s.m.launched == s.m.launched - {s.g.started - 1})
  {
    hide CallVmm, Accepted, Told, SetAffinity, RestoreAffinity;
    AffinityFrame(e, s.m, s.g.started - 1);
    var cpuid := s.g.started - 1;
    var (m1, caller) := SetAffinity(e, s.m, cpuid);
    var m2 := Vmcall(e, m1, VmcallStop).0;
    CallVmmTells(e, s.g.a, m2, VmmFini(cpuid));
    FailedFini(e, s.g.a, m2, cpuid);
  }

  lemma FailedFini(e: Env, a: Assets, m: Machine, k: nat)
    ensures
      var (m', ret) := CallVmm(e, a, m, VmmFini(k));
      m'.launched == m.launched && (ret != Success ==> m'.cpuEvents == m.cpuEvents)
  {
    hide ContextOf;
  }

  lemma FromNext(s: State, s1: State, s': State, n: nat, launched: set<nat>, end: StopEnd)
    requires n > 0 && SameHoldings(s, s1) && StopLeaves(s1, s', n - 1, CpusBelow(n - 1), end)
    requires !end.Through? ==> end.k < n - 1
    requires s1.m.cpuEvents == s.m.cpuEvents + [StopCpu(n - 1), FiniCpu(n - 1)]
    ensures StopLeaves(s, s', n, launched, end)
  {
    var downTo := if end.Through? then 0 else end.k + 1;
    assert Down(n, downTo) == [StopCpu(n - 1), FiniCpu(n - 1)] + Down(n - 1, downTo);
    assert s1.m.cpuEvents + Down(n - 1, downTo) == s.m.cpuEvents + Down(n, downTo);
  }

  lemma OneRound(s: State, o: Out, n: nat, end: StopEnd)
    requires n > 0 && s.g.started == n && s.g.status == Running && Counted(n, s.m.launched)
    requires SameHoldings(s, o.s) && !end.Through? && end.k == n - 1
    requires o.s.g.started == n && o.s.g.status == (if end.NotStopped? then Running else Corrupt)
    requires o.s.m.cpuEvents == s.m.cpuEvents + (if end.NotFinished? then [StopCpu(n - 1)] else [])
    requires o.s.m.launched == if end.NotFinished? then s.m.launched - {n - 1} else s.m.launched
    ensures StopLeaves(s, o.s, n, s.m.launched, end)
  {
    LastCpu(n);
    assert Down(n, n) == [];
  }

  lemma {:induction false} StopLoopEnds(e: Env, s: State)
    requires Able(e, s) && s.g.status == Running && Counted(s.g.started, s.m.launched)
    ensures
      var end := StopEndOf(e, s.g.a, s.m, s.g.started);
      && StopLoop(e, s).ret == StopRet(end) && (end.Through? ==> end.at == StopLoop(e, s).s.m)
      && StopLeaves(s, StopLoop(e, s).s, s.g.started, s.m.launched, end)
    decreases s.g.started
  {
    hide StopOne, StopEndOf, Ready, SafeLog, CpusBelow;
    var n := s.g.started;
    NothingDue(e, s.g.a, s.m);
    if n == 0 {
      assert Down(0, 0) == [];
      NobodyInside(s);
    } else {
      StopOneWorks(e, s);
      StopOneEnds(e, s);
      var o := StopOne(e, s);
      if o.ret == Success {
        StopLoopEnds(e, o.s);
        FromNext(s, o.s, StopLoop(e, o.s).s, n, s.m.launched, StopEndOf(e, s.g.a, s.m, n));
      } else {
        OneRound(s, o, n, StopEndOf(e, s.g.a, s.m, n));
      }
    }
  }

  lemma NothingDue(e: Env, a: Assets, m: Machine)
    ensures StopEndOf(e, a, m, 0) == Through(m)
  {
  }

  lemma NobodyInside(s: State)
    requires Counted(0, s.m.launched)
    ensures s.m.launched == {}
  {
  }

  /** A stop ends where the first step that is due fails: complete when none does, still RUNNING when
      that is the answer to a STOP vmcall, CORRUPT when it is a switch or a FINI. */
  lemma StopEnds(e: Env, s: State)
    requires Inv(e, s) && s.g.status == Running
    ensures
      var end := StopEndOf(e, s.g.a, s.m, s.g.started);
      && Stop(e, s).ret == StopRet(end) && (end.Through? ==> end.at == Stop(e, s).s.m)
      && StopLeaves(s, Stop(e, s).s, s.g.started, s.m.launched, end)
  {
    hide StopLoop, StopEndOf, Ready, SafeLog, CpusBelow, Held, MemoryOk, StopLeaves;
    StopLoopEnds(e, s);
  }

  // ---- Start ---------------------------------------------------------------------------------

  /** How starting the processors from k on ends: with all n of them started, on processor j before its
      START vmcall (`at` is the machine at that moment), or on processor j because it refuses START. */
  datatype StartEnd = AllUp(n: nat) | Failed(j: nat, ret: Ret, at: Machine) | Refused(j: nat)

  function StartEndOf(e: Env, a: Assets, m: Machine, k: CpuCount): (end: StartEnd)
    ensures
      match end
      case AllUp(n) => k <= n
      case Failed(j, ret, _) => k <= j && ret != Success
      case Refused(j) => k <= j
    decreases 0x8000_0000_0000_0000 - k
  {
    var (m0, n) := NumCpus(e, m);
    var (m1, caller) := SetAffinity(e, m0, k);
    var m2 := CallVmm(e, a, m1, VmmInit(k)).0;
    if k >= n then AllUp(k)
    else if caller < 0 then Failed(k, External(caller), m1)
    else if !Accepted(e, a.entry, m1.now) then Failed(k, Told(e, a.entry, m1.now), m2)
    else if e.answers(m2.now).code != 0 then Refused(k)
    else StartEndOf(e, a, RestoreAffinity(e, Vmcall(e, m2, VmcallStart).0, caller), k + 1)
  }

  /** The state a start leaves behind that has started the processors below k. A start that fails before
      a START vmcall stops what it has started, as far as the answers let it. */
  predicate StartLeaves(e: Env, s: State, s': State, k: nat, end: StartEnd) {
    && SameHoldings(s, s')
    && match end
       case AllUp(n) =>
         && s'.g.status == StatusAfter(n) && s'.g.started == n && s'.m.launched == CpusBelow(n)
         && s'.m.cpuEvents == s.m.cpuEvents + Up(k, n)
       case Refused(j) =>
         && s'.g.status == StatusAfter(j) && s'.g.started == j + 1 && s'.m.launched == CpusBelow(j)
         && s'.m.cpuEvents == s.m.cpuEvents + Up(k, j) + [InitCpu(j)]
       case Failed(j, _, at) =>
         StopLeaves(s.(m := s.m.(cpuEvents := s.m.cpuEvents + Up(k, j))), s', j, CpusBelow(j),
                    StopEndOf(e, s.g.a, at, j))
  }

  function StartRet(end: StartEnd): Ret {
    match end
    case AllUp(_) => Success
    case Refused(_) => VmmStartFailed
    case Failed(_, ret, _) => ret
  }

  lemma RollbackEnds(e: Env, s: State, k: nat)
    requires Able(e, s) && StartedUpTo(s, k)
    ensures StopLeaves(s, Stop(e, s).s, k, CpusBelow(k), StopEndOf(e, s.g.a, s.m, k))
  {
    hide StopEndOf, StopLoop;
    NothingDue(e, s.g.a, s.m);
    if k > 0 {
      StopLoopEnds(e, s);
    } else {
      assert Down(0, 0) == [];
    }
  }

  /** One round of the start loop: where it ends, unless it goes on. */
  lemma StartOneEnds(e: Env, s: State, k: CpuCount)
    requires Able(e, s) && StartedUpTo(s, k) && NumCpus(e, s.m).1 > k
    ensures
      var o := StartOne(e, s.(m := NumCpus(e, s.m).0), k);
      var end := StartEndOf(e, s.g.a, s.m, k);
      if o.ret == Success then end == StartEndOf(e, s.g.a, o.s.m, k + 1)
      else o.ret == StartRet(end) && !end.AllUp? && end.j == k && StartLeaves(e, s, o.s, k, end)
  {
    hide CallVmm, Stop, SetAffinity, RestoreAffinity, Accepted, Told, StopEndOf, StopLeaves, Ready, SafeLog, Down;
    var m0 := NumCpus(e, s.m).0;
    var (m1, caller) := SetAffinity(e, m0, k);
    AffinityFrame(e, m0, k);
    assert s.m.cpuEvents + Up(k, k) == s.m.cpuEvents;
    if caller < 0 {
      RollbackEnds(e, s.(m := m1), k);
      SameStart(s, s.(m := m1), Stop(e, s.(m := m1)).s, k, StopEndOf(e, s.g.a, m1, k));
    } else {
      var (m2, ret) := CallVmm(e, s.g.a, m1, VmmInit(k));
      CallVmmTells(e, s.g.a, m1, VmmInit(k));
      CallVmmKeeps(e, s.g.a, m1, VmmInit(k));
      CallVmmFrame(e, s.g.a, m1, VmmInit(k));
      if ret != Success {
        RollbackEnds(e, s.(m := m2), k);
        SameStart(s, s.(m := m2), Stop(e, s.(m := m2)).s, k, StopEndOf(e, s.g.a, m2, k));
      }
    }
  }

  lemma SameStart(s: State, s1: State, s': State, n: nat, end: StopEnd)
    requires SameHoldings(s, s1) && s1.m.cpuEvents == s.m.cpuEvents && StopLeaves(s1, s', n, CpusBelow(n), end)
    ensures StopLeaves(s.(m := s.m.(cpuEvents := s.m.cpuEvents + Up(n, n))), s', n, CpusBelow(n), end)
    ensures SameHoldings(s, s')
  {
    hide Down, CpusBelow;
    assert s.m.cpuEvents + Up(n, n) == s.m.cpuEvents;
  }

  lemma NextRound(e: Env, s: State, s1: State, s': State, k: nat, end: StartEnd)
    requires SameHoldings(s, s1) && s1.m.cpuEvents == s.m.cpuEvents + [InitCpu(k), StartCpu(k)]
    requires StartLeaves(e, s1, s', k + 1, end)
    requires match end case AllUp(n) => k < n case Failed(j, _, _) => k < j case Refused(j) => k < j
    ensures StartLeaves(e, s, s', k, end)
  {
    hide StopEndOf, Down, CpusBelow;
    var upTo := match end case AllUp(n) => n case Failed(j, _, _) => j case Refused(j) => j;
    assert Up(k, upTo) == [InitCpu(k), StartCpu(k)] + Up(k + 1, upTo);
    assert s1.m.cpuEvents + Up(k + 1, upTo) == s.m.cpuEvents + Up(k, upTo);
  }

  lemma {:induction false} StartLoopEnds(e: Env, s: State, k: CpuCount)
    requires Able(e, s) && StartedUpTo(s, k)
    ensures
      var end := StartEndOf(e, s.g.a, s.m, k);
      StartLoop(e, s, k).ret == StartRet(end) && StartLeaves(e, s, StartLoop(e, s, k).s, k, end)
    decreases 0x8000_0000_0000_0000 - k
  {
    hide StartOne, StartEndOf, StartLeaves, Ready, SafeLog, CpusBelow;
    var (m, n) := NumCpus(e, s.m);
    if k < n {
      var s1 := s.(m := m);
      StartOneWorks(e, s1, k);
      StartOneEnds(e, s, k);
      var o := StartOne(e, s1, k);
      if o.ret == Success {
        StartLoopEnds(e, o.s, k + 1);
        NextRound(e, s, o.s, StartLoop(e, o.s, k + 1).s, k, StartEndOf(e, s.g.a, s.m, k));
      }
    } else {
      AllStarted(e, s, k);
    }
  }

  lemma AllStarted(e: Env, s: State, k: CpuCount)
    requires StartedUpTo(s, k) && NumCpus(e, s.m).1 <= k
    ensures StartEndOf(e, s.g.a, s.m, k) == AllUp(k)
    ensures StartLeaves(e, s, s.(m := NumCpus(e, s.m).0), k, AllUp(k))
  {
    assert s.m.cpuEvents + Up(k, k) == s.m.cpuEvents;
  }

  /** A start ends where the first step that is due fails; if that is not the START vmcall itself, what
      was started is stopped again, as far as the answers let it. */
  lemma StartEnds(e: Env, s: State)
    requires Inv(e, s) && s.g.status == Loaded
    ensures
      var end := StartEndOf(e, s.g.a, s.m, 0);
      Start(e, s).ret == StartRet(end) && StartLeaves(e, s, Start(e, s).s, 0, end)
  {
    hide StartLoop, StartEndOf, StartLeaves, Ready, SafeLog, Held, MemoryOk;
    var s0 := s.(g := s.g.(started := 0));
    StartLoopEnds(e, s0, 0);
    CounterReset(e, s, s0, Start(e, s).s, StartEndOf(e, s.g.a, s.m, 0));
  }

  lemma CounterReset(e: Env, s: State, s0: State, s': State, end: StartEnd)
    requires s0 == s.(g := s.g.(started := 0)) && StartLeaves(e, s0, s', 0, end)
    ensures StartLeaves(e, s, s', 0, end)
  {
    hide StopEndOf, Up, Down, CpusBelow;
  }

  // ---- Unload and fini -----------------------------------------------------------------------

  /** Unloaded with every table empty and every pointer null. (The two size variables keep their
      last values; they are meaningless without the pointers.) */
  predicate Pristine(g: Globals) {
    g == Globals(Unloaded, 0, Assets([], 0, 0, g.a.tlsSize, 0, g.a.stackSize, 0))
  }

  /** An unload of a loaded VMM is complete if its FINI gets through, and otherwise ends CORRUPT. */
  lemma UnloadEnds(e: Env, s: State)
    requires s.g.status == Loaded
    ensures
      var o := Unload(e, s);
      if Accepted(e, s.g.a.entry, s.m.now) then o.ret == Success && Pristine(o.s.g)
      else o.ret == VmmCorrupted && o.s.g == s.g.(status := Corrupt)
  {
    hide CallVmm, FreeAll, Holdings;
    CallVmmTells(e, s.g.a, s.m, Fini);
  }

  lemma ResetEnds(s: State)
    ensures Pristine(Reset(s).g)
  {
  }

  /** Where common_fini ends: the status and the counter. */
  function FinishEndOf(e: Env, s: State): (Status, nat) {
    match s.g.status
    case Unloaded => (Unloaded, s.g.started)
    case Corrupt => (Corrupt, s.g.started)
    case Loaded => if Accepted(e, s.g.a.entry, s.m.now) then (Unloaded, 0) else (Corrupt, s.g.started)
    case Running =>
      match StopEndOf(e, s.g.a, s.m, s.g.started)
      case NotStopped(k) => (Running, k + 1)
      case NoSwitch(k, _) => (Corrupt, k + 1)
      case NotFinished(k, _) => (Corrupt, k + 1)
      case Through(at) => if Accepted(e, s.g.a.entry, at.now) then (Unloaded, 0) else (Corrupt, 0)
  }

  lemma FinishEnds(e: Env, s: State)
    requires Inv(e, s)
    ensures (Finish(e, s).s.g.status, Finish(e, s).s.g.started) == FinishEndOf(e, s)
    ensures Finish(e, s).ret == if FinishEndOf(e, s).0 == Corrupt then VmmCorrupted else Success
    ensures FinishEndOf(e, s).0 != Unloaded ==> Finish(e, s).s.g.a == s.g.a
  {
    hide Stop, Unload, Reset, StopEndOf, Accepted, Inv, Unheld, Up, Down, CpusBelow, Pristine;
    if s.g.status == Running {
      StopEnds(e, s);
    }
    var s1 := if s.g.status == Running then Stop(e, s).s else s;
    if s1.g.status == Loaded {
      UnloadEnds(e, s1);
      PristineIs(Unload(e, s1).s.g);
    }
    var s2 := if s1.g.status == Loaded then Unload(e, s1).s else s1;
    ResetEnds(s2);
    PristineIs(Reset(s2).g);
    UnloadedIsZero(e, s);
  }

  lemma PristineIs(g: Globals)
    ensures Pristine(g) ==> g.status == Unloaded && g.started == 0 && g.a.mods == []
  {
  }

  lemma UnloadedIsZero(e: Env, s: State)
    requires Inv(e, s)
    ensures s.g.status == Unloaded ==> s.g.started == 0
  {
  }

  // ---- Calls that are answered at once -------------------------------------------------------

  datatype Verdict = GoesAhead | Answered(ret: Ret)

  function InStatus(status: Status, unloaded: Verdict, loaded: Verdict, running: Verdict): Verdict {
    match status
    case Unloaded => unloaded
    case Loaded => loaded
    case Running => running
    case Corrupt => Answered(VmmCorrupted)
  }

  /** The state machine of the driver: which call goes ahead in which state, and what the others are
      answered. */
  function VerdictOn(g: Globals, op: Op): Verdict {
    var wrong := Answered(VmmInvalidState);
    match op
    case AddOp(file, size) =>
      if file == 0 || size == 0 then Answered(InvalidArg)
      else if g.status == Unloaded && |g.a.mods| >= MAX_NUM_MODULES then Answered(MaxModulesReached)
      else InStatus(g.status, GoesAhead, wrong, wrong)
    case LoadOp =>
      InStatus(g.status, if g.a.mods == [] then Answered(NoModulesAdded) else GoesAhead, Answered(Success), wrong)
    case UnloadOp => InStatus(g.status, GoesAhead, GoesAhead, wrong)
    case StartOp => InStatus(g.status, wrong, GoesAhead, Answered(Success))
    case StopOp => InStatus(g.status, wrong, Answered(Success), GoesAhead)
    case DumpOp(drr, _) =>
      if !drr then Answered(InvalidArg) else if g.status == Unloaded then wrong else GoesAhead
    case FiniOp =>
      InStatus(g.status, if g.a.mods == [] then Answered(Success) else GoesAhead, GoesAhead, GoesAhead)
  }

  /** A call that is answered at once changes nothing. */
  lemma AnsweredAtOnce(e: Env, s: State, op: Op)
    requires VerdictOn(s.g, op).Answered?
    ensures Perform(e, s, op) == Out(s, VerdictOn(s.g, op).ret)
  {
    hide StopLoop, StartLoop, Prepare, AnnounceAll, CallVmm, FreeAll, Holdings;
  }

  // ---- Adding a module -----------------------------------------------------------------------

  /** An add that goes ahead puts the file at the end of the table, without an image, and changes
      nothing else. */
  lemma AddEnds(s: State, file: nat, size: nat)
    requires VerdictOn(s.g, AddOp(file, size)) == GoesAhead
    ensures
      var o := Add(s, file, size);
      && o.ret == Success && o.s == WithAssets(s, s.g.a.(mods := o.s.g.a.mods))
      && |o.s.g.a.mods| == |s.g.a.mods| + 1 && o.s.g.a.mods[..|s.g.a.mods|] == s.g.a.mods
      && o.s.g.a.mods[|s.g.a.mods|].exec == 0
      && Files(o.s.g.a.mods) == Files(s.g.a.mods) + [Block(file, size, Rw)]
  {
  }

  // ---- Thread contexts and dump --------------------------------------------------------------

  /** Every call into the VMM whose arguments can be set up writes one thread context, for the request
      that is made, with the processor the caller is on. */
  lemma ContextWritten(e: Env, a: Assets, m: Machine, request: Request)
    ensures
      var log := CallVmm(e, a, m, request).0.log;
      if e.answers(m.now).code != 0 then log == m.log
      else
        && |log| == |m.log| + 1 && log[..|m.log|] == m.log
        && var ev := log[|m.log|];
           && ev.Context? && ev.request == request && ev.stack == StackBlock(a) && ev.tls == TlsBlock(a)
           && ev.live == m.mem.live
           && ev.cpuid == if e.os.Uefi? && e.answers(m.now + 1).whoami < 0 then -1 else m.cpu
  {
  }

  /** A dump asks the VMM for the ring of the given virtual processor, and changes nothing else. */
  lemma DumpEnds(e: Env, s: State, vcpuid: nat)
    requires s.g.status != Unloaded
    ensures
      var o := Dump(e, s, true, vcpuid);
      && o.ret == Told(e, s.g.a.entry, s.m.now) && o.s.g == s.g && o.s.m.mem == s.m.mem
      && o.s.m.launched == s.m.launched && o.s.m.cpuEvents == s.m.cpuEvents && o.s.m.delivered == s.m.delivered
      && (e.answers(s.m.now).code == 0 ==>
            && |o.s.m.log| == |s.m.log| + 1 && o.s.m.log[..|s.m.log|] == s.m.log
            && o.s.m.log[|s.m.log|].Context? && o.s.m.log[|s.m.log|].request == GetDrr(vcpuid))
  {
    CallVmmTells(e, s.g.a, s.m, GetDrr(vcpuid));
    ContextWritten(e, s.g.a, s.m, GetDrr(vcpuid));
  }

  // ---- Load ----------------------------------------------------------------------------------

  function NewStack(e: Env, m: Machine): Block {
    Block(e.answers(m.now).addr, 2 * STACK_SIZE, Rw)
  }

  function NewTls(e: Env, m: Machine): Block {
    Block(e.answers(m.now + 2).addr, Wrap(THREAD_LOCAL_STORAGE_SIZE * e.answers(m.now + 1).cpus), Rw)
  }

  /** What the part of a load up to the INIT request is told: the first of its steps that fails. */
  function PrepareRet(e: Env, m: Machine): Ret {
    if !CanPlace(e, m.mem.live, NewStack(e, m)) then OutOfMemory
    else if !CanPlace(e, m.mem.live + multiset{NewStack(e, m)}, NewTls(e, m)) then OutOfMemory
    else if e.answers(m.now + 3).code != 0 then External(e.answers(m.now + 3).code)
    else Told(e, e.answers(m.now + 3).entry, m.now + 4)
  }

  lemma StackEnds(e: Env, s: State)
    ensures
      var o := SetupStack(e, s);
      if CanPlace(e, s.m.mem.live, NewStack(e, s.m)) then
        && o.ret == Success && StackBlock(o.s.g.a) == NewStack(e, s.m) && o.s.g.a.stack != 0
        && o.s.m.mem.live == s.m.mem.live + multiset{NewStack(e, s.m)} && o.s.m.now == s.m.now + 1
      else o.ret == OutOfMemory
  {
    hide StackTop;
  }

  lemma TlsEnds(e: Env, s: State)
    ensures
      var o := SetupTls(e, s);
      var tls := Block(e.answers(s.m.now + 1).addr, Wrap(THREAD_LOCAL_STORAGE_SIZE * e.answers(s.m.now).cpus), Rw);
      if CanPlace(e, s.m.mem.live, tls) then
        o.ret == Success && TlsBlock(o.s.g.a) == tls && StackBlock(o.s.g.a) == StackBlock(s.g.a)
        && o.s.m.now == s.m.now + 2
      else o.ret == OutOfMemory
  {
    hide Wrap;
  }

  lemma ElfEnds(e: Env, s: State)
    ensures
      var o := LoadElf(e, s);
      && o.ret == CodeOf(e.answers(s.m.now).code) && o.s.m.now == s.m.now + 1
      && o.s.g.a == s.g.a.(mods := o.s.g.a.mods, entry := e.answers(s.m.now).entry)
  {
    hide LoadImages;
    LoadImagesFrame(e, Tick(s.m), s.g.a.mods, e.answers(s.m.now).images);
  }

  lemma CallVmmTime(e: Env, a: Assets, m: Machine, request: Request)
    ensures CallVmm(e, a, m, request).1 == Success ==> CallVmm(e, a, m, request).0.now == m.now + 3
  {
    hide ContextOf;
  }

  lemma PrepareEnds(e: Env, s: State)
    ensures
      var o := Prepare(e, s);
      && o.ret == PrepareRet(e, s.m)
      && (o.ret == Success ==>
            && StackBlock(o.s.g.a) == NewStack(e, s.m) && TlsBlock(o.s.g.a) == NewTls(e, s.m)
            && o.s.g.a.entry == e.answers(s.m.now + 3).entry && o.s.m.now == s.m.now + 7)
  {
    hide SetupStack, SetupTls, LoadElf, CallVmm, CanPlace, Told, Wrap;
    StackEnds(e, s);
    var s1 := SetupStack(e, s).s;
    TlsEnds(e, s1);
    var s2 := SetupTls(e, s1).s;
    ElfEnds(e, s2);
    var s3 := LoadElf(e, s2).s;
    CallVmmTells(e, s3.g.a, s3.m, Init);
    CallVmmTime(e, s3.g.a, s3.m, Init);
  }

  /** n pages announced from time `now` on are all accepted. */
  predicate PagesAccepted(e: Env, entry: nat, now: nat, n: nat)
    decreases n
  {
    n == 0 || (Accepted(e, entry, now) && PagesAccepted(e, entry, now + 3, n - 1))
  }

  /** The calls made to announce segments: one to the loader for each, three for each page. */
  function Calls(ranges: seq<Range>): nat {
    if ranges == [] then 0 else 1 + 3 * PageCount(ranges[0].lo, ranges[0].hi) + Calls(ranges[1..])
  }

  /** The loader can read every segment and the VMM accepts every page. */
  predicate SegmentsAccepted(e: Env, entry: nat, now: nat, ranges: seq<Range>)
    decreases ranges
  {
    ranges == []
    || (&& e.answers(now).code == 0
        && PagesAccepted(e, entry, now + 1, PageCount(ranges[0].lo, ranges[0].hi))
        && SegmentsAccepted(e, entry, now + 1 + 3 * PageCount(ranges[0].lo, ranges[0].hi), ranges[1..]))
  }

  lemma {:induction false} SegmentsSplit(e: Env, entry: nat, now: nat, x: seq<Range>, y: seq<Range>)
    ensures Calls(x + y) == Calls(x) + Calls(y)
    ensures SegmentsAccepted(e, entry, now, x + y)
       <==> SegmentsAccepted(e, entry, now, x) && SegmentsAccepted(e, entry, now + Calls(x), y)
    decreases x
  {
    hide PagesAccepted, PageCount;
    if x == [] {
      assert x + y == y;
    } else {
      assert (x + y)[1..] == x[1..] + y;
      SegmentsSplit(e, entry, now + 1 + 3 * PageCount(x[0].lo, x[0].hi), x[1..], y);
    }
  }

  lemma {:induction false} RangeEnds(e: Env, a: Assets, m: Machine, lo: nat, hi: nat, access: Access)
    ensures
      var r := AnnounceRange(e, a, m, lo, hi, access);
      && (r.1 == Success <==> PagesAccepted(e, a.entry, m.now, PageCount(lo, hi)))
      && (r.1 == Success ==> r.0.now == m.now + 3 * PageCount(lo, hi))
    decreases if lo <= hi then hi - lo + 1 else 0
  {
    hide CallVmm, Accepted, Told;
    if lo > hi {
    } else {
      CountCons(lo, hi);
      hide PageCount;
      var request := AddMdl(Descriptor(lo, PhysOf(e, lo), access));
      CallVmmTells(e, a, m, request);
      CallVmmTime(e, a, m, request);
      RangeEnds(e, a, CallVmm(e, a, m, request).0, lo + MAX_PAGE_SIZE, hi, access);
    }
  }

  lemma {:induction false} ModuleEnds(e: Env, a: Assets, m: Machine, b: Binary, k: nat)
    requires k <= |b.segs|
    ensures
      var r := AnnounceModule(e, a, m, b, k);
      var ranges := ModuleRanges(b)[k..];
      && (r.1 == Success <==> SegmentsAccepted(e, a.entry, m.now, ranges))
      && (r.1 == Success ==> r.0.now == m.now + Calls(ranges))
    decreases |b.segs| - k
  {
    hide AnnounceRange, PagesAccepted, PageCount, SegRange;
    var ranges := ModuleRanges(b);
    if k == |b.segs| {
    } else {
      assert ranges[k..][1..] == ranges[k + 1..];
      var seg := b.segs[k];
      SegBounds(b, seg);
      SegAccess(b, seg);
      var m1 := LibraryCall(e, m).0;
      RangeEnds(e, a, m1, ranges[k].lo, ranges[k].hi, ranges[k].access);
      ModuleEnds(e, a, AnnounceRange(e, a, m1, ranges[k].lo, ranges[k].hi, ranges[k].access).0, b, k + 1);
    }
  }

  lemma SegAccess(b: Binary, seg: Segment)
    ensures SegRange(b, seg).access == AccessOf(seg)
  {
  }

  lemma {:induction false} ModulesEnd(e: Env, a: Assets, m: Machine, mods: seq<Binary>)
    ensures
      var r := AnnounceModules(e, a, m, mods);
      && (r.1 == Success <==> SegmentsAccepted(e, a.entry, m.now, AllRanges(mods)))
      && (r.1 == Success ==> r.0.now == m.now + Calls(AllRanges(mods)))
    decreases mods
  {
    hide AnnounceModule, SegmentsAccepted, Calls, ModuleRanges;
    if mods == [] {
      NoSegments(e, a.entry, m.now);
    } else {
      ModuleEnds(e, a, m, mods[0], 0);
      assert ModuleRanges(mods[0])[0..] == ModuleRanges(mods[0]);
      SegmentsSplit(e, a.entry, m.now, ModuleRanges(mods[0]), AllRanges(mods[1..]));
      ModulesEnd(e, a, AnnounceModule(e, a, m, mods[0], 0).0, mods[1..]);
    }
  }

  lemma NoSegments(e: Env, entry: nat, now: nat)
    ensures SegmentsAccepted(e, entry, now, []) && Calls([]) == 0
  {
  }

  lemma PrepareFiles(e: Env, s: State)
    ensures Files(Prepare(e, s).s.g.a.mods) == Files(s.g.a.mods)
  {
    hide LoadImages, CallVmm, Alloc, Files, StackTop;
    var s2 := SetupTls(e, SetupStack(e, s).s).s;
    LoadImagesFiles(e, Tick(s2.m), s2.g.a.mods, e.answers(s2.m.now).images);
  }

  /** How a load ends: before anything is announced, on a segment, on a page of the TLS block, or
      complete. */
  datatype LoadEnd = NotPrepared | OnSegment | OnTls | Complete

  function LoadEndOf(e: Env, s: State): LoadEnd {
    var a := Prepare(e, s).s.g.a;
    var now := s.m.now + 7;
    if PrepareRet(e, s.m) != Success then NotPrepared
    else if !SegmentsAccepted(e, a.entry, now, AllRanges(a.mods)) then OnSegment
    else if !PagesAccepted(e, a.entry, now + Calls(AllRanges(a.mods)), PageCount(a.tls, a.tls + a.tlsSize)) then OnTls
    else Complete
  }

  /** A load that fails before the TLS block is announced is rolled back completely; one that fails on a
      page of the TLS block is not rolled back at all. */
  lemma LoadEnds(e: Env, s: State)
    requires s.g.status == Unloaded && s.g.a.mods != []
    ensures
      var o := Load(e, s);
      match LoadEndOf(e, s)
      case NotPrepared => o.ret == PrepareRet(e, s.m) && Pristine(o.s.g)
      case OnSegment => o.ret != Success && Pristine(o.s.g)
      case OnTls => o.ret != Success && o.s.g == Prepare(e, s).s.g && o.s.g.status == Unloaded
      case Complete => o.ret == Success && o.s.g == Prepare(e, s).s.g.(status := Loaded)
    ensures Load(e, s).ret == Success <==> LoadEndOf(e, s).Complete?
    ensures LoadEndOf(e, s).OnTls? || LoadEndOf(e, s).Complete? ==>
              var a := Load(e, s).s.g.a;
              && StackBlock(a) == NewStack(e, s.m) && TlsBlock(a) == NewTls(e, s.m)
              && a.entry == e.answers(s.m.now + 3).entry && Files(a.mods) == Files(s.g.a.mods)
  {
    hide Prepare, AnnounceModules, AnnounceRange, SegmentsAccepted, PagesAccepted, PageCount, PrepareRet, Pristine;
    hide Calls, AllRanges, FreeAll, Holdings;
    PrepareEnds(e, s);
    PrepareDeliversNothing(e, s);
    var o := Prepare(e, s);
    if o.ret == Success {
      PrepareFiles(e, s);
      ModulesEnd(e, o.s.g.a, o.s.m, o.s.g.a.mods);
      var m := AnnounceModules(e, o.s.g.a, o.s.m, o.s.g.a.mods).0;
      RangeEnds(e, o.s.g.a, m, o.s.g.a.tls, o.s.g.a.tls + o.s.g.a.tlsSize, RW);
      ResetEnds(o.s.(m := m));
    } else {
      ResetEnds(o.s);
    }
  }
}
