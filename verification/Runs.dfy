/** Properties of whole runs: rollback, resumable stops, corruption, fini and the round trip. */
module Runs {
  import opened CommonModel
  import opened Config
  import opened Descriptors
  import opened Invariant
  import opened Lifecycle
  import opened Machine
  import opened Outcomes
  import opened Safety
  import opened Words

  // ---- Every run -----------------------------------------------------------------------------

  /** Whatever is called and whatever the outside answers: processors are inside the VMM only while
      it runs or is corrupt, and then they are the processors below the count, perhaps without the
      last one. While it runs at least one processor is inside. */
  lemma LaunchedIsPrefix(e: Env, cpu: nat, ops: seq<Op>)
    ensures
      var s := Run(e, Boot(cpu), ops);
      match s.g.status
      case Unloaded => s.m.launched == {} && s.g.started == 0
      case Loaded => s.m.launched == {} && s.g.started <= 1
      case Running =>
        && s.g.started >= 1
        && (s.m.launched == CpusBelow(s.g.started)
            || (s.g.started >= 2 && s.m.launched == CpusBelow(s.g.started - 1)))
      case Corrupt => s.m.launched == CpusBelow(s.g.started) || s.m.launched == CpusBelow(s.g.started - 1)
  {
    hide Run, CpusBelow, Held, SafeLog, MemoryOk;
    BootIsSafe(e, cpu);
    EveryRunIsSafe(e, Boot(cpu), ops);
  }

  /** Every block ever given back was alive, and no processor was inside the VMM. */
  lemma FreedOnlyOutsideVmm(e: Env, cpu: nat, ops: seq<Op>, ev: Event)
    requires ev in Run(e, Boot(cpu), ops).m.log && ev.Freed? && ev.owner.Driver?
    ensures ev.block in ev.live && ev.launched == {}
  {
    hide Run, Held, MemoryOk, StatusOk;
    BootIsSafe(e, cpu);
    EveryRunIsSafe(e, Boot(cpu), ops);
    assert Safe(e, ev);
  }

  /** Every thread context ever written lies, with the stack pointer below it, in a live stack; in a
      per-processor request it names the processor of the request. */
  lemma ContextsAreOnLiveStacks(e: Env, cpu: nat, ops: seq<Op>, ev: Event)
    requires ev in Run(e, Boot(cpu), ops).m.log && ev.Context?
    ensures ev.stack in ev.live && ev.tls in ev.live
    ensures CONTEXT_SIZE + 2 <= STACK_SIZE ==>
              && ev.at + CONTEXT_SIZE + 1 == Floor(ev.stack.addr + ev.stack.len, STACK_SIZE)
              && ev.sp + 1 == ev.at
              && ev.stack.addr + (STACK_SIZE - CONTEXT_SIZE - 2) < ev.sp
              && ev.at + CONTEXT_SIZE < ev.stack.addr + ev.stack.len
    ensures NamesCpu(e, ev.request, ev.cpuid)
  {
    hide Run, Held, MemoryOk, StatusOk, NamesCpu;
    BootIsSafe(e, cpu);
    EveryRunIsSafe(e, Boot(cpu), ops);
    assert Safe(e, ev);
  }

  /** Outside UNLOADED the entry point is set and the stack and the TLS block are alive. */
  lemma LoadedIsReady(e: Env, cpu: nat, ops: seq<Op>)
    requires Run(e, Boot(cpu), ops).g.status != Unloaded
    ensures
      var s := Run(e, Boot(cpu), ops);
      Ready(s.g.a, s.m.mem.live) && s.g.a.entry != 0
  {
    hide Run, Held, MemoryOk, SafeLog, Ready;
    BootIsSafe(e, cpu);
    EveryRunIsSafe(e, Boot(cpu), ops);
  }

  // ---- Last in, first out --------------------------------------------------------------------

  function Undo(ev: CpuEvent): CpuEvent {
    match ev
    case InitCpu(k) => FiniCpu(k)
    case StartCpu(k) => StopCpu(k)
    case StopCpu(k) => StartCpu(k)
    case FiniCpu(k) => InitCpu(k)
  }

  /** Each event undone, in the opposite order. */
  function Mirror(events: seq<CpuEvent>): seq<CpuEvent> {
    if events == [] then [] else Mirror(events[1..]) + [Undo(events[0])]
  }

  lemma {:induction false} MirrorOfConcat(a: seq<CpuEvent>, b: seq<CpuEvent>)
    ensures Mirror(a + b) == Mirror(b) + Mirror(a)
  {
    if a == [] {
      assert a + b == b;
    } else {
      assert (a + b)[1..] == a[1..] + b;
      MirrorOfConcat(a[1..], b);
    }
  }

  lemma {:induction false} UpSnoc(from: nat, to: nat)
    requires from <= to
    ensures Up(from, to + 1) == Up(from, to) + [InitCpu(to), StartCpu(to)]
    decreases if from < to then to - from else 0
  {
    if from >= to {
    } else {
      UpSnoc(from + 1, to);
    }
  }

  lemma MirrorOfPair(a: CpuEvent, b: CpuEvent)
    ensures Mirror([a, b]) == [Undo(b), Undo(a)]
  {
    assert [a, b][1..] == [b] && [b][1..] == [];
    assert Mirror([b]) == [Undo(b)];
  }

  /** Stopping the first n processors is the mirror image of starting them. */
  lemma {:induction false} DownMirrorsUp(n: nat)
    ensures Down(n, 0) == Mirror(Up(0, n))
  {
    if n <= 0 {
    } else {
      UpSnoc(0, n - 1);
      var last := [InitCpu(n - 1), StartCpu(n - 1)];
      MirrorOfConcat(Up(0, n - 1), last);
      MirrorOfPair(last[0], last[1]);
      DownMirrorsUp(n - 1);
    }
  }

  /** A start that fails before a vmcall and whose rollback succeeds leaves the driver loaded with
      nothing started; what happened is a palindrome up to undoing. */
  lemma RollbackIsLifo(e: Env, s: State) returns (k: nat)
    requires Inv(e, s) && s.g.status == Loaded
    requires Start(e, s).ret != Success && Start(e, s).ret != VmmStartFailed
    requires Start(e, s).s.g.status == Loaded
    ensures Start(e, s).s.m.cpuEvents == s.m.cpuEvents + Up(0, k) + Mirror(Up(0, k))
    ensures Start(e, s).s.g == s.g.(started := 0)
    ensures Start(e, s).s.m.launched == {}
  {
    hide Start, Inv, CpusBelow;
    k := StartWorks(e, s);
    DownMirrorsUp(k);
  }

  /** A start that fails before the START vmcall of processor j is undone completely if and only if every
      step of stopping the processors below j gets through; it leaves the VMM running if and only if a
      STOP vmcall is refused, and corrupt if and only if a switch or a FINI fails. */
  lemma RollbackCompletes(e: Env, s: State)
    requires Inv(e, s) && s.g.status == Loaded && StartEndOf(e, s.g.a, s.m, 0).Failed?
    ensures
      var Failed(j, ret, at) := StartEndOf(e, s.g.a, s.m, 0);
      var end := StopEndOf(e, s.g.a, at, j);
      var o := Start(e, s);
      && o.ret == ret
      && (end.Through? <==> o.s.g == s.g.(started := 0))
      && (end.Through? ==> o.s.m.cpuEvents == s.m.cpuEvents + Up(0, j) + Mirror(Up(0, j)) && o.s.m.launched == {})
      && (end.NotStopped? <==> o.s.g.status == Running)
      && (end.NoSwitch? || end.NotFinished? <==> o.s.g.status == Corrupt)
      && (!end.Through? ==> o.s.g.started == end.k + 1)
  {
    hide Start, StartEndOf, StopEndOf, Inv, CpusBelow, Up, Down, Mirror;
    StartEnds(e, s);
    DownMirrorsUp(StartEndOf(e, s.g.a, s.m, 0).j);
  }

  lemma {:induction false} DownMentions(from: nat, i: nat)
    requires i < |Down(from, 0)|
    ensures Down(from, 0)[i].cpu == from - 1 - i / 2
    ensures if i % 2 == 0 then Down(from, 0)[i].StopCpu? else Down(from, 0)[i].FiniCpu?
    decreases from
  {
    if from > 0 && i >= 2 {
      DownMentions(from - 1, i - 2);
      assert Down(from, 0)[i] == Down(from - 1, 0)[i - 2];
    }
  }

  /** No processor is stopped or finalised twice. */
  lemma DownIsDistinct(n: nat, i: nat, j: nat)
    requires i < j < |Down(n, 0)|
    ensures Down(n, 0)[i] != Down(n, 0)[j]
  {
    DownMentions(n, i);
    DownMentions(n, j);
  }

  // ---- Stops can be resumed ------------------------------------------------------------------

  lemma {:induction false} DownSplit(a: nat, b: nat, c: nat)
    requires c <= b <= a
    ensures Down(a, b) + Down(b, c) == Down(a, c)
    decreases a
  {
    if a <= b {
    } else {
      DownSplit(a - 1, b, c);
      assert [StopCpu(a - 1), FiniCpu(a - 1)] + Down(a - 1, b) + Down(b, c)
          == [StopCpu(a - 1), FiniCpu(a - 1)] + (Down(a - 1, b) + Down(b, c));
    }
  }

  /** From s, where the VMM runs: it still runs, perhaps on fewer processors, or all of them are
      stopped, or the stop broke down on the last processor counted. Each processor below the old
      count and not below the new one was stopped and finalised once, from the last one on. */
  predicate Winding(s: State, s': State) {
    match s'.g.status
    case Running =>
      && s'.g.started <= s.g.started
      && s'.m.cpuEvents == s.m.cpuEvents + Down(s.g.started, s'.g.started)
    case Corrupt =>
      && s'.g.started <= s.g.started
      && (|| s'.m.cpuEvents == s.m.cpuEvents + Down(s.g.started, s'.g.started)
          || (&& s'.g.started >= 1
              && s'.m.cpuEvents
                 == s.m.cpuEvents + Down(s.g.started, s'.g.started) + [StopCpu(s'.g.started - 1)]))
    case _ => s'.m.cpuEvents == s.m.cpuEvents + Down(s.g.started, 0)
  }

  lemma StopWinds(e: Env, s: State)
    requires Inv(e, s) && s.g.status == Running
    ensures Winding(s, Stop(e, s).s)
  {
    hide Stop, Inv, CpusBelow;
    StopWorks(e, s);
  }

  lemma FinishWinds(e: Env, s: State)
    requires Inv(e, s) && s.g.status == Running
    ensures Winding(s, Finish(e, s).s)
  {
    hide Stop, Unload, FreeAll, Holdings, Inv, Down, CpusBelow, Unheld;
    StopWinds(e, s);
    StopWorks(e, s);
    var s1 := Stop(e, s).s;
    if s1.g.status == Loaded {
      UnloadWorks(e, s1);
      UnloadCases(e, s1);
      if Unload(e, s1).s.g.status == Unloaded && Unload(e, s1).s.g.a.mods != [] {
        ResetKeepsEvents(Unload(e, s1).s);
      }
    }
  }

  lemma ResetKeepsEvents(s: State)
    ensures Reset(s).m.cpuEvents == s.m.cpuEvents
  {
    FreeAllFrame(s.m, Holdings(s.g.a), Driver);
  }

  lemma PerformWinds(e: Env, s: State, op: Op)
    requires Inv(e, s) && s.g.status == Running
    ensures Winding(s, Perform(e, s, op).s)
  {
    hide Stop, Finish, Dump, Inv;
    assert Down(s.g.started, s.g.started) == [];
    match op
    case StopOp => StopWinds(e, s);
    case FiniOp => FinishWinds(e, s);
    case DumpOp(drr, vcpuid) => DumpWinds(e, s, drr, vcpuid);
    case _ =>
  }

  lemma DumpWinds(e: Env, s: State, drr: bool, vcpuid: nat)
    requires Inv(e, s) && s.g.status == Running
    ensures Winding(s, Dump(e, s, drr, vcpuid).s)
  {
    hide Inv, CallVmm, Unheld;
    assert Down(s.g.started, s.g.started) == [];
    assert s.m.cpuEvents + [] == s.m.cpuEvents;
    DumpWorks(e, s, drr, vcpuid);
  }

  lemma WindsFromEntry(e: Env, s: State, s': State)
    ensures Winding(Enters(e, s), s') <==> Winding(s, s')
    ensures Enters(e, s).g == s.g
  {
    hide Down;
  }

  /** The VMM keeps running until the last call of the run. */
  predicate RunningThroughout(e: Env, s: State, ops: seq<Op>)
    decreases ops
  {
    ops != [] && s.g.status == Running
    && (|ops| == 1 || RunningThroughout(e, Step(e, s, ops[0]).s, ops[1..]))
  }

  /** However many stops are cut short by a refused vmcall, and whatever else is called in between:
      when the VMM ends stopped, loaded or unloaded, the whole run did what one uninterrupted stop
      does; when it ends running or corrupt, the part of that up to the processor it stopped at. */
  lemma {:induction false} StopIsResumable(e: Env, s: State, ops: seq<Op>)
    requires Inv(e, s) && RunningThroughout(e, s, ops)
    ensures Winding(s, Run(e, s, ops))
    decreases ops
  {
    hide Inv, Perform, Winding;
    EntersKeeps(e, s);
    PerformWinds(e, Enters(e, s), ops[0]);
    WindsFromEntry(e, s, Step(e, s, ops[0]).s);
    StepWorks(e, s, ops[0]);
    var s1 := Step(e, s, ops[0]).s;
    if |ops| == 1 {
      assert Run(e, s1, ops[1..]) == s1;
    } else {
      StopIsResumable(e, s1, ops[1..]);
      WindingCompose(s, s1, Run(e, s1, ops[1..]));
    }
  }

  lemma WindingCompose(s: State, s1: State, s2: State)
    requires Winding(s, s1) && s1.g.status == Running && Winding(s1, s2)
    ensures Winding(s, s2)
  {
    hide Down;
    var to := if s2.g.status == Running || s2.g.status == Corrupt then s2.g.started else 0;
    DownSplit(s.g.started, s1.g.started, to);
    var events := s.m.cpuEvents + (Down(s.g.started, s1.g.started) + Down(s1.g.started, to));
    assert s1.m.cpuEvents + Down(s1.g.started, to) == events;
  }

  /** A refused STOP can be tried again: the VMM still runs, on the processors not yet stopped, and a stop
      whose steps all get through completes what the first one began. */
  lemma RefusedStopResumes(e: Env, s: State)
    requires Inv(e, s) && s.g.status == Running && StopEndOf(e, s.g.a, s.m, s.g.started).NotStopped?
    ensures
      var k := StopEndOf(e, s.g.a, s.m, s.g.started).k;
      Stop(e, s).ret == VmmStopFailed && Stop(e, s).s.g == s.g.(started := k + 1)
    ensures
      var s1 := Enters(e, Stop(e, s).s);
      StopEndOf(e, s1.g.a, s1.m, s1.g.started).Through? ==>
        && Stop(e, s1).ret == Success && Stop(e, s1).s.g == s.g.(status := Loaded, started := 0)
        && Stop(e, s1).s.m.cpuEvents == s.m.cpuEvents + Down(s.g.started, 0)
  {
    hide Stop, StopEndOf, Inv, CpusBelow, Down, Unheld;
    StopEnds(e, s);
    StopWorks(e, s);
    EntersKeeps(e, Stop(e, s).s);
    var s1 := Enters(e, Stop(e, s).s);
    StopEnds(e, s1);
    DownSplit(s.g.started, s1.g.started, 0);
    assert s1.m.cpuEvents + Down(s1.g.started, 0)
        == s.m.cpuEvents + (Down(s.g.started, s1.g.started) + Down(s1.g.started, 0));
  }

  // ---- Which processors run the VMM ----------------------------------------------------------

  lemma {:induction false} StartLoopCount(e: Env, s: State, k: CpuCount, n: CpuCount)
    requires forall t :: e.answers(t).cpus == n
    requires k <= n && s.g.started == k && StartLoop(e, s, k).ret == Success
    ensures StartLoop(e, s, k).s.g.started == n
    decreases n - k
  {
    hide StartOne;
    if k >= n {
    } else {
      StartLoopCount(e, StartOne(e, s.(m := NumCpus(e, s.m).0), k).s, k + 1, n);
    }
  }

  /** With n processors throughout, a successful start runs the VMM on exactly these. */
  lemma StartLaunchesAll(e: Env, s: State, n: CpuCount)
    requires Inv(e, s) && s.g.status == Loaded && Start(e, s).ret == Success
    requires forall t :: e.answers(t).cpus == n
    ensures Start(e, s).s.m.launched == CpusBelow(n)
    ensures Start(e, s).s.g.started == n
    ensures Start(e, s).s.g.status == StatusAfter(n)
    ensures Start(e, s).s.m.cpuEvents == s.m.cpuEvents + Up(0, n)
  {
    hide StartLoop, Inv, CpusBelow, Up;
    var j := StartWorks(e, s);
    StartLoopCount(e, s.(g := s.g.(started := 0)), 0, n);
  }

  // ---- Corruption ----------------------------------------------------------------------------

  /** A corrupt VMM stays corrupt whatever is called; nothing is freed, no pointer changes and no
      processor is asked for anything. */
  lemma {:induction false} CorruptIsAbsorbing(e: Env, s: State, ops: seq<Op>)
    requires s.g.status == Corrupt
    ensures Run(e, s, ops).g == s.g
    ensures Run(e, s, ops).m.mem == s.m.mem && Run(e, s, ops).m.launched == s.m.launched
    ensures Run(e, s, ops).m.cpuEvents == s.m.cpuEvents
    decreases ops
  {
    if ops == [] {
    } else {
      CorruptStep(e, s, ops[0]);
      CorruptIsAbsorbing(e, Step(e, s, ops[0]).s, ops[1..]);
    }
  }

  lemma CorruptStep(e: Env, s: State, op: Op)
    requires s.g.status == Corrupt
    ensures Step(e, s, op).s.g == s.g
    ensures Step(e, s, op).s.m.mem == s.m.mem && Step(e, s, op).s.m.launched == s.m.launched
    ensures Step(e, s, op).s.m.cpuEvents == s.m.cpuEvents
  {
    hide StopLoop, StartLoop, Prepare, AnnounceAll, FreeAll, ContextOf;
  }

  // ---- Fini ----------------------------------------------------------------------------------

  /** common_fini never leaves the VMM loaded. It reports corruption exactly when there is one,
      leaves the VMM running exactly when the first step of the stop that fails is the answer to a STOP
      vmcall, and otherwise ends with the driver holding nothing. */
  lemma FiniOutcome(e: Env, s: State)
    requires Inv(e, s)
    ensures Finish(e, s).s.g.status != Loaded
    ensures Finish(e, s).ret == (if Finish(e, s).s.g.status == Corrupt then VmmCorrupted else Success)
    ensures Finish(e, s).s.g.status == Running <==> s.g.status == Running && Stop(e, s).ret == VmmStopFailed
    ensures Finish(e, s).s.g.status == Running
       <==> s.g.status == Running && StopEndOf(e, s.g.a, s.m, s.g.started).NotStopped?
    ensures Finish(e, s).s.g.status == Unloaded ==>
              Held(Finish(e, s).s.g.a) == multiset{} && Finish(e, s).s.g.a.mods == []
  {
    hide Stop, Unload, FreeAll, Holdings, Inv, Unheld, Held, Sound, Down, CpusBelow, StopEndOf;
    StopWorks(e, s);
    if s.g.status == Running {
      StopEnds(e, s);
    }
    var s1 := if s.g.status == Running then Stop(e, s).s else s;
    UnloadWorks(e, s1);
    if s1.g.status == Loaded {
      UnloadCases(e, s1);
    }
    var s2 := if s1.g.status == Loaded then Unload(e, s1).s else s1;
    if s2.g.status == Unloaded {
      InvIsSound(e, s2);
      ResetWorks(e, s2);
      if s2.g.a.mods == [] {
        NothingAdded(e, s2);
      }
    }
  }

  lemma NothingAdded(e: Env, s: State)
    requires Inv(e, s) && s.g.status == Unloaded && s.g.a.mods == []
    ensures Held(s.g.a) == multiset{}
  {
  }

  // ---- Round trip ----------------------------------------------------------------------------

  /** Every call of the run returns BF_SUCCESS. */
  predicate AllSucceed(e: Env, s: State, ops: seq<Op>)
    decreases ops
  {
    ops == [] || (Step(e, s, ops[0]).ret == Success && AllSucceed(e, Step(e, s, ops[0]).s, ops[1..]))
  }

  function Adds(files: seq<(nat, nat)>): seq<Op> {
    if files == [] then [] else [AddOp(files[0].0, files[0].1)] + Adds(files[1..])
  }

  lemma {:induction false} AddsRun(e: Env, s: State, files: seq<(nat, nat)>, tail: seq<Op>) returns (s1: State)
    requires Inv(e, s) && s.g.status == Unloaded && s.g.a.stack == 0
    requires AllSucceed(e, s, Adds(files) + tail)
    ensures Inv(e, s1) && s1.m.cpuEvents == s.m.cpuEvents && s1.g.status == Unloaded && s1.g.a.stack == 0
    ensures Unheld(s1) == Unheld(s)
    ensures AllSucceed(e, s1, tail) && Run(e, s, Adds(files) + tail) == Run(e, s1, tail)
    decreases files
  {
    if files == [] {
      assert Adds(files) + tail == tail;
      s1 := s;
    } else {
      var op := AddOp(files[0].0, files[0].1);
      assert Adds(files) + tail == [op] + (Adds(files[1..]) + tail);
      assert ([op] + (Adds(files[1..]) + tail))[1..] == Adds(files[1..]) + tail;
      AddStep(e, s, files[0].0, files[0].1);
      s1 := AddsRun(e, Step(e, s, op).s, files[1..], tail);
    }
  }

  lemma AddStep(e: Env, s: State, file: nat, size: nat)
    requires Inv(e, s) && s.g.status == Unloaded && s.g.a.stack == 0
    ensures Inv(e, Step(e, s, AddOp(file, size)).s)
    ensures Unheld(Step(e, s, AddOp(file, size)).s) == Unheld(s)
    ensures Step(e, s, AddOp(file, size)).s.m.cpuEvents == s.m.cpuEvents
    ensures Step(e, s, AddOp(file, size)).s.g.status == Unloaded
    ensures Step(e, s, AddOp(file, size)).s.g.a.stack == 0
  {
    hide Inv, Unheld;
    EntersKeeps(e, s);
    AddWorks(e, Enters(e, s), file, size);
  }

  function FilesOf(files: seq<(nat, nat)>): (r: seq<Block>)
    ensures |r| == |files|
  {
    seq(|files|, i requires 0 <= i < |files| => Block(files[i].0, files[i].1, Rw))
  }

  lemma {:induction false} AddsSucceed(e: Env, s: State, files: seq<(nat, nat)>)
    requires s.g.status == Unloaded && |s.g.a.mods| + |files| <= MAX_NUM_MODULES
    requires forall f | f in files :: f.0 != 0 && f.1 != 0
    ensures AllSucceed(e, s, Adds(files))
    ensures Files(Run(e, s, Adds(files)).g.a.mods) == Files(s.g.a.mods) + FilesOf(files)
    ensures Run(e, s, Adds(files)).g == s.g.(a := s.g.a.(mods := Run(e, s, Adds(files)).g.a.mods))
    decreases files
  {
    hide Files, FilesOf;
    if files == [] {
      NoFiles();
    } else {
      assert files[0] in files;
      AddEnds(Enters(e, s), files[0].0, files[0].1);
      var s1 := Step(e, s, AddOp(files[0].0, files[0].1)).s;
      AddsSucceed(e, s1, files[1..]);
      assert Adds(files)[1..] == Adds(files[1..]);
      FilesOfCons(files);
      assert Files(s1.g.a.mods) + FilesOf(files[1..]) == Files(s.g.a.mods) + FilesOf(files);
    }
  }

  lemma NoFiles()
    ensures FilesOf([]) == []
  {
  }

  lemma FilesOfCons(files: seq<(nat, nat)>)
    requires files != []
    ensures FilesOf(files) == [Block(files[0].0, files[0].1, Rw)] + FilesOf(files[1..])
  {
  }

  /** From boot, any list of at most MAX_NUM_MODULES files with an address and a size is added, every call
      returning BF_SUCCESS, and the module table holds exactly these files in this order. */
  lemma AllAdded(e: Env, cpu: nat, files: seq<(nat, nat)>)
    requires |files| <= MAX_NUM_MODULES && forall f | f in files :: f.0 != 0 && f.1 != 0
    ensures AllSucceed(e, Boot(cpu), Adds(files))
    ensures Files(Run(e, Boot(cpu), Adds(files)).g.a.mods) == FilesOf(files)
  {
    hide AllSucceed, Run, FilesOf;
    AddsSucceed(e, Boot(cpu), files);
    assert Files([]) == [];
  }

  /** Add any number of modules, load, start, stop and unload: when every call succeeds the driver
      is back where it started, the memory in use is what it was, and the processors have been
      through a start and its mirror image. */
  lemma RoundTrip(e: Env, s: State, files: seq<(nat, nat)>) returns (n: nat)
    requires Inv(e, s) && Pristine(s.g)
    requires AllSucceed(e, s, Adds(files) + [LoadOp, StartOp, StopOp, UnloadOp])
    ensures Pristine(Run(e, s, Adds(files) + [LoadOp, StartOp, StopOp, UnloadOp]).g)
    ensures Run(e, s, Adds(files) + [LoadOp, StartOp, StopOp, UnloadOp]).m.mem.live == s.m.mem.live
    ensures Run(e, s, Adds(files) + [LoadOp, StartOp, StopOp, UnloadOp]).m.launched == {}
    ensures Run(e, s, Adds(files) + [LoadOp, StartOp, StopOp, UnloadOp]).m.cpuEvents
         == s.m.cpuEvents + Up(0, n) + Mirror(Up(0, n))
  {
    hide Inv, Step, Up, Mirror, Run, AllSucceed, Unheld;
    var tail := [LoadOp, StartOp, StopOp, UnloadOp];
    var s1 := AddsRun(e, s, files, tail);
    PristineHoldsNothing(e, s);
    n := LifeCycle(e, s1);
  }

  lemma LifeCycle(e: Env, s: State) returns (n: nat)
    requires Inv(e, s) && s.g.status == Unloaded && s.g.a.stack == 0
    requires AllSucceed(e, s, [LoadOp, StartOp, StopOp, UnloadOp])
    ensures Pristine(Run(e, s, [LoadOp, StartOp, StopOp, UnloadOp]).g)
    ensures Run(e, s, [LoadOp, StartOp, StopOp, UnloadOp]).m.mem.live == Unheld(s)
    ensures Run(e, s, [LoadOp, StartOp, StopOp, UnloadOp]).m.launched == {}
    ensures Run(e, s, [LoadOp, StartOp, StopOp, UnloadOp]).m.cpuEvents
         == s.m.cpuEvents + Up(0, n) + Mirror(Up(0, n))
  {
    hide Load, Start, Stop, Unload, Inv, Up, Down, Mirror, Run, AllSucceed, Unheld, SameHoldings, CpusBelow;
    FourSteps(e, s, LoadOp, StartOp, StopOp, UnloadOp);
    EntersKeeps(e, s);
    var s1 := Enters(e, s);
    LoadWorks(e, s1);
    LoadSucceeds(e, s1);
    EntersKeeps(e, Load(e, s1).s);
    var s2 := Enters(e, Load(e, s1).s);
    n := StartWorks(e, s2);
    EntersKeeps(e, Start(e, s2).s);
    var s3 := Enters(e, Start(e, s2).s);
    StopSucceeds(e, s3, n);
    EntersKeeps(e, Stop(e, s3).s);
    var s4 := Enters(e, Stop(e, s3).s);
    UnloadWorks(e, s4);
    UnloadSucceeds(e, s4);
    DownMirrorsUp(n);
  }

  // ---- When nothing is refused ---------------------------------------------------------------

  /** The outside never refuses anything: calls return success, processor switches work and every load
      finds an entry point. */
  ghost predicate Obliging(e: Env) {
    forall t ::
      && e.answers(t).code == 0 && e.answers(t).affinity >= 0 && e.answers(t).whoami >= 0
      && e.answers(t).enableAp && e.answers(t).entry != 0
  }

  lemma ObligingAt(e: Env, t: nat)
    requires Obliging(e)
    ensures
      && e.answers(t).code == 0 && e.answers(t).affinity >= 0 && e.answers(t).whoami >= 0
      && e.answers(t).enableAp && e.answers(t).entry != 0
  {
  }

  lemma {:induction false} StopObliged(e: Env, a: Assets, m: Machine, n: nat)
    requires Obliging(e) && a.entry != 0
    ensures StopEndOf(e, a, m, n).Through?
    decreases n
  {
    hide Obliging, CallVmm, RestoreAffinity;
    if n == 0 {
    } else {
      var m1 := SetAffinity(e, m, n - 1).0;
      var m2 := Vmcall(e, m1, VmcallStop).0;
      ObligingAt(e, m.now);
      ObligingAt(e, m1.now);
      ObligingAt(e, m2.now);
      ObligingAt(e, m2.now + 2);
      StopObliged(e, a, RestoreAffinity(e, CallVmm(e, a, m2, VmmFini(n - 1)).0, SetAffinity(e, m, n - 1).1), n - 1);
    }
  }

  lemma {:induction false} StartObliged(e: Env, a: Assets, m: Machine, k: CpuCount)
    requires Obliging(e) && a.entry != 0
    ensures StartEndOf(e, a, m, k).AllUp?
    decreases 0x8000_0000_0000_0000 - k
  {
    hide Obliging, CallVmm, RestoreAffinity;
    var (m0, n) := NumCpus(e, m);
    if k >= n {
    } else {
      var (m1, caller) := SetAffinity(e, m0, k);
      var m2 := CallVmm(e, a, m1, VmmInit(k)).0;
      ObligingAt(e, m0.now);
      ObligingAt(e, m1.now);
      ObligingAt(e, m1.now + 2);
      ObligingAt(e, m2.now);
      StartObliged(e, a, RestoreAffinity(e, Vmcall(e, m2, VmcallStart).0, caller), k + 1);
    }
  }

  lemma {:induction false} PagesObliged(e: Env, entry: nat, now: nat, n: nat)
    requires Obliging(e) && entry != 0
    ensures PagesAccepted(e, entry, now, n)
    decreases n
  {
    hide Obliging;
    if n == 0 {
    } else {
      ObligingAt(e, now);
      ObligingAt(e, now + 2);
      PagesObliged(e, entry, now + 3, n - 1);
    }
  }

  lemma {:induction false} SegmentsObliged(e: Env, entry: nat, now: nat, ranges: seq<Range>)
    requires Obliging(e) && entry != 0
    ensures SegmentsAccepted(e, entry, now, ranges)
    decreases ranges
  {
    hide Obliging, PageCount;
    if ranges == [] {
    } else {
      var count := PageCount(ranges[0].lo, ranges[0].hi);
      ObligingAt(e, now);
      PagesObliged(e, entry, now + 1, count);
      SegmentsObliged(e, entry, now + 1 + 3 * count, ranges[1..]);
    }
  }

  lemma LoadObliged(e: Env, s: State)
    requires Obliging(e) && s.g.status == Unloaded && s.g.a.mods != [] && PrepareRet(e, s.m) == Success
    ensures Load(e, s).ret == Success && Load(e, s).s.g.status == Loaded && Load(e, s).s.g.a.entry != 0
  {
    hide Obliging, Prepare, Load, PrepareRet, PageCount, AllRanges, Calls, SegmentsAccepted, PagesAccepted;
    LoadEnds(e, s);
    PrepareEnds(e, s);
    ObligingAt(e, s.m.now + 3);
    var a := Prepare(e, s).s.g.a;
    SegmentsObliged(e, a.entry, s.m.now + 7, AllRanges(a.mods));
    PagesObliged(e, a.entry, s.m.now + 7 + Calls(AllRanges(a.mods)), PageCount(a.tls, a.tls + a.tlsSize));
  }

  lemma CycleObliged(e: Env, s: State)
    requires Obliging(e) && Inv(e, s) && s.g.status == Unloaded && s.g.a.mods != []
    requires PrepareRet(e, s.m) == Success
    ensures AllSucceed(e, s, [LoadOp, StartOp, StopOp, UnloadOp])
  {
    hide Obliging, Load, Start, Stop, Unload, Inv, PrepareRet, StartEndOf, StopEndOf, Unheld, Up, Down, CpusBelow;
    EntersKeeps(e, s);
    var s1 := Enters(e, s);
    SamePlaces(e, s);
    LoadObliged(e, s1);
    LoadWorks(e, s1);
    EntersKeeps(e, Load(e, s1).s);
    var s2 := Enters(e, Load(e, s1).s);
    StartObliged(e, s2.g.a, s2.m, 0);
    StartEnds(e, s2);
    var j := StartWorks(e, s2);
    EntersKeeps(e, Start(e, s2).s);
    var s3 := Enters(e, Start(e, s2).s);
    StopAfterStart(e, s3);
    EntersKeeps(e, Stop(e, s3).s);
    var s4 := Enters(e, Stop(e, s3).s);
    ObligingAt(e, s4.m.now);
    ObligingAt(e, s4.m.now + 2);
    UnloadEnds(e, s4);
    FourSucceed(e, s);
  }

  lemma SamePlaces(e: Env, s: State)
    ensures PrepareRet(e, Enters(e, s).m) == PrepareRet(e, s.m)
  {
    hide CanPlace;
  }

  lemma StopAfterStart(e: Env, s: State)
    requires Obliging(e) && Inv(e, s) && (s.g.status == Running || s.g.status == Loaded) && s.g.a.entry != 0
    ensures Stop(e, s).ret == Success && Stop(e, s).s.g.status == Loaded && Stop(e, s).s.g.a == s.g.a
    ensures Inv(e, Stop(e, s).s)
  {
    hide Obliging, StopLoop, Inv, StopEndOf, Unheld, Down, CpusBelow;
    StopWorks(e, s);
    if s.g.status == Running {
      StopObliged(e, s.g.a, s.m, s.g.started);
      StopEnds(e, s);
    }
  }

  lemma FourSucceed(e: Env, s: State)
    requires
      var o1 := Step(e, s, LoadOp);
      var o2 := Step(e, o1.s, StartOp);
      var o3 := Step(e, o2.s, StopOp);
      var o4 := Step(e, o3.s, UnloadOp);
      o1.ret == o2.ret == o3.ret == o4.ret == Success
    ensures AllSucceed(e, s, [LoadOp, StartOp, StopOp, UnloadOp])
  {
    hide Step;
    var ops := [LoadOp, StartOp, StopOp, UnloadOp];
    var s1 := Step(e, s, LoadOp).s;
    var s2 := Step(e, s1, StartOp).s;
    var s3 := Step(e, s2, StopOp).s;
    var s4 := Step(e, s3, UnloadOp).s;
    assert ops[1..] == [StartOp, StopOp, UnloadOp] && ops[1..][1..] == [StopOp, UnloadOp];
    assert [StopOp, UnloadOp][1..] == [UnloadOp] && [UnloadOp][1..] == [];
    assert AllSucceed(e, s4, []);
    assert AllSucceed(e, s3, [UnloadOp]);
    assert AllSucceed(e, s2, [StopOp, UnloadOp]);
    assert AllSucceed(e, s1, [StartOp, StopOp, UnloadOp]);
  }

  lemma {:induction false} AllSucceedConcat(e: Env, s: State, a: seq<Op>, b: seq<Op>)
    requires AllSucceed(e, s, a) && AllSucceed(e, Run(e, s, a), b)
    ensures AllSucceed(e, s, a + b)
    decreases a
  {
    hide Step;
    if a == [] {
      assert a + b == b;
    } else {
      assert (a + b)[1..] == a[1..] + b;
      AllSucceedConcat(e, Step(e, s, a[0]).s, a[1..], b);
    }
  }

  lemma {:induction false} AddsTakeNoTime(e: Env, s: State, files: seq<(nat, nat)>)
    ensures Run(e, s, Adds(files)).m.now == s.m.now && Run(e, s, Adds(files)).m.mem == s.m.mem
    decreases files
  {
    if files == [] {
    } else {
      assert Adds(files)[1..] == Adds(files[1..]);
      AddsTakeNoTime(e, Step(e, s, AddOp(files[0].0, files[0].1)).s, files[1..]);
    }
  }

  /** From boot, when nothing is refused and there is memory for the stack and the TLS block, every call of
      a life cycle with any modules that fit returns BF_SUCCESS. */
  lemma LifeCycleSucceeds(e: Env, cpu: nat, files: seq<(nat, nat)>)
    requires Obliging(e) && PrepareRet(e, Boot(cpu).m) == Success
    requires 0 < |files| <= MAX_NUM_MODULES && forall f | f in files :: f.0 != 0 && f.1 != 0
    ensures AllSucceed(e, Boot(cpu), Adds(files) + [LoadOp, StartOp, StopOp, UnloadOp])
  {
    hide Obliging, Inv, Run, AllSucceed, Unheld, PrepareRet, FilesOf;
    var s := Run(e, Boot(cpu), Adds(files));
    BootIsSafe(e, cpu);
    EveryRunIsSafe(e, Boot(cpu), Adds(files));
    AllAdded(e, cpu, files);
    AddsSucceed(e, Boot(cpu), files);
    AddsTakeNoTime(e, Boot(cpu), files);
    SameRet(e, Boot(cpu).m, s.m);
    assert |FilesOf(files)| == |files|;
    CycleObliged(e, s);
    AllSucceedConcat(e, Boot(cpu), Adds(files), [LoadOp, StartOp, StopOp, UnloadOp]);
  }

  lemma SameRet(e: Env, m: Machine, m': Machine)
    requires m'.now == m.now && m'.mem == m.mem
    ensures PrepareRet(e, m') == PrepareRet(e, m)
  {
    hide CanPlace;
  }

  lemma PristineHoldsNothing(e: Env, s: State)
    requires Inv(e, s) && Pristine(s.g)
    ensures Unheld(s) == s.m.mem.live
  {
  }

  lemma FourSteps(e: Env, s: State, a: Op, b: Op, c: Op, d: Op)
    requires AllSucceed(e, s, [a, b, c, d])
    ensures
      var o1 := Step(e, s, a);
      var o2 := Step(e, o1.s, b);
      var o3 := Step(e, o2.s, c);
      var o4 := Step(e, o3.s, d);
      && o1.ret == o2.ret == o3.ret == o4.ret == Success
      && Run(e, s, [a, b, c, d]) == o4.s
  {
    hide Step;
    assert [a, b, c, d][1..] == [b, c, d] && [b, c, d][1..] == [c, d] && [c, d][1..] == [d] && [d][1..] == [];
    var s1 := Step(e, s, a).s;
    var s2 := Step(e, s1, b).s;
    var s3 := Step(e, s2, c).s;
    assert AllSucceed(e, s1, [b, c, d]);
    assert AllSucceed(e, s2, [c, d]);
    assert AllSucceed(e, s3, [d]);
    assert Run(e, s3, [d]) == Step(e, s3, d).s;
    assert Run(e, s2, [c, d]) == Step(e, s3, d).s;
    assert Run(e, s1, [b, c, d]) == Step(e, s3, d).s;
  }

  lemma LoadSucceeds(e: Env, s: State)
    requires s.g.status == Unloaded && Load(e, s).ret == Success
    ensures Load(e, s).s.g.status == Loaded
  {
    hide Prepare, AnnounceModules, AnnounceRange, Unload;
  }

  lemma StopSucceeds(e: Env, s: State, n: nat)
    requires Inv(e, s) && StartedUpTo(s, n) && Stop(e, s).ret == Success
    ensures Inv(e, Stop(e, s).s) && Unheld(Stop(e, s).s) == Unheld(s)
    ensures Stop(e, s).s.g.status == Loaded && Stop(e, s).s.m.launched == {}
    ensures Stop(e, s).s.m.cpuEvents == s.m.cpuEvents + Down(n, 0)
  {
    hide Inv, Unheld;
    StopWorks(e, s);
  }

  lemma UnloadSucceeds(e: Env, s: State)
    requires s.g.status == Loaded && Unload(e, s).ret == Success
    ensures Pristine(Unload(e, s).s.g) && Unload(e, s).s.m.launched == s.m.launched
  {
    hide CallVmm, FreeAll, Holdings;
    CallVmmFrame(e, s.g.a, s.m, Fini);
    FreeAllFrame(CallVmm(e, s.g.a, s.m, Fini).0, Holdings(s.g.a), Driver);
  }
}
