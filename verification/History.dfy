/** The protocol each processor goes through, over whole runs. */
module History {
  import opened CommonModel
  import opened Invariant
  import opened Lifecycle
  import opened Machine
  import opened Safety

  // ---- The protocol --------------------------------------------------------------------------

  /** Where the successful requests so far have left a processor. `Confused` marks a request out of
      order. */
  datatype Phase = Off | Primed | Inside | Halted | Confused

  /** INIT, perhaps repeated, then START unless it was refused, then STOP, then FINI. */
  function After(p: Phase, ev: CpuEvent): Phase {
    match ev
    case InitCpu(_) => if p.Off? || p.Primed? then Primed else Confused
    case StartCpu(_) => if p.Primed? then Inside else Confused
    case StopCpu(_) => if p.Primed? || p.Inside? then Halted else Confused
    case FiniCpu(_) => if p.Halted? then Off else Confused
  }

  function PhaseOf(events: seq<CpuEvent>, k: nat): Phase {
    if events == [] then Off
    else
      var n := |events| - 1;
      var p := PhaseOf(events[..n], k);
      if events[n].cpu == k then After(p, events[n]) else p
  }

  lemma PhaseSnoc(events: seq<CpuEvent>, ev: CpuEvent, k: nat)
    ensures PhaseOf(events + [ev], k)
         == if ev.cpu == k then After(PhaseOf(events, k), ev) else PhaseOf(events, k)
  {
    assert (events + [ev])[..|events|] == events;
  }

  lemma PhasePair(events: seq<CpuEvent>, a: CpuEvent, b: CpuEvent, k: nat)
    requires a.cpu == b.cpu
    ensures PhaseOf(events + [a, b], k)
         == if a.cpu == k then After(After(PhaseOf(events, k), a), b) else PhaseOf(events, k)
  {
    PhaseSnoc(events, a, k);
    PhaseSnoc(events + [a], b, k);
    assert events + [a] + [b] == events + [a, b];
  }

  lemma {:induction false} PhaseUp(events: seq<CpuEvent>, from: nat, end: nat, k: nat)
    requires from <= k < end ==> PhaseOf(events, k).Off? || PhaseOf(events, k).Primed?
    ensures PhaseOf(events + Up(from, end), k) == if from <= k < end then Inside else PhaseOf(events, k)
    decreases end - from
  {
    hide PhaseOf;
    if end <= from {
      assert events + Up(from, end) == events;
    } else {
      var first := [InitCpu(from), StartCpu(from)];
      PhasePair(events, first[0], first[1], k);
      PhaseUp(events + first, from + 1, end, k);
      assert events + first + Up(from + 1, end) == events + Up(from, end);
    }
  }

  lemma {:induction false} PhaseDown(events: seq<CpuEvent>, from: nat, to: nat, k: nat)
    requires to <= k < from ==> PhaseOf(events, k).Primed? || PhaseOf(events, k).Inside?
    ensures PhaseOf(events + Down(from, to), k) == if to <= k < from then Off else PhaseOf(events, k)
    decreases from
  {
    hide PhaseOf;
    if from <= to {
      assert events + Down(from, to) == events;
    } else {
      var first := [StopCpu(from - 1), FiniCpu(from - 1)];
      PhasePair(events, first[0], first[1], k);
      PhaseDown(events + first, from - 1, to, k);
      assert events + first + Down(from - 1, to) == events + Down(from, to);
    }
  }

  // ---- Where each processor may be -----------------------------------------------------------

  predicate Allowed(g: Globals, k: nat, p: Phase) {
    match g.status
    case Running => if k + 1 < g.started then p.Inside?
                    else if k + 1 == g.started then p.Inside? || p.Primed?
                    else p.Off?
    case Corrupt => if k + 1 < g.started then p.Inside?
                    else if k + 1 == g.started then !p.Confused?
                    else p.Off? || (k == 0 && p.Primed?)
    case _ => p.Off? || (k == 0 && p.Primed?)
  }

  /** Processor k is in order: where the driver thinks it is, and inside the VMM exactly when its
      last request was START. */
  predicate Orderly(s: State, k: nat) {
    && Allowed(s.g, k, PhaseOf(s.m.cpuEvents, k))
    && (k in s.m.launched <==> PhaseOf(s.m.cpuEvents, k).Inside?)
  }

  lemma BelowHolds(n: int, k: nat)
    ensures k in CpusBelow(n) <==> k < n
    ensures k in CpusBelow(n - 1) <==> k < n - 1
  {
    CpusBelowHolds(n, k);
    CpusBelowHolds(n - 1, k);
  }

  /** A stop that broke down; `p` is where processor k was before. */
  lemma BrokenOrderly(s: State, s': State, n: nat, launched: set<nat>, k: nat)
    requires Broken(s, s', n, launched) && s'.g.status == Corrupt
    requires if k + 1 < n then PhaseOf(s.m.cpuEvents, k).Inside?
             else if k + 1 == n then PhaseOf(s.m.cpuEvents, k).Inside? || PhaseOf(s.m.cpuEvents, k).Primed?
             else PhaseOf(s.m.cpuEvents, k).Off?
    requires k in launched <==> PhaseOf(s.m.cpuEvents, k).Inside?
    ensures Orderly(s', k)
  {
    hide PhaseOf, CpusBelow, Down;
    var last := s'.g.started;
    var events := s.m.cpuEvents + Down(n, last);
    BelowHolds(last, k);
    PhaseDown(s.m.cpuEvents, n, last, k);
    PhaseSnoc(events, StopCpu(last - 1), k);
  }

  lemma StopOrderly(e: Env, s: State, k: nat)
    requires Inv(e, s) && Orderly(s, k)
    ensures Orderly(Stop(e, s).s, k)
  {
    hide PhaseOf, CpusBelow, Down, StopLoop, Inv, Broken, Unheld;
    if s.g.status == Running {
      StopWorks(e, s);
      var s' := Stop(e, s).s;
      match s'.g.status
      case Corrupt => BrokenOrderly(s, s', s.g.started, s.m.launched, k);
      case _ =>
        BelowHolds(s'.g.started, k);
        PhaseDown(s.m.cpuEvents, s.g.started, s'.g.started, k);
    }
  }

  lemma RollbackOrderly(s: State, s': State, n: nat, k: nat)
    requires RolledBack(s, s', n) && PhaseOf(s.m.cpuEvents, k) == if k < n then Inside else Off
    ensures Orderly(s', k)
  {
    hide PhaseOf, CpusBelow, Down, Broken;
    BelowHolds(n, k);
    match s'.g.status
    case Corrupt => BrokenOrderly(s, s', n, CpusBelow(n), k);
    case _ =>
      BelowHolds(s'.g.started, k);
      PhaseDown(s.m.cpuEvents, n, s'.g.started, k);
  }

  /** The rollback of a start that got nowhere. */
  lemma NothingRolledBack(s: State, s': State, k: nat)
    requires RolledBack(s, s', 0) && (PhaseOf(s.m.cpuEvents, k).Off? || (k == 0 && PhaseOf(s.m.cpuEvents, k).Primed?))
    ensures Orderly(s', k)
  {
    assert s.m.cpuEvents + Down(0, 0) == s.m.cpuEvents;
  }

  lemma StartOrderly(e: Env, s: State, k: nat)
    requires Inv(e, s) && Orderly(s, k)
    ensures Orderly(Start(e, s).s, k)
  {
    hide PhaseOf, CpusBelow, Up, Down, Start, Inv, RolledBack, Unheld;
    if s.g.status == Loaded {
      var j := StartWorks(e, s);
      StartedOrderly(s, Start(e, s), j, k);
    } else {
      WrongState(e, s);
    }
  }

  lemma StartedOrderly(s: State, o: Out, j: nat, k: nat)
    requires s.g.status == Loaded && Orderly(s, k) && StartOutcome(s, o, 0, j)
    ensures Orderly(o.s, k)
  {
    hide PhaseOf, CpusBelow, Up, Down, RolledBack;
    PhaseUp(s.m.cpuEvents, 0, j, k);
    BelowHolds(j, k);
    match o.ret
    case Success =>
    case VmmStartFailed => PhaseSnoc(s.m.cpuEvents + Up(0, j), InitCpu(j), k);
    case _ =>
      var s1 := s.(m := s.m.(cpuEvents := s.m.cpuEvents + Up(0, j)));
      if j > 0 {
        RollbackOrderly(s1, o.s, j, k);
      } else {
        NothingRolledBack(s1, o.s, k);
      }
  }

  lemma UnloadOrderly(e: Env, s: State, k: nat)
    requires Inv(e, s) && Orderly(s, k)
    ensures Orderly(Unload(e, s).s, k)
  {
    hide PhaseOf, CpusBelow, CallVmm, FreeAll, Holdings, Ready, SafeLog, Unheld, MemoryOk, Held;
    UnloadWorks(e, s);
    if s.g.status == Loaded {
      var m := CallVmm(e, s.g.a, s.m, Fini).0;
      CallVmmKeeps(e, s.g.a, s.m, Fini);
      FreeAllFrame(m, Holdings(s.g.a), Driver);
    } else {
      FreeAllFrame(s.m, Holdings(s.g.a), Driver);
    }
  }

  lemma FinishOrderly(e: Env, s: State, k: nat)
    requires Inv(e, s) && Orderly(s, k)
    ensures Orderly(Finish(e, s).s, k)
  {
    hide Stop, Unload, Inv, PhaseOf, CpusBelow, Down, Unheld, FreeAll, Holdings;
    StopOrderly(e, s, k);
    StopWorks(e, s);
    var s1 := if s.g.status == Running then Stop(e, s).s else s;
    UnloadOrderly(e, s1, k);
    var s2 := if s1.g.status == Loaded then Unload(e, s1).s else s1;
    FreeAllFrame(s2.m, Holdings(s2.g.a), Driver);
  }

  lemma LoadStatus(e: Env, s: State)
    requires s.g.status == Unloaded
    ensures Load(e, s).s.g.status == Unloaded || Load(e, s).s.g.status == Loaded
    ensures Load(e, s).s.g.started == s.g.started || Load(e, s).s.g.started == 0
  {
    hide CallVmm, Alloc, BfelfLoad, AnnounceModules, AnnounceRange, Holdings, FreeAll;
  }

  /** A load sends no per-processor request. */
  lemma LoadOrderly(e: Env, s: State, k: nat)
    requires Inv(e, s) && Orderly(s, k)
    ensures Orderly(Load(e, s).s, k)
  {
    hide Prepare, AnnounceAll, PhaseOf, CpusBelow, Unheld, SafeLog, MemoryOk, Held, Ready;
    if s.g.status == Unloaded {
      LoadWorks(e, s);
      LoadStatus(e, s);
    }
  }

  lemma DumpOrderly(e: Env, s: State, drr: bool, vcpuid: nat, k: nat)
    requires Inv(e, s) && Orderly(s, k)
    ensures Orderly(Dump(e, s, drr, vcpuid).s, k)
  {
    hide PhaseOf, CallVmm, Inv, Unheld;
    DumpWorks(e, s, drr, vcpuid);
    CallVmmFrame(e, s.g.a, s.m, GetDrr(vcpuid));
  }

  lemma PerformOrderly(e: Env, s: State, op: Op, k: nat)
    requires Inv(e, s) && Orderly(s, k)
    ensures Orderly(Perform(e, s, op).s, k)
  {
    hide Load, Unload, Start, Stop, Dump, Finish, Inv, PhaseOf;
    match op
    case AddOp(_, _) =>
    case LoadOp => LoadOrderly(e, s, k);
    case UnloadOp => UnloadOrderly(e, s, k);
    case StartOp => StartOrderly(e, s, k);
    case StopOp => StopOrderly(e, s, k);
    case DumpOp(drr, vcpuid) => DumpOrderly(e, s, drr, vcpuid, k);
    case FiniOp => FinishOrderly(e, s, k);
  }

  lemma {:induction false} RunOrderly(e: Env, s: State, ops: seq<Op>, k: nat)
    requires Inv(e, s) && Orderly(s, k)
    ensures Orderly(Run(e, s, ops), k)
    decreases ops
  {
    hide Perform, Inv, PhaseOf;
    if ops == [] {
    } else {
      StepWorks(e, s, ops[0]);
      EntersKeeps(e, s);
      PerformOrderly(e, Enters(e, s), ops[0], k);
      RunOrderly(e, Step(e, s, ops[0]).s, ops[1..], k);
    }
  }

  /** Over every run, and on every processor: no request is ever out of order, the last successful
      one is the one the driver's status and counter say it is, and the processor is inside the VMM
      exactly when that was START. */
  lemma EveryProcessorIsInOrder(e: Env, cpu: nat, ops: seq<Op>, k: nat)
    ensures Orderly(Run(e, Boot(cpu), ops), k)
    ensures !PhaseOf(Run(e, Boot(cpu), ops).m.cpuEvents, k).Confused?
  {
    hide Run, Inv, Unheld;
    BootIsSafe(e, cpu);
    RunOrderly(e, Boot(cpu), ops, k);
  }

  // ---- Nothing is done twice -----------------------------------------------------------------

  lemma {:induction false} PrefixInOrder(events: seq<CpuEvent>, n: nat, k: nat)
    requires n <= |events| && !PhaseOf(events, k).Confused?
    ensures !PhaseOf(events[..n], k).Confused?
    decreases |events|
  {
    if n < |events| {
      PrefixInOrder(events[..|events| - 1], n, k);
      assert events[..|events| - 1][..n] == events[..n];
    } else {
      assert events[..n] == events;
    }
  }

  /** How far a processor has come since its last INIT. */
  function Progress(p: Phase): nat {
    match p
    case Primed => 0
    case Inside => 1
    case Halted => 2
    case _ => 3
  }

  lemma PhaseStep(events: seq<CpuEvent>, n: nat, k: nat)
    requires n < |events|
    ensures PhaseOf(events[..n + 1], k)
         == if events[n].cpu == k then After(PhaseOf(events[..n], k), events[n]) else PhaseOf(events[..n], k)
  {
    PhaseSnoc(events[..n], events[n], k);
    assert events[..n + 1] == events[..n] + [events[n]];
  }

  /** Without another INIT a processor only moves on. */
  lemma {:induction false} OnlyForward(events: seq<CpuEvent>, i: nat, j: nat, k: nat)
    requires i <= j <= |events| && !PhaseOf(events, k).Confused?
    requires forall l | i <= l < j :: events[l] != InitCpu(k)
    ensures Progress(PhaseOf(events[..i], k)) <= Progress(PhaseOf(events[..j], k))
    decreases j
  {
    hide PhaseOf;
    if i >= j {
    } else {
      OnlyForward(events, i, j - 1, k);
      PrefixInOrder(events, j, k);
      PhaseStep(events, j - 1, k);
    }
  }

  /** Between two equal requests START, STOP or FINI that succeeded on a processor, that processor
      was initialised again, over any run. */
  lemma NothingTwice(e: Env, cpu: nat, ops: seq<Op>, i: nat, j: nat)
    requires i < j < |Run(e, Boot(cpu), ops).m.cpuEvents|
    requires Run(e, Boot(cpu), ops).m.cpuEvents[i] == Run(e, Boot(cpu), ops).m.cpuEvents[j]
    ensures exists l ::
      i <= l < j && Run(e, Boot(cpu), ops).m.cpuEvents[l] == InitCpu(Run(e, Boot(cpu), ops).m.cpuEvents[i].cpu)
  {
    hide Run, PhaseOf, Orderly;
    var events := Run(e, Boot(cpu), ops).m.cpuEvents;
    var k := events[i].cpu;
    EveryProcessorIsInOrder(e, cpu, ops, k);
    if forall l | i <= l < j :: events[l] != InitCpu(k) {
      PrefixInOrder(events, i + 1, k);
      PrefixInOrder(events, j + 1, k);
      PhaseStep(events, i, k);
      PhaseStep(events, j, k);
      OnlyForward(events, i + 1, j, k);
      assert false;
    }
  }
}
