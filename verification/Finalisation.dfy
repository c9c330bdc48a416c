/** INIT and FINI: when an initialised VMM loses the memory it lives in. */
module Finalisation {
  import opened CommonModel
  import opened EntryModel
  import opened Invariant
  import opened Lifecycle
  import opened Machine
  import opened Safety
  import opened Tables

  /** The driver is unloaded exactly when the VMM is not initialised. */
  predicate Tied(s: State) {
    s.g.status == Unloaded <==> !s.m.initialised
  }

  /** The books stay right, and nothing was pulled from under an initialised VMM. */
  predicate Calm(s: State, s': State) {
    Tied(s') && s'.m.mem.pulled == s.m.mem.pulled
  }

  /** A load that fails after the VMM accepted its INIT: a segment cannot be read, or a page is
      refused. */
  predicate Abandons(e: Env, s: State) {
    && s.g.status == Unloaded && s.g.a.mods != []
    && Prepare(e, s).ret == Success && AnnounceAll(e, Prepare(e, s).s).ret != Success
  }

  // ---- Reset and unload ----------------------------------------------------------------------

  lemma {:induction false} FreePulls(m: Machine, blocks: seq<Block>, owner: Owner)
    ensures FreeAll(m, blocks, owner).mem.pulled
         == m.mem.pulled + if owner.Driver? && m.initialised then |blocks| else 0
    ensures FreeAll(m, blocks, owner).initialised == m.initialised
    decreases blocks
  {
    if blocks == [] {
    } else {
      FreePulls(Free(m, blocks[0], owner), blocks[1..], owner);
    }
  }

  lemma UnloadPulls(e: Env, s: State)
    ensures
      var s' := Unload(e, s).s;
      s'.m.mem.pulled == s.m.mem.pulled
                         + if s.g.status == Unloaded && s.m.initialised then |Holdings(s.g.a)| else 0
    ensures s.g.status != Loaded ==> Unload(e, s).s.m.initialised == s.m.initialised
  {
    hide CallVmm, FreeAll, Holdings;
    match s.g.status
    case Unloaded => FreePulls(s.m, Holdings(s.g.a), Driver);
    case Loaded =>
      var m := CallVmm(e, s.g.a, s.m, Fini).0;
      CallVmmFrame(e, s.g.a, s.m, Fini);
      FreePulls(m, Holdings(s.g.a), Driver);
    case _ =>
  }

  lemma UnloadCalm(e: Env, s: State)
    requires Tied(s)
    ensures Calm(s, Unload(e, s).s)
  {
    hide Unload, FreeAll, Holdings;
    UnloadPulls(e, s);
    UnloadCases(e, s);
  }

  // ---- Load ----------------------------------------------------------------------------------

  /** INIT is the last thing that can fail before the memory is announced. */
  lemma PrepareInitialises(e: Env, s: State)
    ensures Prepare(e, s).s.m.initialised == (s.m.initialised || Prepare(e, s).ret == Success)
    ensures Prepare(e, s).s.m.mem.pulled == s.m.mem.pulled
    ensures Prepare(e, s).s.g.status == s.g.status
  {
    hide LoadImages, CallVmm, CanPlace, StackTop;
    var s1 := SetupStack(e, s).s;
    var s2 := SetupTls(e, s1).s;
    LoadImagesFrame(e, Tick(s2.m), s2.g.a.mods, e.answers(s2.m.now).images);
    var s3 := LoadElf(e, s2).s;
    CallVmmFrame(e, s3.g.a, s3.m, Init);
  }

  /** Announcing fails: on a page of a module everything is pulled from under the VMM, on a page of
      the TLS block everything stays, held by an unloaded driver. */
  lemma AnnounceAllPulls(e: Env, s: State)
    requires s.g.status == Unloaded && Ready(s.g.a, s.m.mem.live) && SafeLog(e, s.m.log) && s.m.initialised
    ensures
      var o := AnnounceAll(e, s);
      && o.s.m.initialised
      && if o.ret == Success then o.s.g.status == Loaded && o.s.m.mem.pulled == s.m.mem.pulled
         else o.s.g.status == Unloaded && (o.s.m.mem.pulled > s.m.mem.pulled || o.s == s.(m := o.s.m))
    ensures AnnounceAll(e, s).s.m.mem.pulled >= s.m.mem.pulled
  {
    hide AnnounceModules, AnnounceRange, Unload, FreeAll, Holdings, Ready, SafeLog;
    var a := s.g.a;
    AnnounceModulesKeeps(e, a, s.m, a.mods);
    var (m, ret) := AnnounceModules(e, a, s.m, a.mods);
    if ret != Success {
      UnloadPulls(e, s.(m := m));
      UnloadCases(e, s.(m := m));
      StackIsHeld(a, s.m.mem.live);
    } else {
      AnnounceRangeKeeps(e, a, m, a.tls, a.tls + a.tlsSize, RW);
    }
  }

  lemma StackIsHeld(a: Assets, live: multiset<Block>)
    ensures Ready(a, live) || a.stack != 0 ==> Holdings(a) != []
  {
  }

  /** A load that does not abandon the VMM leaves the books right; one that does pulls its memory or
      leaves an unloaded driver that still holds it. */
  lemma LoadTies(e: Env, s: State)
    requires Inv(e, s)
    ensures Tied(s) && !Abandons(e, s) ==> Calm(s, Load(e, s).s)
    ensures Abandons(e, s) ==>
              var o := Load(e, s);
              && o.ret != Success && o.s.g.status == Unloaded && o.s.m.initialised
              && (o.s.m.mem.pulled > s.m.mem.pulled || o.s.g.a.stack != 0)
    ensures Load(e, s).s.m.mem.pulled >= s.m.mem.pulled
  {
    hide Prepare, AnnounceAll, Unload, Sound, Inv, Unheld, SafeLog, MemoryOk, Held, Holdings, FreeAll;
    if s.g.status == Unloaded && s.g.a.mods != [] {
      InvIsSound(e, s);
      PrepareWorks(e, s);
      PrepareInitialises(e, s);
      var o := Prepare(e, s);
      if o.ret != Success {
        UnloadPulls(e, o.s);
        UnloadCases(e, o.s);
      } else {
        SoundLog(e, o.s);
        AnnounceAllPulls(e, o.s);
      }
    }
  }

  // ---- The other calls -----------------------------------------------------------------------

  lemma StopTies(e: Env, s: State)
    requires Inv(e, s)
    ensures Tied(s) ==> Calm(s, Stop(e, s).s)
    ensures Stop(e, s).s.m.mem == s.m.mem
  {
    hide Stop, Inv, CpusBelow, Unheld, Down, Broken;
    WrongState(e, s);
    StopWorks(e, s);
  }

  lemma StartTies(e: Env, s: State)
    requires Inv(e, s)
    ensures Tied(s) ==> Calm(s, Start(e, s).s)
    ensures Start(e, s).s.m.mem == s.m.mem
  {
    hide Start, Inv, CpusBelow, Unheld, Up, Down, Broken;
    WrongState(e, s);
    var j := StartWorks(e, s);
  }

  lemma DumpTies(e: Env, s: State, drr: bool, vcpuid: nat)
    ensures Tied(s) ==> Calm(s, Dump(e, s, drr, vcpuid).s)
    ensures Dump(e, s, drr, vcpuid).s.m.mem == s.m.mem
  {
    hide CallVmm;
    CallVmmFrame(e, s.g.a, s.m, GetDrr(vcpuid));
  }

  lemma ResetTies(s: State)
    requires s.g.status == Unloaded
    ensures Tied(s) ==> Calm(s, Reset(s))
    ensures Reset(s).m.mem.pulled >= s.m.mem.pulled
  {
    hide FreeAll, Holdings;
    FreePulls(s.m, Holdings(s.g.a), Driver);
  }

  lemma FinishTies(e: Env, s: State)
    requires Inv(e, s)
    ensures Tied(s) ==> Calm(s, Finish(e, s).s)
    ensures Finish(e, s).s.m.mem.pulled >= s.m.mem.pulled
  {
    hide Stop, Unload, Reset, Inv, Tied, Unheld;
    StopTies(e, s);
    var s1 := if s.g.status == Running then Stop(e, s).s else s;
    UnloadPulls(e, s1);
    if Tied(s) {
      UnloadCalm(e, s1);
    }
    var s2 := if s1.g.status == Loaded then Unload(e, s1).s else s1;
    if s2.g.status == Unloaded {
      ResetTies(s2);
    }
  }

  lemma PerformTies(e: Env, s: State, op: Op)
    requires Inv(e, s) && Tied(s)
    ensures Tied(Perform(e, s, op).s) <==> !(op == LoadOp && Abandons(e, s))
    ensures !(op == LoadOp && Abandons(e, s)) ==> Calm(s, Perform(e, s, op).s)
  {
    hide Inv, Load, Unload, Start, Stop, Dump, Finish, Abandons;
    match op
    case AddOp(_, _) =>
    case LoadOp => LoadTies(e, s);
    case UnloadOp => UnloadCalm(e, s);
    case StartOp => StartTies(e, s);
    case StopOp => StopTies(e, s);
    case DumpOp(drr, vcpuid) => DumpTies(e, s, drr, vcpuid);
    case FiniOp => FinishTies(e, s);
  }

  // ---- Runs of the driver --------------------------------------------------------------------

  /** In every state of the run the driver is unloaded exactly when the VMM is not initialised. */
  predicate AlwaysTied(e: Env, s: State, ops: seq<Op>)
    decreases ops
  {
    Tied(s) && (ops == [] || AlwaysTied(e, Step(e, s, ops[0]).s, ops[1..]))
  }

  /** No load of the run fails after its INIT was accepted. */
  predicate NoneAbandoned(e: Env, s: State, ops: seq<Op>)
    decreases ops
  {
    ops == []
    || (!(ops[0] == LoadOp && Abandons(e, Enters(e, s))) && NoneAbandoned(e, Step(e, s, ops[0]).s, ops[1..]))
  }

  lemma {:induction false} TiedAlongRun(e: Env, s: State, ops: seq<Op>)
    requires Inv(e, s) && Tied(s)
    ensures AlwaysTied(e, s, ops) <==> NoneAbandoned(e, s, ops)
    ensures NoneAbandoned(e, s, ops) ==> Calm(s, Run(e, s, ops))
    decreases ops
  {
    hide Inv, Perform, Abandons;
    if ops == [] {
    } else {
      EntersKeeps(e, s);
      PerformTies(e, Enters(e, s), ops[0]);
      StepWorks(e, s, ops[0]);
      if Tied(Step(e, s, ops[0]).s) {
        TiedAlongRun(e, Step(e, s, ops[0]).s, ops[1..]);
      }
    }
  }

  /** Over every run: the driver knows throughout whether the VMM is initialised if and only if no load
      fails after its INIT was accepted; and then an accepted FINI precedes every block it gives
      back. */
  lemma FiniBeforeFree(e: Env, cpu: nat, ops: seq<Op>)
    ensures AlwaysTied(e, Boot(cpu), ops) <==> NoneAbandoned(e, Boot(cpu), ops)
    ensures NoneAbandoned(e, Boot(cpu), ops) ==> Run(e, Boot(cpu), ops).m.mem.pulled == 0
  {
    hide Inv, Run, AlwaysTied, NoneAbandoned;
    BootIsSafe(e, cpu);
    TiedAlongRun(e, Boot(cpu), ops);
  }

  // ---- Runs of the ioctl layer ---------------------------------------------------------------

  lemma IoUnloadTies(e: Env, x: Io)
    ensures Tied(x.s) ==> Calm(x.s, IoctlUnload(e, x).x.s)
    ensures IoctlUnload(e, x).x.s.m.mem.pulled >= x.s.m.mem.pulled
    ensures x.s.g.status == Unloaded && x.s.m.initialised && x.s.g.a.stack != 0 ==>
              IoctlUnload(e, x).x.s.m.mem.pulled > x.s.m.mem.pulled
  {
    hide Unload, FreeAll, Holdings;
    UnloadPulls(e, x.s);
    if Tied(x.s) {
      UnloadCalm(e, x.s);
    }
    StackIsHeld(x.s.g.a, multiset{});
    FreePulls(Unload(e, x.s).s.m, Buffers(x.pmods), Ioctl);
  }

  /** The repair of the ioctl layer turns every load that abandons the VMM into one that pulls its
      memory. */
  lemma IoLoadTies(e: Env, x: Io)
    requires Inv(e, x.s)
    ensures Tied(x.s) && !Abandons(e, x.s) ==> Calm(x.s, IoctlLoad(e, x).x.s)
    ensures Abandons(e, x.s) ==> IoctlLoad(e, x).x.s.m.mem.pulled > x.s.m.mem.pulled
    ensures IoctlLoad(e, x).x.s.m.mem.pulled >= x.s.m.mem.pulled
  {
    hide Load, IoctlUnload, Abandons, Inv;
    LoadTies(e, x.s);
    IoUnloadTies(e, x.(s := Load(e, x.s).s));
  }

  lemma AllocQuiet(e: Env, m: Machine, len: nat, kind: Kind)
    ensures Alloc(e, m, len, kind).0.initialised == m.initialised
    ensures Alloc(e, m, len, kind).0.mem.pulled == m.mem.pulled
  {
    hide CanPlace;
  }

  lemma AddQuiet(s: State, file: nat, size: nat)
    ensures Add(s, file, size).s.m == s.m && Add(s, file, size).s.g.status == s.g.status
  {
  }

  lemma IoAddTies(e: Env, x: Io)
    ensures Tied(x.s) ==> Calm(x.s, IoctlAddModule(e, x).x.s)
    ensures IoctlAddModule(e, x).x.s.m.mem.pulled == x.s.m.mem.pulled
  {
    hide Alloc, Add, Place, CanPlace;
    var (m, buf) := Alloc(e, x.s.m, x.moduleLength, Rw);
    AllocQuiet(e, x.s.m, x.moduleLength, Rw);
    AddQuiet(x.s.(m := LibraryCall(e, m).0), buf, x.moduleLength);
  }

  lemma IoStartTies(e: Env, x: Io)
    requires Inv(e, x.s)
    ensures Tied(x.s) ==> Calm(x.s, IoctlStart(e, x).x.s)
    ensures IoctlStart(e, x).x.s.m.mem == x.s.m.mem
  {
    hide Start, Stop, Inv, Tied, Unheld, StartOutcome;
    StartTies(e, x.s);
    var j := StartWorks(e, x.s);
    StopTies(e, Start(e, x.s).s);
  }

  lemma ExecuteTies(e: Env, x: Io, c: Command)
    requires Inv(e, x.s)
    ensures Tied(x.s) && !(c == LoadVmm && Abandons(e, x.s)) ==> Calm(x.s, Execute(e, x, c).x.s)
    ensures c == LoadVmm && Abandons(e, x.s) ==> Execute(e, x, c).x.s.m.mem.pulled > x.s.m.mem.pulled
    ensures Execute(e, x, c).x.s.m.mem.pulled >= x.s.m.mem.pulled
  {
    hide IoctlAddModule, IoctlLoad, IoctlUnload, IoctlStart, Stop, Dump, Finish, Inv, Abandons;
    match c
    case AddModule => IoAddTies(e, x);
    case LoadVmm => IoLoadTies(e, x);
    case UnloadVmm => IoUnloadTies(e, x);
    case StartVmm => IoStartTies(e, x);
    case StopVmm => StopTies(e, x.s);
    case DumpVmm => DumpTies(e, x.s, true, x.vcpuid);
    case Reboot => FinishTies(e, x.s);
    case _ =>
  }

  /** No ioctl load of the run fails after its INIT was accepted. */
  predicate IoNoneAbandoned(e: Env, x: Io, commands: seq<Command>)
    decreases commands
  {
    commands == []
    || (&& !(commands[0] == LoadVmm && Abandons(e, Enters(e, x.s)))
        && IoNoneAbandoned(e, Dispatch(e, x, commands[0]).x, commands[1..]))
  }

  lemma {:induction false} PulledGrows(e: Env, x: Io, commands: seq<Command>)
    requires IoInv(e, x)
    ensures IoRun(e, x, commands).s.m.mem.pulled >= x.s.m.mem.pulled
    decreases commands
  {
    hide IoInv, Execute, Abandons, Inv, Unheld;
    if commands == [] {
    } else {
      EntersIo(e, x);
      IoInvParts(e, x.(s := Enters(e, x.s)));
      ExecuteTies(e, x.(s := Enters(e, x.s)), commands[0]);
      DispatchWorks(e, x, commands[0]);
      PulledGrows(e, Dispatch(e, x, commands[0]).x, commands[1..]);
    }
  }

  lemma {:induction false} PulledAlongRun(e: Env, x: Io, commands: seq<Command>)
    requires IoInv(e, x) && Tied(x.s)
    ensures IoRun(e, x, commands).s.m.mem.pulled == x.s.m.mem.pulled <==> IoNoneAbandoned(e, x, commands)
    decreases commands
  {
    hide IoInv, Execute, Abandons, Inv, Unheld;
    if commands == [] {
    } else {
      EntersIo(e, x);
      IoInvParts(e, x.(s := Enters(e, x.s)));
      ExecuteTies(e, x.(s := Enters(e, x.s)), commands[0]);
      DispatchWorks(e, x, commands[0]);
      var x' := Dispatch(e, x, commands[0]).x;
      if commands[0] == LoadVmm && Abandons(e, Enters(e, x.s)) {
        PulledGrows(e, x', commands[1..]);
      } else {
        PulledAlongRun(e, x', commands[1..]);
      }
    }
  }

  /** Over every run of ioctls and reboots: memory of the driver is given back only while the VMM is not
      initialised, if and only if no load fails after its INIT was accepted. */
  lemma IoFiniBeforeFree(e: Env, cpu: nat, commands: seq<Command>)
    ensures IoRun(e, IoBoot(cpu), commands).s.m.mem.pulled == 0 <==> IoNoneAbandoned(e, IoBoot(cpu), commands)
  {
    hide IoRun, IoInv, IoNoneAbandoned;
    IoBootIsSafe(e, cpu);
    PulledAlongRun(e, IoBoot(cpu), commands);
  }
}
