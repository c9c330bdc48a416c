/** The two module tables and the allocation ledger over every serialised run of ioctls and
    reboot notifications. */
module Tables {
  import opened CommonModel
  import opened Config
  import opened EntryModel
  import opened Invariant
  import opened Lifecycle
  import opened Machine
  import opened Outcomes
  import opened Safety
  import opened Words

  predicate Suffix(a: seq<Block>, b: seq<Block>) {
    |a| <= |b| && b[|b| - |a|..] == a
  }

  /** The module files of the driver are the last entries of pmodules; once loaded, pmodules may
      also have been emptied under it. */
  predicate TablesAgree(g: Globals, pmods: seq<PModule>) {
    Suffix(Files(g.a.mods), Buffers(pmods)) || (g.status != Unloaded && pmods == [])
  }

  predicate IoInv(e: Env, x: Io) {
    && Inv(e, x.s)
    && Unheld(x.s) == multiset(Buffers(x.pmods))
    && |x.pmods| <= MAX_NUM_MODULES
    && (x.s.g.status == Unloaded ==> x.s.g.a.stack == 0)
    && TablesAgree(x.s.g, x.pmods)
  }

  // ---- Unload and load -----------------------------------------------------------------------

  /** Giving back the module buffers. */
  lemma DropBuffers(e: Env, s: State, buffers: seq<Block>)
    requires Inv(e, s) && Unheld(s) == multiset(buffers)
    ensures Inv(e, s.(m := FreeAll(s.m, buffers, Ioctl)))
    ensures Unheld(s.(m := FreeAll(s.m, buffers, Ioctl))) == multiset{}
    ensures FreeAll(s.m, buffers, Ioctl).mem.live == Held(s.g.a)
  {
    hide Held, SafeLog, FreeAll, Ready;
    assert s.m.mem.live == multiset(buffers) + Held(s.g.a);
    FreeAllKeeps(e, s.m, buffers, Ioctl, Held(s.g.a));
    var m := FreeAll(s.m, buffers, Ioctl);
    ReadyWhenHeld(s.g.a, s.m.mem.live, m.mem.live);
  }

  lemma ReadyWhenHeld(a: Assets, live: multiset<Block>, live': multiset<Block>)
    requires Held(a) <= live'
    ensures Ready(a, live) ==> Ready(a, live')
  {
    HeldSplit(a);
    hide Held, StackTop;
  }

  /** An ioctl unload from any state whose ledger is exact: the module buffers are gone even when
      the driver refuses, and a successful one leaves nothing allocated at all. */
  lemma IoctlUnloadWorks(e: Env, x: Io)
    requires Inv(e, x.s) && Unheld(x.s) == multiset(Buffers(x.pmods))
    ensures IoInv(e, IoctlUnload(e, x).x)
    ensures IoctlUnload(e, x).x.pmods == []
    ensures IoctlUnload(e, x).ret == IoSuccess ==>
              IoctlUnload(e, x).x.s.m.mem.live == multiset{} && IoctlUnload(e, x).x.s.g.a.mods == []
  {
    hide Unload, Inv, Unheld, Held, FreeAll, Files;
    UnloadWorks(e, x.s);
    var o := Unload(e, x.s);
    DropBuffers(e, o.s, Buffers(x.pmods));
    var x' := IoctlUnload(e, x).x;
    assert Buffers([]) == [];
    UnloadCases(e, x.s);
    if o.ret == Success {
      CleanHoldsNothing(e, o.s);
      EmptyFiles(o.s.g.a.mods);
    }
  }

  lemma EmptyFiles(mods: seq<Binary>)
    ensures mods == [] ==> Files(mods) == []
  {
  }

  lemma CleanHoldsNothing(e: Env, s: State)
    requires Inv(e, s) && s.g.status == Unloaded && s.g.a.stack == 0
    ensures Held(s.g.a) == multiset{} && s.m.mem.live == Unheld(s)
  {
    hide MemoryOk, SafeLog;
  }

  lemma LoadElfFiles(e: Env, s: State)
    ensures Files(LoadElf(e, s).s.g.a.mods) == Files(s.g.a.mods)
  {
    hide LoadImages, Files;
    LoadImagesFiles(e, Tick(s.m), s.g.a.mods, e.answers(s.m.now).images);
  }

  /** The tables still agree after a load that succeeds. */
  lemma LoadKeepsFiles(e: Env, s: State)
    requires s.g.status == Unloaded && Load(e, s).ret == Success
    ensures Files(Load(e, s).s.g.a.mods) == Files(s.g.a.mods)
    ensures Load(e, s).s.g.status == Loaded
  {
    hide LoadElf, Alloc, CallVmm, StackTop, AnnounceModules, AnnounceRange, Files, Unload;
    var s1 := SetupStack(e, s).s;
    var s2 := SetupTls(e, s1).s;
    LoadElfFiles(e, s2);
  }

  lemma IoctlLoadWorks(e: Env, x: Io)
    requires IoInv(e, x)
    ensures IoInv(e, IoctlLoad(e, x).x)
  {
    hide Load, Inv, Unheld, Files, Suffix, IoctlUnload;
    LoadWorks(e, x.s);
    assert !Retry(x.s);
    var o := Load(e, x.s);
    if o.ret != Success {
      IoctlUnloadWorks(e, x.(s := o.s));
    } else if x.s.g.status == Unloaded {
      LoadKeepsFiles(e, x.s);
    } else {
      LoadedLoad(e, x.s);
    }
  }

  lemma LoadedLoad(e: Env, s: State)
    requires s.g.status != Unloaded
    ensures Load(e, s).s == s
  {
  }

  // ---- Start, stop, dump and fini ------------------------------------------------------------

  /** A call that touches neither table nor memory. */
  lemma SameTables(e: Env, x: Io, s: State)
    requires IoInv(e, x) && Inv(e, s) && s.g.a == x.s.g.a && Unheld(s) == Unheld(x.s)
    requires s.g.status == Unloaded <==> x.s.g.status == Unloaded
    ensures IoInv(e, x.(s := s))
  {
    hide Inv, Unheld;
  }

  lemma IoctlStopWorks(e: Env, x: Io)
    requires IoInv(e, x)
    ensures IoInv(e, IoctlStop(e, x).x)
  {
    hide Stop, Inv, Unheld, IoInv, Down, CpusBelow;
    assert Inv(e, x.s) by { IoInvParts(e, x); }
    StopWorks(e, x.s);
    if x.s.g.status == Running {
      SameTables(e, x, Stop(e, x.s).s);
    } else {
      WrongState(e, x.s);
      SameIo(x);
    }
  }

  lemma IoInvParts(e: Env, x: Io)
    requires IoInv(e, x)
    ensures Inv(e, x.s)
  {
    hide Inv;
  }

  lemma SameIo(x: Io)
    ensures x.(s := x.s) == x
  {
  }

  lemma IoctlStartWorks(e: Env, x: Io)
    requires IoInv(e, x)
    ensures IoInv(e, IoctlStart(e, x).x)
  {
    hide Start, IoctlStop, Inv, Unheld, IoInv, Up, Down, CpusBelow;
    IoInvParts(e, x);
    var o := Start(e, x.s);
    if x.s.g.status == Loaded {
      var j := StartWorks(e, x.s);
      SameTables(e, x, o.s);
    } else {
      WrongState(e, x.s);
      SameIo(x);
    }
    IoctlStopWorks(e, x.(s := o.s));
  }

  /** A call into the outside that only takes time. */
  lemma TickWorks(e: Env, x: Io)
    requires IoInv(e, x)
    ensures IoInv(e, WithMachine(x, Tick(x.s.m)))
  {
    hide Held, MemoryOk, Ready, SafeLog, Files;
  }

  lemma IoctlDumpWorks(e: Env, x: Io)
    requires IoInv(e, x)
    ensures IoInv(e, IoctlDump(e, x).x)
  {
    hide Dump, Inv, Unheld, IoInv;
    IoInvParts(e, x);
    DumpWorks(e, x.s, true, x.vcpuid);
    DumpKeepsGlobals(e, x.s, x.vcpuid);
    var o := Dump(e, x.s, true, x.vcpuid);
    SameTables(e, x, o.s);
    TickWorks(e, x.(s := o.s));
  }

  lemma DumpKeepsGlobals(e: Env, s: State, vcpuid: nat)
    ensures Dump(e, s, true, vcpuid).s.g == s.g
  {
    hide CallVmm;
  }

  lemma RebootWorks(e: Env, x: Io)
    requires IoInv(e, x)
    ensures IoInv(e, x.(s := Finish(e, x.s).s))
  {
    hide Finish, Inv, Unheld, Files, Suffix;
    FinishWorks(e, x.s);
    FinishTables(e, x);
  }

  lemma FinishTables(e: Env, x: Io)
    requires IoInv(e, x)
    ensures TablesAgree(Finish(e, x.s).s.g, x.pmods)
    ensures Finish(e, x.s).s.g.status == Unloaded ==> Finish(e, x.s).s.g.a.stack == 0
  {
    hide Stop, Unload, Inv, Unheld, FreeAll, Holdings, Down, CpusBelow, Files;
    StopWorks(e, x.s);
    var s1 := if x.s.g.status == Running then Stop(e, x.s).s else x.s;
    UnloadCases(e, s1);
    EmptyFiles([]);
  }

  // ---- Adding a module -----------------------------------------------------------------------

  /** A fresh buffer belongs to nobody yet; giving it back restores the ledger. */
  lemma BufferComesAndGoes(e: Env, x: Io, len: nat)
    requires IoInv(e, x)
    ensures
      var (m, addr) := Alloc(e, x.s.m, len, Rw);
      var b := Block(addr, len, Rw);
      && (addr == 0 ==> IoInv(e, WithMachine(x, m)))
      && (addr != 0 ==> Inv(e, x.s.(m := m)) && Unheld(x.s.(m := m)) == Unheld(x.s) + multiset{b})
  {
    hide Held, MemoryOk, SafeLog, Files, Alloc, StackTop;
    AllocWorks(e, x.s.m, len, Rw);
  }

  lemma BufferDropped(e: Env, x: Io, s: State, b: Block)
    requires IoInv(e, x) && Inv(e, s) && Unheld(s) == Unheld(x.s) + multiset{b} && s.g == x.s.g
    ensures IoInv(e, x.(s := s.(m := Free(s.m, b, Ioctl))))
  {
    hide Inv, Unheld, FreeAll;
    FreeOne(s.m, b);
    DropOne(e, s, b, Unheld(x.s));
  }

  lemma FreeOne(m: Machine, b: Block)
    ensures FreeAll(m, [b], Ioctl) == Free(m, b, Ioctl)
  {
    assert [b][1..] == [];
  }

  lemma Regroup(rest: multiset<Block>, b: Block, held: multiset<Block>)
    ensures held + (rest + multiset{b}) == multiset{b} + (rest + held)
  {
  }

  lemma DropOne(e: Env, s: State, b: Block, rest: multiset<Block>)
    requires Inv(e, s) && Unheld(s) == rest + multiset{b}
    ensures Inv(e, s.(m := Free(s.m, b, Ioctl)))
    ensures Unheld(s.(m := Free(s.m, b, Ioctl))) == rest
  {
    hide Held, SafeLog, FreeAll, Ready, MemoryOk;
    HeldIsLive(e, s);
    assert multiset([b]) == multiset{b};
    Regroup(rest, b, Held(s.g.a));
    FreeOne(s.m, b);
    FreeAllKeeps(e, s.m, [b], Ioctl, rest + Held(s.g.a));
    ReadyWhenHeld(s.g.a, s.m.mem.live, Free(s.m, b, Ioctl).mem.live);
  }

  lemma BuffersSnoc(pmods: seq<PModule>, p: PModule)
    ensures Buffers(pmods + [p]) == Buffers(pmods) + [BufferOf(p)]
  {
  }

  lemma FilesSnoc(mods: seq<Binary>, b: Binary)
    ensures Files(mods + [b]) == Files(mods) + [FileOf(b)]
  {
  }

  lemma AddedToBoth(e: Env, x: Io, s: State, p: PModule)
    requires IoInv(e, x) && Inv(e, s) && Unheld(s) == Unheld(x.s) + multiset{BufferOf(p)}
    requires s.g == x.s.g && Add(s, p.data, p.size).ret == Success && |x.pmods| < MAX_NUM_MODULES
    ensures IoInv(e, x.(s := Add(s, p.data, p.size).s, pmods := x.pmods + [p]))
  {
    hide Inv, Unheld, Files, Buffers;
    AddWorks(e, s, p.data, p.size);
    BuffersSnoc(x.pmods, p);
    FilesSnoc(s.g.a.mods, NO_BINARY.(file := p.data, fileSize := p.size));
    assert multiset(Buffers(x.pmods) + [BufferOf(p)]) == multiset(Buffers(x.pmods)) + multiset{BufferOf(p)};
  }

  lemma RoomForBoth(e: Env, x: Io, file: nat, size: nat)
    requires IoInv(e, x) && |x.pmods| < MAX_NUM_MODULES
    ensures Add(x.s, file, size).ret != MaxModulesReached
  {
    hide Inv, Unheld;
  }

  lemma IoctlAddModuleWorks(e: Env, x: Io)
    requires IoInv(e, x)
    ensures IoInv(e, IoctlAddModule(e, x).x)
  {
    hide Alloc, Free, Add, IoInv, Inv, Unheld;
    if |x.pmods| < MAX_NUM_MODULES {
      BufferComesAndGoes(e, x, x.moduleLength);
      var (m1, buf) := Alloc(e, x.s.m, x.moduleLength, Rw);
      if buf != 0 {
        var p := PModule(buf, x.moduleLength);
        var (m2, code) := LibraryCall(e, m1);
        var s := x.s.(m := m2);
        TickInv(e, x.s.(m := m1));
        BufferDropped(e, x, s, BufferOf(p));
        if code == 0 {
          var o := Add(s, buf, x.moduleLength);
          if o.ret == Success {
            AddedToBoth(e, x, s, p);
          } else {
            AddRefused(s, buf, x.moduleLength);
          }
        }
      }
    }
  }

  lemma TickInv(e: Env, s: State)
    requires Inv(e, s)
    ensures Inv(e, s.(m := Tick(s.m))) && Unheld(s.(m := Tick(s.m))) == Unheld(s)
  {
    hide Held, MemoryOk, Ready, SafeLog;
  }

  lemma AddRefused(s: State, file: nat, size: nat)
    ensures Add(s, file, size).ret != Success ==> Add(s, file, size).s == s
  {
  }

  // ---- Runs ----------------------------------------------------------------------------------

  lemma EntersIo(e: Env, x: Io)
    requires IoInv(e, x)
    ensures IoInv(e, x.(s := Enters(e, x.s)))
  {
    hide Inv, Unheld;
    EntersKeeps(e, x.s);
  }

  lemma ExecuteWorks(e: Env, x: Io, c: Command)
    requires IoInv(e, x)
    ensures IoInv(e, Execute(e, x, c).x)
  {
    hide IoctlAddModule, IoctlLoad, IoctlUnload, IoctlStart, IoctlStop, IoctlDump, Finish, IoInv;
    match c
    case AddModule => IoctlAddModuleWorks(e, x);
    case LoadVmm => IoctlLoadWorks(e, x);
    case UnloadVmm => UnloadFromInv(e, x);
    case StartVmm => IoctlStartWorks(e, x);
    case StopVmm => IoctlStopWorks(e, x);
    case DumpVmm => IoctlDumpWorks(e, x);
    case Reboot => RebootWorks(e, x);
    case AddModuleLength(_, value) => PlainWorks(e, x, value);
    case SetVcpuid(_, value) => PlainWorks(e, x, value);
    case VmmStatus(_) => PlainWorks(e, x, 0);
    case Other =>
  }

  lemma DispatchWorks(e: Env, x: Io, c: Command)
    requires IoInv(e, x)
    ensures IoInv(e, Dispatch(e, x, c).x)
  {
    hide Execute;
    EntersIo(e, x);
    ExecuteWorks(e, x.(s := Enters(e, x.s)), c);
  }

  lemma UnloadFromInv(e: Env, x: Io)
    requires IoInv(e, x)
    ensures IoInv(e, IoctlUnload(e, x).x)
  {
    hide Inv, Unheld, IoctlUnload;
    IoctlUnloadWorks(e, x);
  }

  lemma PlainWorks(e: Env, x: Io, value: Word)
    requires IoInv(e, x)
    ensures IoInv(e, WithMachine(x, Tick(x.s.m)))
    ensures IoInv(e, WithMachine(x, Tick(x.s.m)).(moduleLength := value))
    ensures IoInv(e, WithMachine(x, Tick(x.s.m)).(vcpuid := value))
  {
    TickWorks(e, x);
    hide Inv, Unheld;
  }

  /** Over every serialised run of ioctls and reboots: the driver invariant, an exact ledger and
      agreeing tables. */
  lemma {:induction false} EveryIoRunIsSafe(e: Env, x: Io, commands: seq<Command>)
    requires IoInv(e, x)
    ensures IoInv(e, IoRun(e, x, commands))
    decreases commands
  {
    hide Dispatch, IoInv;
    if commands == [] {
    } else {
      DispatchWorks(e, x, commands[0]);
      EveryIoRunIsSafe(e, Dispatch(e, x, commands[0]).x, commands[1..]);
    }
  }

  lemma IoBootIsSafe(e: Env, cpu: nat)
    ensures IoInv(e, IoBoot(cpu))
  {
    BootIsSafe(e, cpu);
  }

  /** At every boundary between ioctls what is allocated is exactly the module buffers, the images,
      the stack and the TLS block, each once; an unloaded driver holds only module buffers. */
  lemma IoLedgerIsExact(e: Env, cpu: nat, commands: seq<Command>)
    ensures
      var x := IoRun(e, IoBoot(cpu), commands);
      && x.s.m.mem.live == multiset(Buffers(x.pmods)) + Held(x.s.g.a)
      && (forall b | b in x.s.m.mem.live :: x.s.m.mem.live[b] == 1)
      && (x.s.g.status == Unloaded ==> Held(x.s.g.a) == multiset{})
  {
    hide Held, IoRun, IoBoot, Buffers, SafeLog;
    IoBootIsSafe(e, cpu);
    EveryIoRunIsSafe(e, IoBoot(cpu), commands);
  }

  /** BF_ERROR_MAX_MODULES_REACHED cannot come back to the ioctl layer: whenever its own table has
      room for a module, so has the driver's. */
  lemma NeverTooManyModules(e: Env, cpu: nat, commands: seq<Command>, file: nat, size: nat)
    requires |IoRun(e, IoBoot(cpu), commands).pmods| < MAX_NUM_MODULES
    ensures Add(IoRun(e, IoBoot(cpu), commands).s, file, size).ret != MaxModulesReached
  {
    hide IoRun, IoBoot, IoInv, Add;
    IoBootIsSafe(e, cpu);
    EveryIoRunIsSafe(e, IoBoot(cpu), commands);
    RoomForBoth(e, IoRun(e, IoBoot(cpu), commands), file, size);
  }

  /** The ELF loader reads only live module buffers: after any run of ioctls and reboots, when a
      load gets as far as bfelf_load, every file of g_modules is alive. */
  lemma LoaderReadsLiveBuffers(e: Env, cpu: nat, commands: seq<Command>, f: Block)
    requires IoRun(e, IoBoot(cpu), commands).s.g.status == Unloaded
    requires f in Files(IoRun(e, IoBoot(cpu), commands).s.g.a.mods)
    ensures
      var o1 := SetupStack(e, IoRun(e, IoBoot(cpu), commands).s);
      var o2 := SetupTls(e, o1.s);
      o1.ret == Success && o2.ret == Success ==> f in Files(o2.s.g.a.mods) && f in o2.s.m.mem.live
  {
    hide IoRun, IoBoot, IoInv, SetupStack, SetupTls, Files;
    IoBootIsSafe(e, cpu);
    EveryIoRunIsSafe(e, IoBoot(cpu), commands);
    var x := IoRun(e, IoBoot(cpu), commands);
    FileIsLive(e, x, f);
    BufferOutlivesSetup(e, x.s, f);
  }

  lemma BufferOutlivesSetup(e: Env, s: State, f: Block)
    requires f in Files(s.g.a.mods) && f in s.m.mem.live
    ensures
      var o1 := SetupStack(e, s);
      var o2 := SetupTls(e, o1.s);
      o1.ret == Success && o2.ret == Success ==> f in Files(o2.s.g.a.mods) && f in o2.s.m.mem.live
  {
    hide StackTop, CanPlace, Files;
  }

  /** Over every run of ioctls and reboots each block given back, by either layer, was alive with
      exactly that address and length, so none is freed twice; the driver's blocks are freed only
      while no processor is inside the VMM. */
  lemma IoFreesOnlyLiveBlocks(e: Env, cpu: nat, commands: seq<Command>, ev: Event)
    requires ev in IoRun(e, IoBoot(cpu), commands).s.m.log && ev.Freed?
    ensures ev.block in ev.live
    ensures ev.owner.Driver? ==> ev.launched == {}
  {
    hide IoRun, IoBoot, Held, Buffers, MemoryOk, StatusOk;
    IoBootIsSafe(e, cpu);
    EveryIoRunIsSafe(e, IoBoot(cpu), commands);
    assert Safe(e, ev);
  }

  lemma FileIsLive(e: Env, x: Io, f: Block)
    requires IoInv(e, x) && x.s.g.status == Unloaded && f in Files(x.s.g.a.mods)
    ensures f in x.s.m.mem.live
  {
    hide Inv, Held, Files;
    assert f in Buffers(x.pmods);
    assert f in Unheld(x.s);
  }

  /** Whether common_fini gets the VMM unloaded: every step of the stop that is due gets through, and
      then the FINI of the VMM. */
  predicate Unloads(e: Env, s: State) {
    match s.g.status
    case Unloaded => true
    case Loaded => Accepted(e, s.g.a.entry, s.m.now)
    case Running =>
      var end := StopEndOf(e, s.g.a, s.m, s.g.started);
      end.Through? && Accepted(e, s.g.a.entry, end.at.now)
    case Corrupt => false
  }

  lemma FinishUnloads(e: Env, s: State)
    requires Inv(e, s)
    ensures Finish(e, s).s.g.status == Unloaded <==> Unloads(e, s)
  {
    hide FinishEndOf, Finish, Inv, StopEndOf, Accepted;
    FinishEnds(e, s);
    UnloadsIsTheEnd(e, s);
  }

  lemma UnloadsIsTheEnd(e: Env, s: State)
    ensures Unloads(e, s) <==> FinishEndOf(e, s).0 == Unloaded
  {
    hide StopEndOf, Accepted;
  }

  lemma NotUnloadedHolds(e: Env, x: Io)
    requires IoInv(e, x) && x.s.g.status != Unloaded
    ensures x.s.m.mem.live != multiset{}
  {
    assert StackBlock(x.s.g.a) in x.s.m.mem.live;
  }

  /** What the exit of the kernel module leaves allocated: the module buffers when the VMM gets
      unloaded. So nothing is left exactly when that works and no buffer was in the table. */
  lemma ExitLeavesBuffers(e: Env, x: Io)
    requires IoInv(e, x)
    ensures Unloads(e, Enters(e, x.s)) ==>
              Dispatch(e, x, Reboot).x.s.m.mem.live == multiset(Buffers(x.pmods))
    ensures Dispatch(e, x, Reboot).x.s.m.mem.live == multiset{}
       <==> Unloads(e, Enters(e, x.s)) && x.pmods == []
  {
    hide Finish, Held, Unheld, Unloads;
    EntersIo(e, x);
    RebootWorks(e, x.(s := Enters(e, x.s)));
    FinishUnloads(e, Enters(e, x.s));
    var x' := Dispatch(e, x, Reboot).x;
    if x'.s.g.status == Unloaded {
      CleanHoldsNothing(e, x'.s);
    } else {
      NotUnloadedHolds(e, x');
    }
    if x.pmods != [] {
      assert Buffers(x.pmods)[0] in multiset(Buffers(x.pmods));
    }
  }
}
