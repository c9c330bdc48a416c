/** src/common.c as a program. */
module Common {
  import opened Config
  import opened Invariant
  import opened Lifecycle
  import opened Machine
  import opened Platform
  import opened Safety
  import opened Words
  import C = CommonModel

  class Driver {
    const platform: Platform
    const modules: array<Binary>
    var numModules: nat
    var status: Status
    var started: nat
    var entry: nat
    var tls: nat
    var tlsSize: nat
    var stack: nat
    var stackSize: nat
    var stackTop: nat

    /** Table entries that are not in use are zero. */
    ghost predicate Valid()
      reads this, modules, platform, platform.uefi.fw
    {
      && platform.Valid()
      && modules.Length == MAX_NUM_MODULES && numModules <= modules.Length
      && forall i | numModules <= i < modules.Length :: modules[i] == NO_BINARY
    }

    ghost function View(): C.State
      reads this, modules, platform, platform.uefi.fw
      requires Valid()
    {
      C.State(C.Globals(status, started,
                        C.Assets(modules[..numModules], entry, tls, tlsSize, stack, stackSize, stackTop)),
              platform.m)
    }

    constructor (platform: Platform)
      requires platform.Valid()
      ensures Valid() && this.platform == platform && fresh(modules)
      ensures View() == C.Boot(platform.m.cpu).(m := platform.m)
    {
      this.platform := platform;
      modules := new Binary[MAX_NUM_MODULES](_ => NO_BINARY);
      numModules, status, started, entry := 0, Unloaded, 0, 0;
      tls, tlsSize, stack, stackSize, stackTop := 0, 0, 0, 0, 0;
    }

    method SetupStack() returns (ret: Ret)
      requires Valid()
      modifies this, platform, platform.uefi.fw
      ensures Valid() && C.Out(View(), ret) == C.SetupStack(platform.env, old(View()))
    {
      hide Alloc, MemoryOk, Mask;
      stackSize := STACK_SIZE * 2;
      stack := platform.AllocRw(stackSize);
      if stack == 0 {
        return OutOfMemory;
      }
      stackTop := Wrap(stack + stackSize);
      stackTop := Wrap(Mask(stackTop, STACK_SIZE) - 1);
      return Success;
    }

    method SetupTls() returns (ret: Ret)
      requires Valid()
      modifies this, platform, platform.uefi.fw
      ensures Valid() && C.Out(View(), ret) == C.SetupTls(platform.env, old(View()))
    {
      var n := platform.NumCpus();
      tlsSize := Wrap(THREAD_LOCAL_STORAGE_SIZE * n);
      tls := platform.AllocRw(tlsSize);
      if tls == 0 {
        return OutOfMemory;
      }
      return Success;
    }

    method CallVmm(request: Request) returns (ret: Ret)
      requires Valid()
      modifies platform, platform.uefi.fw
      ensures Valid()
      ensures (platform.m, ret) == C.CallVmm(platform.env, View().g.a, old(platform.m), request)
      ensures platform.m.mem == old(platform.m.mem)
    {
      hide MemoryOk, Wrap, Platform.Valid;
      var at := Wrap(stackTop - CONTEXT_SIZE);
      var code := platform.LibraryCall();  // bfelf_set_integer_args
      if code != 0 {
        return External(code);
      }
      var cpuid: int := platform.CurrentCpu();
      var tlsptr := Wrap(tls + THREAD_LOCAL_STORAGE_SIZE * cpuid);
      platform.Write(Context(request, cpuid, at, Wrap(at as int - 1), tlsptr,
                             Block(stack, stackSize, Rw), Block(tls, tlsSize, Rw), platform.m.mem.live));
      if entry != 0 {
        code := platform.Enter(request);
        ret := CodeOf(code);
      } else {
        ret := Unknown;
      }
    }

    method AddRawMd(virt: nat, access: Access) returns (ret: Ret)
      requires Valid()
      modifies platform, platform.uefi.fw
      ensures Valid()
      ensures (platform.m, ret) == C.AddRawMd(platform.env, View().g.a, old(platform.m), virt, access)
      ensures platform.m.mem == old(platform.m.mem)
    {
      var md := Descriptor(virt, PhysOf(platform.env, virt), access);
      ret := CallVmm(AddMdl(md));
    }

    /** The loop `for (; s <= e; s += MAX_PAGE_SIZE)` on unsigned words. */
    method AddPages(lo: nat, hi: nat, access: Access) returns (ret: Ret)
      requires Valid() && hi + MAX_PAGE_SIZE < U64
      modifies platform, platform.uefi.fw
      ensures Valid()
      ensures (platform.m, ret) == C.AnnounceRange(platform.env, View().g.a, old(platform.m), lo, hi, access)
      ensures platform.m.mem == old(platform.m.mem)
    {
      hide C.CallVmm;
      ghost var a := View().g.a;
      var s := lo;
      while s <= hi
        invariant Valid() && View().g.a == a && platform.m.mem == old(platform.m.mem)
        invariant C.AnnounceRange(platform.env, a, platform.m, s, hi, access)
               == C.AnnounceRange(platform.env, a, old(platform.m), lo, hi, access)
        decreases if s <= hi then hi - s + 1 else 0
      {
        ret := AddRawMd(s, access);
        if ret != Success {
          return;
        }
        s := Wrap(s + MAX_PAGE_SIZE);
      }
      return Success;
    }

    method AddMd(i: nat) returns (ret: Ret)
      requires Valid() && i < numModules
      modifies platform, platform.uefi.fw
      ensures Valid()
      ensures (platform.m, ret) == C.AnnounceModule(platform.env, View().g.a, old(platform.m), modules[i], 0)
      ensures platform.m.mem == old(platform.m.mem)
    {
      hide C.AnnounceRange, Mask, Wrap, Platform.Valid;
      ghost var a := View().g.a;
      var b := modules[i];
      var s := 0;
      while s < |b.segs|
        invariant Valid() && View().g.a == a && s <= |b.segs| && platform.m.mem == old(platform.m.mem)
        invariant C.AnnounceModule(platform.env, a, platform.m, b, s)
               == C.AnnounceModule(platform.env, a, old(platform.m), b, 0)
      {
        var code := platform.LibraryCall();  // bfelf_file_get_load_instr
        if code != 0 {
          return External(code);
        }
        var instr := b.segs[s];
        assert instr in b.segs;
        var execStart := Mask(Wrap(b.exec + instr.offset), MAX_PAGE_SIZE);
        var execEnd := Mask(Wrap(b.exec + instr.offset + instr.memsz), MAX_PAGE_SIZE);
        ret := AddPages(execStart, execEnd, C.AccessOf(instr));
        if ret != Success {
          return;
        }
        s := s + 1;
      }
      return Success;
    }

    ghost function TlsTail(): seq<Block>
      reads this
    {
      if tls != 0 then [Block(tls, tlsSize, Rw)] else []
    }

    ghost function StackTail(): seq<Block>
      reads this
    {
      if stack != 0 then [Block(stack, stackSize, Rw)] else []
    }

    lemma HoldingsInOrder()
      requires Valid()
      ensures C.Holdings(View().g.a) == C.ExecList(modules[..numModules]) + (TlsTail() + StackTail())
    {
    }

    static lemma NothingInList(tail: seq<Block>)
      ensures C.ExecList([]) + tail == tail
    {
    }

    static lemma FreeFirst(m: Machine, b: Block, rest: seq<Block>)
      ensures FreeAll(m, [b] + rest, Owner.Driver) == FreeAll(Free(m, b, Owner.Driver), rest, Owner.Driver)
      ensures Freeable(m.mem.live, [b] + rest)
         <==> b in m.mem.live && Freeable(Free(m, b, Owner.Driver).mem.live, rest)
    {
      assert ([b] + rest)[1..] == rest;
    }

    /** One round of the loop of common_reset. */
    static lemma ExecListStep(m: Machine, mods: seq<Binary>, i: nat, tail: seq<Block>)
      requires i < |mods|
      ensures
        var b := mods[i];
        FreeAll(m, C.ExecList(mods[i..]) + tail, Owner.Driver)
          == FreeAll(if b.exec != 0 then Free(m, Block(b.exec, b.execSize, Rwe), Owner.Driver) else m,
                     C.ExecList(mods[i + 1..]) + tail, Owner.Driver)
      ensures
        var b := mods[i];
        var block := Block(b.exec, b.execSize, Rwe);
        var m1 := if b.exec != 0 then Free(m, block, Owner.Driver) else m;
        Freeable(m.mem.live, C.ExecList(mods[i..]) + tail)
        <==> (b.exec != 0 ==> block in m.mem.live) && Freeable(m1.mem.live, C.ExecList(mods[i + 1..]) + tail)
    {
      hide Free, FreeAll;
      assert mods[i..][1..] == mods[i + 1..];
      var b := mods[i];
      var rest := C.ExecList(mods[i + 1..]) + tail;
      if b.exec != 0 {
        assert C.ExecList(mods[i..]) + tail == [Block(b.exec, b.execSize, Rwe)] + rest;
        FreeFirst(m, Block(b.exec, b.execSize, Rwe), rest);
      } else {
        assert C.ExecList(mods[i..]) + tail == rest;
      }
    }

    /** The last two steps of common_reset. */
    lemma TailFreed(m: Machine)
      ensures
        var m1 := if tls != 0 then Free(m, Block(tls, tlsSize, Rw), Owner.Driver) else m;
        FreeAll(m, TlsTail() + StackTail(), Owner.Driver)
          == if stack != 0 then Free(m1, Block(stack, stackSize, Rw), Owner.Driver) else m1
      ensures
        var m1 := if tls != 0 then Free(m, Block(tls, tlsSize, Rw), Owner.Driver) else m;
        Freeable(m.mem.live, TlsTail() + StackTail()) ==>
          && (tls != 0 ==> Block(tls, tlsSize, Rw) in m.mem.live)
          && (stack != 0 ==> Block(stack, stackSize, Rw) in m1.mem.live)
    {
      hide Free;
      var t, s := Block(tls, tlsSize, Rw), Block(stack, stackSize, Rw);
      var m1 := if tls != 0 then Free(m, t, Owner.Driver) else m;
      if tls != 0 {
        FreeFirst(m, t, StackTail());
      } else {
        assert TlsTail() + StackTail() == StackTail();
      }
      if stack != 0 {
        FreeFirst(m1, s, []);
        assert [s] + [] == [s];
      }
    }

    /** The loop of common_reset over the images; `tail` is what is still to be freed after it. */
    method FreeImages(ghost tail: seq<Block>)
      requires Valid() && Freeable(platform.m.mem.live, C.ExecList(modules[..numModules]) + tail)
      modifies platform, platform.uefi.fw
      ensures Valid() && Freeable(platform.m.mem.live, tail)
      ensures FreeAll(platform.m, tail, Owner.Driver)
           == FreeAll(old(platform.m), C.ExecList(modules[..numModules]) + tail, Owner.Driver)
    {
      hide Free, FreeAll, Freeable, C.ExecList, Platform.Valid;
      ghost var mods := modules[..numModules];
      assert mods[0..] == mods;
      var i := 0;
      while i < numModules
        invariant i <= numModules && Valid()
        invariant Freeable(platform.m.mem.live, C.ExecList(mods[i..]) + tail)
        invariant FreeAll(platform.m, C.ExecList(mods[i..]) + tail, Owner.Driver)
               == FreeAll(old(platform.m), C.ExecList(mods) + tail, Owner.Driver)
      {
        ExecListStep(platform.m, mods, i, tail);
        if modules[i].exec != 0 {
          platform.FreeRwe(modules[i].exec, modules[i].execSize, Owner.Driver);
        }
        i := i + 1;
      }
      assert mods[i..] == [];
      NothingInList(tail);
    }

    /** The two tests of common_reset. */
    method FreeBuffers()
      requires Valid() && Freeable(platform.m.mem.live, TlsTail() + StackTail())
      modifies platform, platform.uefi.fw
      ensures Valid() && platform.m == FreeAll(old(platform.m), TlsTail() + StackTail(), Owner.Driver)
    {
      hide Free, FreeAll, Freeable, Platform.Valid;
      TailFreed(platform.m);
      if tls != 0 {
        platform.FreeRw(tls, tlsSize, Owner.Driver);
      }
      if stack != 0 {
        platform.FreeRw(stack, stackSize, Owner.Driver);
      }
    }

    method Reset()
      requires Valid() && Freeable(platform.m.mem.live, C.Holdings(View().g.a))
      modifies this, modules, platform, platform.uefi.fw
      ensures Valid() && View() == C.Reset(old(View()))
    {
      hide Free, FreeAll, Freeable, C.ExecList, C.Holdings, Platform.Valid;
      HoldingsInOrder();
      FreeImages(TlsTail() + StackTail());
      forall k | 0 <= k < modules.Length {
        modules[k] := NO_BINARY;
      }
      entry, numModules, started, status := 0, 0, 0, Unloaded;
      FreeBuffers();
      tls, stack, stackTop := 0, 0, 0;
    }

    method AddModule(file: nat, size: nat) returns (ret: Ret)
      requires Valid()
      modifies this, modules
      ensures Valid() && C.Out(View(), ret) == C.Add(old(View()), file, size)
    {
      if file == 0 || size == 0 {
        return InvalidArg;
      }
      match status {
        case Corrupt => return VmmCorrupted;
        case Loaded => return VmmInvalidState;
        case Running => return VmmInvalidState;
        case Unloaded =>
      }
      if numModules >= MAX_NUM_MODULES {
        return MaxModulesReached;
      }
      modules[numModules] := modules[numModules].(file := file);
      modules[numModules] := modules[numModules].(fileSize := size);
      numModules := numModules + 1;
      assert modules[..numModules] == old(modules[..numModules]) + [NO_BINARY.(file := file, fileSize := size)];
      return Success;
    }

    static lemma HeldIsFreeable(a: C.Assets, live: multiset<Block>)
      requires C.Held(a) <= live
      ensures Freeable(live, C.Holdings(a))
    {
      hide C.Held, C.Holdings;
      C.HoldingsAreHeld(a);
      LiveIsFreeable(live, C.Holdings(a));
    }

    method Unload() returns (ret: Ret)
      requires Valid() && C.Held(View().g.a) <= platform.m.mem.live
      modifies this, modules, platform, platform.uefi.fw
      ensures Valid() && C.Out(View(), ret) == C.Unload(platform.env, old(View()))
    {
      hide FreeAll, C.Holdings, C.CallVmm, C.Held, Freeable, MemoryOk;
      HeldIsFreeable(View().g.a, platform.m.mem.live);
      match status {
        case Corrupt =>
          return VmmCorrupted;
        case Running =>
          return VmmInvalidState;
        case Unloaded =>
          Reset();
          status := Unloaded;
          return Success;
        case Loaded =>
          ret := CallVmm(Request.Fini);
          if ret != Success {
            status := Corrupt;
            return VmmCorrupted;
          }
          Reset();
          status := Unloaded;
          return Success;
      }
    }

    /** The rest of common_load_vmm: announcing the modules and the TLS block. */
    method AddAll() returns (ret: Ret)
      requires Valid() && tls + tlsSize + MAX_PAGE_SIZE < U64 && C.Held(View().g.a) <= platform.m.mem.live
      modifies this, modules, platform, platform.uefi.fw
      ensures Valid() && C.Out(View(), ret) == C.AnnounceAll(platform.env, old(View()))
    {
      hide C.AnnounceModule, C.AnnounceRange, C.Unload, C.Held, Platform.Valid;
      ghost var a, m0 := View().g.a, platform.m;
      assert a.mods[0..] == a.mods;
      var i := 0;
      while i < numModules
        invariant Valid() && i <= numModules && View() == old(View()).(m := platform.m)
        invariant platform.m.mem == old(platform.m.mem)
        invariant C.AnnounceModules(platform.env, a, platform.m, a.mods[i..])
               == C.AnnounceModules(platform.env, a, m0, a.mods)
      {
        assert a.mods[i..][0] == modules[i] && a.mods[i..][1..] == a.mods[i + 1..];
        ret := AddMd(i);
        if ret != Success {
          var _ := Unload();
          return;
        }
        i := i + 1;
      }
      ret := AddPages(tls, tls + tlsSize, RW);
      if ret != Success {
        return;  // no rollback
      }
      status := Loaded;
    }

    /** A TLS block that was allocated ends at least one page below the top. */
    static lemma TlsEndsBelowTop(e: Env, s: C.State)
      ensures C.SetupTls(e, s).ret == Success ==>
                C.SetupTls(e, s).s.g.a.tls + C.SetupTls(e, s).s.g.a.tlsSize + MAX_PAGE_SIZE < U64
    {
    }

    static lemma SoundHolds(e: Env, s: C.State)
      ensures Sound(e, s) || Inv(e, s) ==> C.Held(s.g.a) <= s.m.mem.live
    {
      hide MemoryOk, C.Held;
    }

    method Load() returns (ret: Ret)
      requires Valid() && Inv(platform.env, View())
      modifies this, modules, platform, platform.uefi.fw
      ensures Valid() && C.Out(View(), ret) == C.Load(platform.env, old(View()))
    {
      hide C.SetupStack, C.SetupTls, C.CallVmm, C.AnnounceAll, C.Unload, BfelfLoad;
      hide Inv, Sound, Ready, StackReady, C.Held, C.TlsHeld, C.StackHeld, C.Execs, Unheld, Files, Platform.Valid;
      match status {
        case Corrupt => return VmmCorrupted;
        case Loaded => return Success;
        case Running => return VmmInvalidState;
        case Unloaded =>
      }
      if numModules == 0 {
        return NoModulesAdded;
      }
      assert View().g.a.mods != [];
      InvIsSound(platform.env, View());
      SetupStackWorks(platform.env, View());
      ret := SetupStack();
      SoundHolds(platform.env, View());
      if ret != Success {
        var _ := Unload();
        return;
      }
      TlsEndsBelowTop(platform.env, View());
      SetupTlsWorks(platform.env, View());
      ret := SetupTls();
      SoundHolds(platform.env, View());
      if ret != Success {
        var _ := Unload();
        return;
      }
      LoadElfWorks(platform.env, View());
      var code;
      entry, code := platform.BfelfLoad(modules, numModules);
      ret := CodeOf(code);
      SoundHolds(platform.env, View());
      if ret != Success {
        var _ := Unload();
        return;
      }
      ret := CallVmm(Request.Init);
      if ret != Success {
        var _ := Unload();
        return;
      }
      ret := AddAll();
    }

    /** The body of the loop of common_stop_vmm. */
    method StopCpu(cpuid: nat) returns (ret: Ret)
      requires Valid() && cpuid + 1 == started
      modifies this, platform, platform.uefi.fw
      ensures Valid() && C.Out(View(), ret) == C.StopOne(platform.env, old(View()))
    {
      hide C.CallVmm, SetAffinity, RestoreAffinity, Vmcall, Platform.Valid;
      var caller := platform.SetAffinity(cpuid);
      if caller < 0 {
        status := Corrupt;
        return External(caller);
      }
      var ok := platform.Vmcall(VmcallStop);
      if !ok {
        return VmmStopFailed;
      }
      ret := CallVmm(VmmFini(cpuid));
      if ret != Success {
        status := Corrupt;
        return;
      }
      started := started - 1;
      platform.RestoreAffinity(caller);
      return Success;
    }

    method Stop() returns (ret: Ret)
      requires Valid()
      modifies this, platform, platform.uefi.fw
      ensures Valid() && C.Out(View(), ret) == C.Stop(platform.env, old(View()))
    {
      hide C.StopOne, Platform.Valid;
      match status {
        case Corrupt => return VmmCorrupted;
        case Loaded => return Success;
        case Unloaded => return VmmInvalidState;
        case Running =>
      }
      var cpuid := started as int - 1;
      while cpuid >= 0
        invariant Valid() && cpuid == started as int - 1
        invariant C.StopLoop(platform.env, View()) == C.StopLoop(platform.env, old(View()))
      {
        ret := StopCpu(cpuid);
        if ret != Success {
          return;
        }
        cpuid := cpuid - 1;
      }
      status := Loaded;
      return Success;
    }

    /** The body of the loop of common_start_vmm. */
    method StartCpu(cpuid: CpuCount) returns (ret: Ret)
      requires Valid()
      modifies this, platform, platform.uefi.fw
      ensures Valid() && C.Out(View(), ret) == C.StartOne(platform.env, old(View()), cpuid)
    {
      hide C.CallVmm, C.Stop, SetAffinity, RestoreAffinity, Vmcall, Platform.Valid;
      var caller := platform.SetAffinity(cpuid);
      if caller < 0 {
        var _ := Stop();
        return External(caller);
      }
      ret := CallVmm(VmmInit(cpuid));
      if ret != Success {
        var _ := Stop();
        return;
      }
      started := started + 1;
      var ok := platform.Vmcall(VmcallStart);
      if !ok {
        return VmmStartFailed;
      }
      platform.RestoreAffinity(caller);
      status := Running;
      return Success;
    }

    method Start() returns (ret: Ret)
      requires Valid()
      modifies this, platform, platform.uefi.fw
      ensures Valid() && C.Out(View(), ret) == C.Start(platform.env, old(View()))
    {
      hide C.StartOne, NumCpus, Platform.Valid;
      match status {
        case Corrupt => return VmmCorrupted;
        case Running => return Success;
        case Unloaded => return VmmInvalidState;
        case Loaded =>
      }
      var cpuid: CpuCount := 0;
      started := 0;
      ghost var s0 := View();
      while true
        invariant Valid()
        invariant C.StartLoop(platform.env, View(), cpuid) == C.StartLoop(platform.env, s0, 0)
        decreases 0x8000_0000_0000_0000 - cpuid
      {
        var n := platform.NumCpus();
        if cpuid >= n {
          return Success;
        }
        ret := StartCpu(cpuid);
        if ret != Success {
          return;
        }
        cpuid := cpuid + 1;
      }
    }

    /** `drr` says whether the caller's pointer is non-null. */
    method Dump(drr: bool, vcpuid: nat) returns (ret: Ret)
      requires Valid()
      modifies platform, platform.uefi.fw
      ensures Valid() && C.Out(View(), ret) == C.Dump(platform.env, old(View()), drr, vcpuid)
    {
      hide C.CallVmm;
      if !drr {
        return InvalidArg;
      }
      if status == Unloaded {
        return VmmInvalidState;
      }
      ret := CallVmm(GetDrr(vcpuid));
    }

    method Finish() returns (ret: Ret)
      requires Valid() && Inv(platform.env, View())
      modifies this, modules, platform, platform.uefi.fw
      ensures Valid() && C.Out(View(), ret) == C.Finish(platform.env, old(View()))
    {
      hide C.Stop, C.Unload, C.Reset, C.Held, C.Holdings, Freeable, Inv, Unheld, StopOutcome, Platform.Valid;
      StopWorks(platform.env, View());
      if status == Running {
        var _ := Stop();
      }
      SoundHolds(platform.env, View());
      UnloadWorks(platform.env, View());
      if status == Loaded {
        var _ := Unload();
      }
      SoundHolds(platform.env, View());
      if status == Corrupt {
        return VmmCorrupted;
      }
      if status == Unloaded && numModules > 0 {
        assert View().g.a.mods != [];
        HeldIsFreeable(View().g.a, platform.m.mem.live);
        Reset();
      }
      return Success;
    }

    /** The next call comes from some processor. */
    method Arrive()
      requires Valid()
      modifies platform
      ensures Valid() && View() == C.Enters(platform.env, old(View()))
    {
      platform.Arrive();
    }

    /** One call of the interface, from whatever processor it comes. */
    method Perform(op: C.Op) returns (ret: Ret)
      requires Valid() && Inv(platform.env, View())
      modifies this, modules, platform, platform.uefi.fw
      ensures Valid() && C.Out(View(), ret) == C.Step(platform.env, old(View()), op)
      ensures Inv(platform.env, View())
    {
      hide C.Add, C.Load, C.Unload, C.Start, C.Stop, C.Dump, C.Finish, C.Held, Inv, Unheld, Platform.Valid;
      StepWorks(platform.env, View(), op);
      EntersKeeps(platform.env, View());
      Arrive();
      SoundHolds(platform.env, View());
      match op {
        case AddOp(file, size) => ret := AddModule(file, size);
        case LoadOp => ret := Load();
        case UnloadOp => ret := Unload();
        case StartOp => ret := Start();
        case StopOp => ret := Stop();
        case DumpOp(drr, vcpuid) => ret := Dump(drr, vcpuid);
        case FiniOp => ret := Finish();
      }
    }
  }
}
