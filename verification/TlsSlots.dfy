/** The thread-local storage of each processor. */
module TlsSlots {
  import opened CommonModel
  import opened Config
  import opened Descriptors
  import opened Invariant
  import opened Lifecycle
  import opened Machine
  import opened Pages
  import opened Safety
  import opened Words

  // ---- One slot for each processor -----------------------------------------------------------

  /** The first byte of the slot of a processor. */
  function SlotStart(tls: nat, cpu: nat): nat {
    tls + THREAD_LOCAL_STORAGE_SIZE * cpu
  }

  /** The slot of `cpu` lies inside a block for n processors exactly when there are more than
      `cpu` of them; slots of different processors do not overlap. */
  lemma SlotLayout(tls: nat, n: nat, cpu: nat, other: nat)
    ensures SlotStart(tls, cpu) + THREAD_LOCAL_STORAGE_SIZE <= tls + THREAD_LOCAL_STORAGE_SIZE * n <==> cpu < n
    ensures cpu < other ==> SlotStart(tls, cpu) + THREAD_LOCAL_STORAGE_SIZE <= SlotStart(tls, other)
  {
    var t := THREAD_LOCAL_STORAGE_SIZE;
    if cpu < n {
      NextMultiple(n, cpu, t);
    } else {
      assert (cpu - n) * t >= 0;
    }
    if cpu < other {
      NextMultiple(other, cpu, t);
    }
  }

  /** After a successful load every byte of the TLS block lies on a page that was delivered as
      readable and writable, whatever the base of the block. */
  lemma TlsIsDelivered(e: Env, s: State, x: nat)
    requires s.g.status == Unloaded && Load(e, s).ret == Success
    requires Load(e, s).s.g.a.tls <= x < Load(e, s).s.g.a.tls + Load(e, s).s.g.a.tlsSize
    ensures Announces(Delivered(s, Load(e, s).s), PageOf(x), RW)
  {
    hide Load, Delivered, PagesOf, Announces, Announcement;
    LoadAnnounces(e, s);
    var a := Load(e, s).s.g.a;
    FloorOrdered(a.tls, x);
    FloorOrdered(x, a.tls + a.tlsSize);
    FloorAligned(x);
    RangeAnnounces(e, TlsRange(a), PageOf(x));
    RangeIsDelivered(e, s, TlsRange(a), PageOf(x));
  }

  /** The inclusive loop over the TLS block announces a page without a byte of the block exactly
      when the block is empty or starts on a page boundary; that page is then the one at its end. */
  lemma TlsPagesAreTight(e: Env, s: State, q: nat)
    requires s.g.status == Unloaded && Load(e, s).ret == Success && q % MAX_PAGE_SIZE == 0
    ensures
      var a := Load(e, s).s.g.a;
      (&& Announces(PagesOf(e, TlsRange(a)), q, RW)
       && !exists x :: a.tls <= x < a.tls + a.tlsSize && PageOf(x) == q)
      <==> if a.tlsSize == 0 then q == PageOf(a.tls) else q == a.tls + a.tlsSize && a.tls % MAX_PAGE_SIZE == 0
  {
    hide Load, Delivered, PagesOf, Announces, Announcement, Floor;
    LoadAnnounces(e, s);
    var a := Load(e, s).s.g.a;
    var end := a.tls + a.tlsSize;
    RangeAnnounces(e, TlsRange(a), q);
    AlignedEnd(a.tls, a.tlsSize);
    FloorOrdered(a.tls, end);
    if a.tlsSize > 0 && PageOf(a.tls) <= q <= PageOf(end) {
      PageHoldsByte(a.tls, end, q);
    }
    if q == end {
      AlignedFloor(q);
    }
  }

  lemma AlignedEnd(tls: nat, size: nat)
    requires size % MAX_PAGE_SIZE == 0
    ensures (tls + size) % MAX_PAGE_SIZE == 0 <==> tls % MAX_PAGE_SIZE == 0
  {
    var c := size / MAX_PAGE_SIZE;
    assert size == c * MAX_PAGE_SIZE;
    FloorShift(tls, c);
  }

  // ---- Runs with a constant number of processors ---------------------------------------------

  /** There are n processors throughout and the firmware can always name the current one. */
  ghost predicate Steady(e: Env, n: nat) {
    && THREAD_LOCAL_STORAGE_SIZE * n < U64
    && forall t :: e.answers(t).cpus == n && e.answers(t).cpu < n && e.answers(t).caller < n
                   && e.answers(t).whoami >= 0
  }

  /** The size setup_tls asks for. */
  function SizeFor(n: nat): nat {
    THREAD_LOCAL_STORAGE_SIZE * n
  }

  predicate KnownCpu(n: nat, ev: Event) {
    ev.Context? ==> 0 <= ev.cpuid < n && ev.tls.len == SizeFor(n)
  }

  predicate On(n: nat, m: Machine) {
    m.cpu < n && forall ev | ev in m.log :: KnownCpu(n, ev)
  }

  predicate Sized(n: nat, s: State) {
    && On(n, s.m)
    && (s.g.a.tls != 0 ==> s.g.a.tlsSize == SizeFor(n))
    && (s.g.status == Running ==> s.g.started <= n)
  }

  lemma CallVmmSteady(e: Env, n: nat, a: Assets, m: Machine, request: Request)
    requires Steady(e, n) && On(n, m) && a.tlsSize == SizeFor(n)
    ensures On(n, CallVmm(e, a, m, request).0)
    ensures CallVmm(e, a, m, request).0.cpu == m.cpu
  {
    hide SizeFor;
    var m1 := LibraryCall(e, m).0;
    assert e.answers(m1.now).whoami >= 0;
  }

  lemma {:induction false} AnnounceRangeSteady(e: Env, n: nat, a: Assets, m: Machine, lo: nat, hi: nat, access: Access)
    requires Steady(e, n) && On(n, m) && a.tlsSize == SizeFor(n)
    ensures On(n, AnnounceRange(e, a, m, lo, hi, access).0)
    decreases if lo <= hi then hi - lo + 1 else 0
  {
    hide CallVmm, On, Steady, SizeFor;
    if lo > hi {
    } else {
      var request := AddMdl(Descriptor(lo, PhysOf(e, lo), access));
      CallVmmSteady(e, n, a, m, request);
      AnnounceRangeSteady(e, n, a, CallVmm(e, a, m, request).0, lo + MAX_PAGE_SIZE, hi, access);
    }
  }

  lemma {:induction false} AnnounceModuleSteady(e: Env, n: nat, a: Assets, m: Machine, b: Binary, k: nat)
    requires Steady(e, n) && On(n, m) && a.tlsSize == SizeFor(n) && k <= |b.segs|
    ensures On(n, AnnounceModule(e, a, m, b, k).0)
    decreases |b.segs| - k
  {
    hide AnnounceRange, Steady, SizeFor;
    if k >= |b.segs| {
    } else {
      var m1 := LibraryCall(e, m).0;
      var seg := b.segs[k];
      AnnounceRangeSteady(e, n, a, m1, SegStart(b, seg), SegEnd(b, seg), AccessOf(seg));
      var m2 := AnnounceRange(e, a, m1, SegStart(b, seg), SegEnd(b, seg), AccessOf(seg)).0;
      AnnounceModuleSteady(e, n, a, m2, b, k + 1);
    }
  }

  lemma {:induction false} AnnounceModulesSteady(e: Env, n: nat, a: Assets, m: Machine, mods: seq<Binary>)
    requires Steady(e, n) && On(n, m) && a.tlsSize == SizeFor(n)
    ensures On(n, AnnounceModules(e, a, m, mods).0)
    decreases mods
  {
    hide AnnounceModule, On, Steady, SizeFor;
    if mods == [] {
    } else {
      AnnounceModuleSteady(e, n, a, m, mods[0], 0);
      AnnounceModulesSteady(e, n, a, AnnounceModule(e, a, m, mods[0], 0).0, mods[1..]);
    }
  }

  lemma {:induction false} FreeAllSteady(n: nat, m: Machine, blocks: seq<Block>, owner: Owner)
    requires On(n, m)
    ensures On(n, FreeAll(m, blocks, owner))
    decreases blocks
  {
    if blocks == [] {
    } else {
      FreeAllSteady(n, Free(m, blocks[0], owner), blocks[1..], owner);
    }
  }

  lemma UnloadSteady(e: Env, n: nat, s: State)
    requires Steady(e, n) && Sized(n, s) && (s.g.status == Loaded ==> s.g.a.tls != 0)
    ensures Sized(n, Unload(e, s).s)
  {
    hide CallVmm, On, Steady, SizeFor, Holdings, FreeAll;
    match s.g.status
    case Loaded =>
      CallVmmSteady(e, n, s.g.a, s.m, Fini);
      FreeAllSteady(n, CallVmm(e, s.g.a, s.m, Fini).0, Holdings(s.g.a), Driver);
    case Unloaded => FreeAllSteady(n, s.m, Holdings(s.g.a), Driver);
    case _ =>
  }

  lemma PrepareSteady(e: Env, n: nat, s: State)
    requires Steady(e, n) && Sized(n, s) && s.g.status == Unloaded
    ensures Sized(n, Prepare(e, s).s)
    ensures Prepare(e, s).s.g.status == Unloaded
    ensures Prepare(e, s).ret == Success ==> Prepare(e, s).s.g.a.tlsSize == SizeFor(n)
  {
    hide LoadImages, CanPlace, StackTop, ContextOf, CallVmm;
    var s1 := SetupStack(e, s).s;
    assert e.answers(s1.m.now).cpus == n;
    var s2 := SetupTls(e, s1).s;
    assert s2.g.a.tlsSize == SizeFor(n);
    var m0 := Tick(s2.m);
    LoadImagesFrame(e, m0, s2.g.a.mods, e.answers(s2.m.now).images);
    var s3 := LoadElf(e, s2).s;
    assert On(n, s3.m);
    CallVmmSteady(e, n, s3.g.a, s3.m, Init);
  }

  lemma AnnounceAllSteady(e: Env, n: nat, s: State)
    requires Steady(e, n) && Sized(n, s) && s.g.status == Unloaded && s.g.a.tlsSize == SizeFor(n)
    ensures Sized(n, AnnounceAll(e, s).s)
  {
    hide AnnounceModules, AnnounceRange, On, Steady, SizeFor, Unload;
    var a := s.g.a;
    AnnounceModulesSteady(e, n, a, s.m, a.mods);
    var (m, ret) := AnnounceModules(e, a, s.m, a.mods);
    UnloadSteady(e, n, s.(m := m));
    AnnounceRangeSteady(e, n, a, m, a.tls, a.tls + a.tlsSize, RW);
  }

  lemma LoadSteady(e: Env, n: nat, s: State)
    requires Steady(e, n) && Sized(n, s)
    ensures Sized(n, Load(e, s).s)
  {
    hide Prepare, AnnounceAll, On, Steady, SizeFor, Unload;
    if s.g.status == Unloaded && s.g.a.mods != [] {
      PrepareSteady(e, n, s);
      var o := Prepare(e, s);
      if o.ret != Success {
        UnloadSteady(e, n, o.s);
      } else {
        AnnounceAllSteady(e, n, o.s);
      }
    }
  }

  /** A switch to processor k and the later switch back stay below n. */
  lemma AffinitySteady(e: Env, n: nat, m: Machine, k: nat)
    requires Steady(e, n) && On(n, m) && k < n
    ensures On(n, SetAffinity(e, m, k).0)
    ensures e.os.Uefi? && SetAffinity(e, m, k).1 >= 0 ==> SetAffinity(e, m, k).1 < n
  {
    assert e.answers(m.now).cpu < n;
  }

  lemma RestoreSteady(e: Env, n: nat, m: Machine, caller: nat)
    requires Steady(e, n) && On(n, m) && (e.os.Uefi? ==> caller < n)
    ensures On(n, RestoreAffinity(e, m, caller))
  {
    assert e.answers(m.now).cpu < n;
  }

  lemma StopOneSteady(e: Env, n: nat, s: State)
    requires Steady(e, n) && On(n, s.m) && s.g.a.tlsSize == SizeFor(n) && 0 < s.g.started <= n
    ensures On(n, StopOne(e, s).s.m)
    ensures StopOne(e, s).s.g.a == s.g.a && StopOne(e, s).s.g.started <= s.g.started
  {
    hide SetAffinity, RestoreAffinity, CallVmm, Steady, SizeFor;
    var cpuid := s.g.started - 1;
    AffinitySteady(e, n, s.m, cpuid);
    var (m1, caller) := SetAffinity(e, s.m, cpuid);
    if caller >= 0 {
      var (m2, ok) := Vmcall(e, m1, VmcallStop);
      if ok {
        CallVmmSteady(e, n, s.g.a, m2, VmmFini(cpuid));
        RestoreSteady(e, n, CallVmm(e, s.g.a, m2, VmmFini(cpuid)).0, caller);
      }
    }
  }

  lemma {:induction false} StopLoopSteady(e: Env, n: nat, s: State)
    requires Steady(e, n) && On(n, s.m) && s.g.a.tlsSize == SizeFor(n) && s.g.started <= n
    ensures On(n, StopLoop(e, s).s.m)
    ensures StopLoop(e, s).s.g.a == s.g.a && StopLoop(e, s).s.g.started <= n
    decreases s.g.started
  {
    hide StopOne, On, Steady, SizeFor;
    if s.g.started <= 0 {
    } else {
      StopOneSteady(e, n, s);
      if StopOne(e, s).ret == Success {
        StopLoopSteady(e, n, StopOne(e, s).s);
      }
    }
  }

  lemma StopSteady(e: Env, n: nat, s: State)
    requires Steady(e, n) && Sized(n, s) && (s.g.status == Running ==> s.g.a.tls != 0)
    ensures Sized(n, Stop(e, s).s)
    ensures Stop(e, s).s.g.a == s.g.a
  {
    hide StopLoop, On, Steady, SizeFor;
    if s.g.status == Running {
      StopLoopSteady(e, n, s);
    }
  }

  lemma StartOneSteady(e: Env, n: nat, s: State, k: nat)
    requires Steady(e, n) && Sized(n, s) && s.g.a.tls != 0 && k < n && s.g.started == k
    ensures Sized(n, StartOne(e, s, k).s)
    ensures StartOne(e, s, k).s.g.a == s.g.a
  {
    hide SetAffinity, RestoreAffinity, CallVmm, Steady, SizeFor, Stop;
    AffinitySteady(e, n, s.m, k);
    var (m1, caller) := SetAffinity(e, s.m, k);
    if caller < 0 {
      StopSteady(e, n, s.(m := m1));
    } else {
      CallVmmSteady(e, n, s.g.a, m1, VmmInit(k));
      var (m2, ret) := CallVmm(e, s.g.a, m1, VmmInit(k));
      if ret != Success {
        StopSteady(e, n, s.(m := m2));
      } else {
        RestoreSteady(e, n, Vmcall(e, m2, VmcallStart).0, caller);
      }
    }
  }

  lemma {:induction false} StartLoopSteady(e: Env, n: nat, s: State, k: CpuCount)
    requires Steady(e, n) && Sized(n, s) && s.g.a.tls != 0 && s.g.started == k
    ensures Sized(n, StartLoop(e, s, k).s)
    decreases 0x8000_0000_0000_0000 - k
  {
    hide StartOne, SizeFor;
    assert e.answers(s.m.now).cpus == n;
    if k >= n {
    } else {
      var s1 := s.(m := NumCpus(e, s.m).0);
      StartOneSteady(e, n, s1, k);
      if StartOne(e, s1, k).ret == Success {
        StartLoopSteady(e, n, StartOne(e, s1, k).s, k + 1);
      }
    }
  }

  lemma FinishSteady(e: Env, n: nat, s: State)
    requires Steady(e, n) && Sized(n, s) && Inv(e, s)
    ensures Sized(n, Finish(e, s).s)
  {
    hide Stop, Unload, On, Steady, SizeFor, FreeAll, Holdings, Inv, Unheld, StopOutcome;
    StatusNeedsTls(e, s);
    StopSteady(e, n, s);
    StopWorks(e, s);
    var s1 := if s.g.status == Running then Stop(e, s).s else s;
    StatusNeedsTls(e, s1);
    UnloadSteady(e, n, s1);
    var s2 := if s1.g.status == Loaded then Unload(e, s1).s else s1;
    FreeAllSteady(n, s2.m, Holdings(s2.g.a), Driver);
  }

  lemma StatusNeedsTls(e: Env, s: State)
    requires Inv(e, s)
    ensures s.g.status != Unloaded ==> s.g.a.tls != 0
  {
  }

  lemma PerformSteady(e: Env, n: nat, s: State, op: Op)
    requires Steady(e, n) && Sized(n, s) && Inv(e, s)
    ensures Sized(n, Perform(e, s, op).s)
  {
    hide Load, Unload, StartLoop, Stop, Finish, CallVmm, Steady, SizeFor, Inv;
    StatusNeedsTls(e, s);
    match op
    case AddOp(_, _) =>
    case LoadOp => LoadSteady(e, n, s);
    case UnloadOp => UnloadSteady(e, n, s);
    case StartOp =>
      if s.g.status == Loaded {
        StartLoopSteady(e, n, s.(g := s.g.(started := 0)), 0);
      }
    case StopOp => StopSteady(e, n, s);
    case DumpOp(drr, vcpuid) =>
      if drr && s.g.status != Unloaded {
        CallVmmSteady(e, n, s.g.a, s.m, GetDrr(vcpuid));
      }
    case FiniOp => FinishSteady(e, n, s);
  }

  lemma EntersSteady(e: Env, n: nat, s: State)
    requires Steady(e, n) && Sized(n, s)
    ensures Sized(n, Enters(e, s))
  {
    assert e.answers(s.m.now).caller < n;
  }

  lemma {:induction false} RunSteady(e: Env, n: nat, s: State, ops: seq<Op>)
    requires Steady(e, n) && Sized(n, s) && Inv(e, s)
    ensures Sized(n, Run(e, s, ops)) && Inv(e, Run(e, s, ops))
    decreases ops
  {
    hide Perform, Sized, Inv, Steady, Enters;
    if ops == [] {
    } else {
      EntersSteady(e, n, s);
      EntersKeeps(e, s);
      PerformSteady(e, n, Enters(e, s), ops[0]);
      StepWorks(e, s, ops[0]);
      RunSteady(e, n, Step(e, s, ops[0]).s, ops[1..]);
    }
  }

  lemma ContextSlot(e: Env, n: nat, ev: Event)
    requires ev.Context? && Safe(e, ev) && KnownCpu(n, ev)
    ensures ev.tlsptr == SlotStart(ev.tls.addr, ev.cpuid)
    ensures ev.tls.addr <= ev.tlsptr && ev.tlsptr + THREAD_LOCAL_STORAGE_SIZE <= ev.tls.addr + ev.tls.len
  {
    hide NamesCpu;
    SlotLayout(ev.tls.addr, n, ev.cpuid, 0);
  }

  /** Whatever is called, every thread context names a processor below the count and points to the
      slot of that processor, inside a TLS block that is alive. */
  lemma EveryContextHasItsSlot(e: Env, n: nat, cpu: nat, ops: seq<Op>, ev: Event)
    requires Steady(e, n) && cpu < n && ev in Run(e, Boot(cpu), ops).m.log && ev.Context?
    ensures 0 <= ev.cpuid < n && ev.tls in ev.live
    ensures ev.tlsptr == SlotStart(ev.tls.addr, ev.cpuid)
    ensures ev.tls.addr <= ev.tlsptr && ev.tlsptr + THREAD_LOCAL_STORAGE_SIZE <= ev.tls.addr + ev.tls.len
  {
    hide Run, MemoryOk, Held, StatusOk, NamesCpu, StackTop;
    BootIsSafe(e, cpu);
    RunSteady(e, n, Boot(cpu), ops);
    ContextSlot(e, n, ev);
  }
}
