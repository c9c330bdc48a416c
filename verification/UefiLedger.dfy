/** The UEFI platform layer under src/common.c: page accounting and the current processor. */
module UefiLedger {
  import opened CommonModel
  import opened Config
  import opened Invariant
  import opened Lifecycle
  import opened Machine
  import opened Safety

  // ---- Page counts ---------------------------------------------------------------------------

  /** A request always gets more bytes than it asks for, by at most one page. */
  lemma PagesExceedLength(len: nat)
    ensures len < Pages(len) * EFI_PAGE_SIZE <= len + EFI_PAGE_SIZE
  {
  }

  /** The pages of all blocks in a ledger. */
  ghost function PageSum(live: multiset<Block>): nat
    decreases |live|
  {
    if live == multiset{} then 0
    else
      var b :| b in live;
      Pages(b.len) + PageSum(live - multiset{b})
  }

  lemma PageSumPick(live: multiset<Block>) returns (c: Block)
    requires live != multiset{}
    ensures c in live && PageSum(live) == Pages(c.len) + PageSum(live - multiset{c})
  {
    c :| c in live && PageSum(live) == Pages(c.len) + PageSum(live - multiset{c});
  }

  lemma TakeBoth(live: multiset<Block>, b: Block, c: Block)
    requires b in live && c in live
    ensures live - multiset{c} - multiset{b} == live - multiset{b} - multiset{c}
    ensures |live - multiset{b}| < |live| && |live - multiset{c}| < |live|
  {
  }

  lemma {:induction false} PageSumRemove(live: multiset<Block>, b: Block)
    requires b in live
    ensures PageSum(live) == Pages(b.len) + PageSum(live - multiset{b})
    decreases |live|
  {
    var c := PageSumPick(live);
    hide PageSum;
    if c != b {
      assert b in live - multiset{c} && c in live - multiset{b};
      TakeBoth(live, b, c);
      PageSumRemove(live - multiset{c}, b);
      PageSumRemove(live - multiset{b}, c);
    }
  }

  lemma PageSumAdd(live: multiset<Block>, b: Block)
    ensures PageSum(live + multiset{b}) == PageSum(live) + Pages(b.len)
  {
    PageSumRemove(live + multiset{b}, b);
    assert live + multiset{b} - multiset{b} == live;
  }

  lemma {:induction false} PageSumUnion(a: multiset<Block>, b: multiset<Block>)
    ensures PageSum(a + b) == PageSum(a) + PageSum(b)
    decreases |b|
  {
    if b == multiset{} {
      assert a + b == a;
    } else {
      var x :| x in b;
      PageSumRemove(b, x);
      PageSumUnion(a, b - multiset{x});
      PageSumAdd(a + (b - multiset{x}), x);
      assert a + b == a + (b - multiset{x}) + multiset{x};
    }
  }

  /** The pages out and not back are the pages of the live blocks. */
  ghost predicate Balanced(mem: Ledger) {
    mem.pagesOut == mem.pagesBack + PageSum(mem.live)
  }

  lemma PlaceBalanced(m: Machine, b: Block)
    requires Balanced(m.mem)
    ensures Balanced(Place(m, b).mem)
  {
    PageSumAdd(m.mem.live, b);
  }

  lemma {:induction false} FreeAllBalanced(m: Machine, blocks: seq<Block>, owner: Owner)
    requires Balanced(m.mem)
    ensures Balanced(FreeAll(m, blocks, owner).mem)
    decreases blocks
  {
    hide PageSum;
    if blocks == [] {
    } else {
      var b := blocks[0];
      if b in m.mem.live {
        PageSumRemove(m.mem.live, b);
      } else {
        assert m.mem.live - multiset{b} == m.mem.live;
      }
      FreeAllBalanced(Free(m, b, owner), blocks[1..], owner);
    }
  }

  lemma AllocBalanced(e: Env, m: Machine, len: nat, kind: Kind)
    requires Balanced(m.mem)
    ensures Balanced(Alloc(e, m, len, kind).0.mem)
  {
    hide PageSum, CanPlace;
    PlaceBalanced(Tick(m), Block(e.answers(m.now).addr, len, kind));
  }

  lemma {:induction false} LoadImagesBalanced(e: Env, m: Machine, mods: seq<Binary>, images: seq<Image>)
    requires Balanced(m.mem)
    ensures Balanced(LoadImages(e, m, mods, images).0.mem)
    decreases mods
  {
    hide PageSum, CanPlace;
    if mods == [] {
    } else {
      var image := if images == [] then NoImage else images[0];
      if image.Fresh? {
        PlaceBalanced(m, Block(image.addr, image.size, Rwe));
      }
      LoadImagesBalanced(e, LoadImage(e, m, mods[0], image).0, mods[1..], if images == [] then [] else images[1..]);
    }
  }

  lemma PrepareBalanced(e: Env, s: State)
    requires Balanced(s.m.mem)
    ensures Balanced(Prepare(e, s).s.m.mem)
  {
    hide Balanced, LoadImages, Alloc, ContextOf, StackTop;
    AllocBalanced(e, s.m, 2 * STACK_SIZE, Rw);
    var s1 := SetupStack(e, s).s;
    AllocBalanced(e, NumCpus(e, s1.m).0, SetupTls(e, s1).s.g.a.tlsSize, Rw);
    var s2 := SetupTls(e, s1).s;
    var m0 := Tick(s2.m);
    assert m0.mem == s2.m.mem;
    LoadImagesBalanced(e, m0, s2.g.a.mods, e.answers(s2.m.now).images);
  }

  lemma UnloadBalanced(e: Env, s: State)
    requires Balanced(s.m.mem)
    ensures Balanced(Unload(e, s).s.m.mem)
  {
    hide Balanced, ContextOf, Holdings, FreeAll;
    var m := CallVmm(e, s.g.a, s.m, Fini).0;
    assert m.mem == s.m.mem;
    FreeAllBalanced(m, Holdings(s.g.a), Driver);
    FreeAllBalanced(s.m, Holdings(s.g.a), Driver);
  }

  lemma AnnounceAllBalanced(e: Env, s: State)
    requires Balanced(s.m.mem) && Ready(s.g.a, s.m.mem.live) && SafeLog(e, s.m.log)
    ensures Balanced(AnnounceAll(e, s).s.m.mem)
  {
    hide Balanced, AnnounceModules, AnnounceRange, Unload, Ready, SafeLog;
    var a := s.g.a;
    AnnounceModulesKeeps(e, a, s.m, a.mods);
    var (m, ret) := AnnounceModules(e, a, s.m, a.mods);
    UnloadBalanced(e, s.(m := m));
    AnnounceRangeKeeps(e, a, m, a.tls, a.tls + a.tlsSize, RW);
  }

  lemma LoadBalanced(e: Env, s: State)
    requires Balanced(s.m.mem) && Inv(e, s)
    ensures Balanced(Load(e, s).s.m.mem)
  {
    hide Balanced, Prepare, AnnounceAll, Unload, Inv, Sound, Ready, Unheld, Held, SafeLog;
    if s.g.status == Unloaded && s.g.a.mods != [] {
      InvIsSound(e, s);
      PrepareBalanced(e, s);
      PrepareWorks(e, s);
      var o := Prepare(e, s);
      if o.ret == Success {
        SoundLog(e, o.s);
        AnnounceAllBalanced(e, o.s);
      } else {
        UnloadBalanced(e, o.s);
      }
    }
  }

  lemma FinishBalanced(e: Env, s: State)
    requires Balanced(s.m.mem) && Inv(e, s)
    ensures Balanced(Finish(e, s).s.m.mem)
  {
    hide Balanced, Stop, Unload, Inv, FreeAll, Holdings, Unheld, Down, CpusBelow;
    StopWorks(e, s);
    var s1 := if s.g.status == Running then Stop(e, s).s else s;
    UnloadBalanced(e, s1);
    var s2 := if s1.g.status == Loaded then Unload(e, s1).s else s1;
    FreeAllBalanced(s2.m, Holdings(s2.g.a), Driver);
  }

  lemma PerformBalanced(e: Env, s: State, op: Op)
    requires Balanced(s.m.mem) && Inv(e, s)
    ensures Balanced(Perform(e, s, op).s.m.mem)
  {
    hide Balanced, Load, Unload, StartLoop, StopLoop, Finish, ContextOf, Inv, Unheld, Up, Down, CpusBelow;
    match op
    case AddOp(_, _) =>
    case LoadOp => LoadBalanced(e, s);
    case UnloadOp => UnloadBalanced(e, s);
    case StartOp => var j := StartWorks(e, s);
    case StopOp => StopWorks(e, s);
    case DumpOp(_, _) =>
    case FiniOp => FinishBalanced(e, s);
  }

  lemma {:induction false} RunBalanced(e: Env, s: State, ops: seq<Op>)
    requires Balanced(s.m.mem) && Inv(e, s)
    ensures Balanced(Run(e, s, ops).m.mem)
    decreases ops
  {
    hide Balanced, Perform, Inv, Unheld;
    if ops == [] {
    } else {
      EntersKeeps(e, s);
      PerformBalanced(e, Enters(e, s), ops[0]);
      StepWorks(e, s, ops[0]);
      RunBalanced(e, Step(e, s, ops[0]).s, ops[1..]);
    }
  }

  /** Over any run, the pages handed out are those given back and those the driver still holds,
      exactly when no load was a retry. */
  lemma PagesAreConserved(e: Env, cpu: nat, ops: seq<Op>)
    ensures
      var s := Run(e, Boot(cpu), ops);
      s.m.mem.pagesOut == s.m.mem.pagesBack + PageSum(Held(s.g.a)) <==> NoRetry(e, Boot(cpu), ops)
  {
    hide Inv, Run, NoRetry, Held, Unheld, PageSum, Boot;
    BootIsSafe(e, cpu);
    EveryRunIsSafe(e, Boot(cpu), ops);
    LossAlongRun(e, Boot(cpu), ops);
    BootBalanced(cpu);
    RunBalanced(e, Boot(cpu), ops);
    var s := Run(e, Boot(cpu), ops);
    HeldIsLive(e, s);
    PageSumUnion(Held(s.g.a), Unheld(s));
    PageSumZero(Unheld(s));
  }

  lemma BootBalanced(cpu: nat)
    ensures Balanced(Boot(cpu).m.mem)
  {
  }

  lemma PageSumZero(live: multiset<Block>)
    ensures PageSum(live) == 0 <==> live == multiset{}
  {
    if live != multiset{} {
      var b :| b in live;
      PageSumRemove(live, b);
    }
  }

  // ---- The current processor -----------------------------------------------------------------

  /** UEFI with processor switches that always succeed. */
  ghost predicate Switches(e: Env) {
    e.os.Uefi? && forall t :: e.answers(t).whoami >= 0 && e.answers(t).enableAp && e.answers(t).affinity >= 0
  }

  /** A stop that succeeds ends on the processor it was called on; one that is refused stays on the
      processor that refused. */
  lemma {:induction false} StopRestoresCpu(e: Env, s: State)
    requires Switches(e)
    ensures StopLoop(e, s).ret == Success ==> StopLoop(e, s).s.m.cpu == s.m.cpu
    ensures StopLoop(e, s).ret == VmmStopFailed ==> StopLoop(e, s).s.m.cpu == StopLoop(e, s).s.g.started - 1
    decreases s.g.started
  {
    if s.g.started <= 0 {
    } else {
      StopOneRestoresCpu(e, s);
      hide StopOne;
      var o := StopOne(e, s);
      if o.ret == Success {
        StopRestoresCpu(e, o.s);
      }
    }
  }

  lemma StopOneRestoresCpu(e: Env, s: State)
    requires Switches(e) && s.g.started > 0
    ensures StopOne(e, s).ret == Success ==> StopOne(e, s).s.m.cpu == s.m.cpu
    ensures StopOne(e, s).ret == VmmStopFailed ==>
              StopOne(e, s).s.m.cpu == s.g.started - 1 && StopOne(e, s).s.g == s.g
  {
    hide CallVmm;
    var cpuid := s.g.started - 1;
    var m2 := Vmcall(e, SetAffinity(e, s.m, cpuid).0, VmcallStop).0;
    CallVmmFrame(e, s.g.a, m2, VmmFini(cpuid));
    assert e.answers(CallVmm(e, s.g.a, m2, VmmFini(cpuid)).0.now).affinity >= 0;
  }

  lemma StartOneRestoresCpu(e: Env, s: State, k: nat)
    requires Switches(e)
    ensures StartOne(e, s, k).ret == Success ==> StartOne(e, s, k).s.m.cpu == s.m.cpu
  {
    hide CallVmm, Stop;
    var m1 := SetAffinity(e, s.m, k).0;
    CallVmmFrame(e, s.g.a, m1, VmmInit(k));
    var m3 := Vmcall(e, CallVmm(e, s.g.a, m1, VmmInit(k)).0, VmcallStart).0;
    assert e.answers(m3.now).affinity >= 0;
  }

  lemma {:induction false} StartLoopRestoresCpu(e: Env, s: State, k: CpuCount)
    requires Switches(e) && StartLoop(e, s, k).ret == Success
    ensures StartLoop(e, s, k).s.m.cpu == s.m.cpu
    decreases 0x8000_0000_0000_0000 - k
  {
    hide StartOne;
    var (m, n) := NumCpus(e, s.m);
    if k >= n {
    } else {
      StartOneRestoresCpu(e, s.(m := m), k);
      StartLoopRestoresCpu(e, StartOne(e, s.(m := m), k).s, k + 1);
    }
  }

  /** For any processor count, a start or stop that succeeds leaves the caller on the processor it
      came from. */
  lemma CallerKeepsProcessor(e: Env, s: State)
    requires Switches(e)
    ensures Start(e, s).ret == Success ==> Start(e, s).s.m.cpu == s.m.cpu
    ensures Stop(e, s).ret == Success ==> Stop(e, s).s.m.cpu == s.m.cpu
  {
    hide StartLoop, StopLoop;
    if s.g.status == Loaded && Start(e, s).ret == Success {
      StartLoopRestoresCpu(e, s.(g := s.g.(started := 0)), 0);
    }
    StopRestoresCpu(e, s);
  }

  /** A start refused by the VMM on processor j leaves the caller there, whatever the platform. */
  lemma RefusedStartStaysOnProcessor(e: Env, s: State)
    requires Inv(e, s) && s.g.status == Loaded && Start(e, s).ret == VmmStartFailed
    ensures Start(e, s).s.m.cpu == Start(e, s).s.g.started - 1
  {
    hide Start, Inv, Up, Down, CpusBelow;
    var j := StartWorks(e, s);
  }
}
