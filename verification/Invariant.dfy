/** The invariant over every run of the driver, and where memory can be lost. */
module Invariant {
  import opened CommonModel
  import opened Config
  import opened Lifecycle
  import opened Machine
  import opened Safety
  import opened Words

  // ---- Reset and unload ----------------------------------------------------------------------

  /** The invariant without what it says about the pointers; holds throughout a load. */
  predicate Sound(e: Env, s: State) {
    && MemoryOk(s.m.mem.live)
    && Held(s.g.a) <= s.m.mem.live
    && |s.g.a.mods| <= MAX_NUM_MODULES
    && SafeLog(e, s.m.log)
    && Idle(s.g, s.m.launched)
  }

  lemma SoundLog(e: Env, s: State)
    requires Sound(e, s)
    ensures SafeLog(e, s.m.log)
  {
    hide SafeLog, MemoryOk, Held;
  }

  /** After common_reset the driver holds nothing, and what it held is no longer alive. */
  lemma ResetWorks(e: Env, s: State)
    requires Sound(e, s)
    ensures
      var s' := Reset(s);
      && Inv(e, s') && s'.g.status == Unloaded && Held(s'.g.a) == multiset{} && s'.g.a.mods == []
      && s'.m.mem.live == Unheld(s) == Unheld(s') && s'.m.cpuEvents == s.m.cpuEvents
      && s'.m.launched == {} && s'.g.a.stack == 0
  {
    HoldingsAreHeld(s.g.a);
    FreeAllKeeps(e, s.m, Holdings(s.g.a), Driver, Unheld(s));
  }

  /** What common_unload_vmm does in each state of the VMM. */
  lemma UnloadCases(e: Env, s: State)
    ensures
      var o := Unload(e, s);
      match s.g.status
      case Unloaded => o == Out(Reset(s), Success)
      case Loaded =>
        && o.s.m.launched == s.m.launched
        && if o.ret == Success then o.s.g == Reset(s).g && !o.s.m.initialised
           else o.ret == VmmCorrupted && o.s.g == s.g.(status := Corrupt) && o.s.m.initialised == s.m.initialised
      case Running => o == Out(s, VmmInvalidState)
      case Corrupt => o == Out(s, VmmCorrupted)
  {
    hide CallVmm, FreeAll, Holdings;
    CallVmmFrame(e, s.g.a, s.m, Fini);
    FreeAllFrame(CallVmm(e, s.g.a, s.m, Fini).0, Holdings(s.g.a), Driver);
  }

  lemma UnloadWorks(e: Env, s: State)
    requires Inv(e, s) || (Sound(e, s) && s.g.status == Unloaded)
    ensures
      var o := Unload(e, s);
      && Inv(e, o.s) && Unheld(o.s) == Unheld(s) && o.s.m.cpuEvents == s.m.cpuEvents
      && (o.ret == Success ==> o.s.g.status == Unloaded && o.s.m.mem.live == Unheld(s)
                               && o.s.g.a.mods == [] && o.s.g.a.stack == 0)
  {
    hide CallVmm, Reset, Held, Ready, SafeLog, MemoryOk;
    match s.g.status
    case Unloaded => ResetWorks(e, s);
    case Loaded =>
      CallVmmKeeps(e, s.g.a, s.m, Fini);
      var (m, ret) := CallVmm(e, s.g.a, s.m, Fini);
      if ret == Success {
        ResetWorks(e, s.(m := m));
      }
    case _ =>
  }

  lemma HeldIsLive(e: Env, s: State)
    requires Inv(e, s)
    ensures s.m.mem.live == Held(s.g.a) + Unheld(s)
  {
    hide Held, MemoryOk;
  }

  // ---- Load ----------------------------------------------------------------------------------

  predicate StackReady(a: Assets, live: multiset<Block>) {
    && a.stack != 0 && a.stackSize == 2 * STACK_SIZE && a.stack + a.stackSize < U64
    && a.stackTop == StackTop(a.stack) && StackBlock(a) in live
  }

  /** Overwriting a pointer: `new` is freshly alive, `old` is alive but no longer held. */
  lemma Overwrite(live: multiset<Block>, others: multiset<Block>, old_: multiset<Block>, new_: multiset<Block>)
    requires others + old_ <= live
    ensures others + new_ <= live + new_
    ensures live + new_ - (others + new_) == live - (others + old_) + old_
  {
  }

  lemma AllocWorks(e: Env, m: Machine, len: nat, kind: Kind)
    requires MemoryOk(m.mem.live)
    ensures
      var (m', addr) := Alloc(e, m, len, kind);
      && MemoryOk(m'.mem.live)
      && m'.mem.live == m.mem.live + (if addr != 0 then multiset{Block(addr, len, kind)} else multiset{})
      && m'.launched == m.launched && m'.log == m.log && m'.cpuEvents == m.cpuEvents
      && (addr != 0 ==> addr + len < U64)
  {
    var b := Block(e.answers(m.now).addr, len, kind);
    if CanPlace(e, m.mem.live, b) {
      PlaceKeepsMemory(e, Tick(m), b);
    }
  }

  lemma StackOverwritten(s: State, s': State)
    requires s'.g.a.mods == s.g.a.mods && TlsHeld(s'.g.a) == TlsHeld(s.g.a)
    requires Held(s.g.a) <= s.m.mem.live && s'.m.mem.live == s.m.mem.live + StackHeld(s'.g.a)
    ensures Held(s'.g.a) <= s'.m.mem.live && Unheld(s') == Unheld(s) + StackHeld(s.g.a)
  {
    hide Execs, TlsHeld, StackHeld;
    Overwrite(s.m.mem.live, Execs(s.g.a.mods) + TlsHeld(s.g.a), StackHeld(s.g.a), StackHeld(s'.g.a));
  }

  /** The old stack pointer is overwritten: whatever it referred to is no longer held. */
  lemma SetupStackWorks(e: Env, s: State)
    requires Sound(e, s)
    ensures
      var o := SetupStack(e, s);
      && Sound(e, o.s) && o.s.g.status == s.g.status && o.s.m.cpuEvents == s.m.cpuEvents
      && Unheld(o.s) == Unheld(s) + StackHeld(s.g.a)
      && o.s.g.a.mods == s.g.a.mods && TlsHeld(o.s.g.a) == TlsHeld(s.g.a)
      && (o.ret == Success ==> StackReady(o.s.g.a, o.s.m.mem.live))
  {
    hide Alloc, MemoryOk, SafeLog, StackTop, Execs, Held, Unheld;
    AllocWorks(e, s.m, 2 * STACK_SIZE, Rw);
    StackOverwritten(s, SetupStack(e, s).s);
  }

  /** So is the old TLS pointer. */
  lemma SetupTlsWorks(e: Env, s: State)
    requires Sound(e, s) && StackReady(s.g.a, s.m.mem.live)
    ensures
      var o := SetupTls(e, s);
      && Sound(e, o.s) && o.s.g.status == s.g.status && o.s.m.cpuEvents == s.m.cpuEvents
      && Unheld(o.s) == Unheld(s) + TlsHeld(s.g.a)
      && o.s.g.a.mods == s.g.a.mods
      && (o.ret == Success ==> Ready(o.s.g.a, o.s.m.mem.live))
  {
    var o := SetupTls(e, s);
    var others := Execs(s.g.a.mods) + StackHeld(s.g.a);
    Overwrite(s.m.mem.live, others, TlsHeld(s.g.a), TlsHeld(o.s.g.a));
    assert Held(s.g.a) == others + TlsHeld(s.g.a);
    assert Held(o.s.g.a) == others + TlsHeld(o.s.g.a);
    AllocWorks(e, NumCpus(e, s.m).0, o.s.g.a.tlsSize, Rw);
  }

  /** Memory is never double-booked by the ELF loader. Images it overwrites are no longer held. */
  predicate Reloaded(m: Machine, m': Machine, before: multiset<Block>, after: multiset<Block>,
                     others: multiset<Block>) {
    && MemoryOk(m'.mem.live) && m' == m.(mem := m'.mem)
    && after + others <= m'.mem.live
    && m.mem.live - (before + others) <= m'.mem.live - (after + others)
    && (before == multiset{} ==> m.mem.live - (before + others) == m'.mem.live - (after + others))
  }

  lemma LoadImageWorks(e: Env, m: Machine, b: Binary, image: Image, others: multiset<Block>)
    requires MemoryOk(m.mem.live) && ExecOf(b) + others <= m.mem.live
    ensures
      var (m', b') := LoadImage(e, m, b, image);
      Reloaded(m, m', ExecOf(b), ExecOf(b'), others)
  {
    hide MemoryOk, SegmentsWithin, Reloaded;
    match image
    case Keep => NotReloaded(m, ExecOf(b), others);
    case NoImage => ReloadedBy(m, m, ExecOf(b), multiset{}, others);
    case Fresh(addr, size, segs) =>
      ReloadedBy(m, m, ExecOf(b), multiset{}, others);
      var block := Block(addr, size, Rwe);
      if CanPlace(e, m.mem.live, block) {
        PlaceKeepsMemory(e, m, block);
        ReloadedBy(m, Place(m, block), ExecOf(b), multiset{block}, others);
      }
  }

  lemma NotReloaded(m: Machine, held: multiset<Block>, others: multiset<Block>)
    requires MemoryOk(m.mem.live) && held + others <= m.mem.live
    ensures Reloaded(m, m, held, held, others)
  {
    hide MemoryOk;
  }

  lemma ReloadedBy(m: Machine, m': Machine, before: multiset<Block>, after: multiset<Block>, others: multiset<Block>)
    requires MemoryOk(m'.mem.live) && m' == m.(mem := m'.mem)
    requires before + others <= m.mem.live && m'.mem.live == m.mem.live + after
    ensures Reloaded(m, m', before, after, others)
  {
    hide MemoryOk;
  }

  lemma {:induction false} LoadImagesWorks(e: Env, m: Machine, mods: seq<Binary>, images: seq<Image>,
                                           others: multiset<Block>)
    requires MemoryOk(m.mem.live) && Execs(mods) + others <= m.mem.live
    ensures
      var (m', mods') := LoadImages(e, m, mods, images);
      Reloaded(m, m', Execs(mods), Execs(mods'), others)
    decreases mods
  {
    if mods == [] {
    } else {
      var image := if images == [] then NoImage else images[0];
      var images' := if images == [] then [] else images[1..];
      var (m1, b) := LoadImage(e, m, mods[0], image);
      var (m2, tail) := LoadImages(e, m1, mods[1..], images');
      var b0, rest := ExecOf(mods[0]), Execs(mods[1..]);
      assert Execs(mods) == b0 + rest;
      LoadImageWorks(e, m, mods[0], image, rest + others);
      assert rest + (ExecOf(b) + others) == ExecOf(b) + (rest + others);
      LoadImagesWorks(e, m1, mods[1..], images', ExecOf(b) + others);
      ReloadCompose(m, m1, m2, b0, ExecOf(b), rest, Execs(tail), others);
      ExecsOfCons(b, tail);
      assert LoadImages(e, m, mods, images) == (m2, [b] + tail);
    }
  }

  lemma {:induction false} LoadImagesFiles(e: Env, m: Machine, mods: seq<Binary>, images: seq<Image>)
    ensures Files(LoadImages(e, m, mods, images).1) == Files(mods)
    decreases mods
  {
    if mods == [] {
    } else {
      var image := if images == [] then NoImage else images[0];
      var images' := if images == [] then [] else images[1..];
      var (m1, b) := LoadImage(e, m, mods[0], image);
      LoadImagesFiles(e, m1, mods[1..], images');
      var tail := LoadImages(e, m1, mods[1..], images').1;
      assert Files([b] + tail) == [FileOf(b)] + Files(tail);
      assert Files(mods) == [FileOf(mods[0])] + Files(mods[1..]);
    }
  }

  lemma ExecsOfCons(b: Binary, rest: seq<Binary>)
    ensures Execs([b] + rest) == ExecOf(b) + Execs(rest)
  {
    assert ([b] + rest)[1..] == rest;
  }

  lemma ReloadCompose(m: Machine, m1: Machine, m2: Machine, b0: multiset<Block>, b1: multiset<Block>,
                      r0: multiset<Block>, r1: multiset<Block>, others: multiset<Block>)
    requires Reloaded(m, m1, b0, b1, r0 + others)
    requires Reloaded(m1, m2, r0, r1, b1 + others)
    ensures Reloaded(m, m2, b0 + r0, b1 + r1, others)
  {
    assert b0 + (r0 + others) == (b0 + r0) + others;
    assert b1 + (r0 + others) == r0 + (b1 + others);
    assert r1 + (b1 + others) == (b1 + r1) + others;
    if b0 + r0 == multiset{} {
      assert b0 <= b0 + r0 && r0 <= b0 + r0;
    }
  }

  lemma HeldSplit(a: Assets)
    ensures Held(a) == Execs(a.mods) + (TlsHeld(a) + StackHeld(a))
    ensures a.stack != 0 ==> StackBlock(a) in Held(a)
    ensures a.tls != 0 ==> TlsBlock(a) in Held(a)
  {
  }

  lemma LoadElfWorks(e: Env, s: State)
    requires Sound(e, s) && Ready(s.g.a, s.m.mem.live)
    ensures
      var o := LoadElf(e, s);
      && Sound(e, o.s) && o.s.g.status == s.g.status && o.s.m.cpuEvents == s.m.cpuEvents
      && Unheld(s) <= Unheld(o.s)
      && (Execs(s.g.a.mods) == multiset{} ==> Unheld(s) == Unheld(o.s))
      && Files(o.s.g.a.mods) == Files(s.g.a.mods) && |o.s.g.a.mods| == |s.g.a.mods|
      && Ready(o.s.g.a, o.s.m.mem.live)
  {
    var o := LoadElf(e, s);
    var answer := e.answers(s.m.now);
    var m0 := Tick(s.m);
    var others := TlsHeld(s.g.a) + StackHeld(s.g.a);
    HeldSplit(s.g.a);
    HeldSplit(o.s.g.a);
    LoadImagesWorks(e, m0, s.g.a.mods, answer.images, others);
    LoadImagesFiles(e, m0, s.g.a.mods, answer.images);
  }

  lemma LoadAndInitWorks(e: Env, s: State)
    requires Sound(e, s) && Ready(s.g.a, s.m.mem.live)
    ensures
      var o := LoadAndInit(e, s);
      && Sound(e, o.s) && o.s.g.status == s.g.status && o.s.m.cpuEvents == s.m.cpuEvents
      && Unheld(s) <= Unheld(o.s)
      && (Execs(s.g.a.mods) == multiset{} ==> Unheld(s) == Unheld(o.s))
      && |o.s.g.a.mods| == |s.g.a.mods|
      && (o.ret == Success ==> Ready(o.s.g.a, o.s.m.mem.live) && o.s.g.a.entry != 0)
  {
    LoadElfWorks(e, s);
    var o := LoadElf(e, s);
    if o.ret == Success {
      CallVmmKeeps(e, o.s.g.a, o.s.m, Init);
    }
  }

  lemma TlsAndElfWork(e: Env, s: State)
    requires Sound(e, s) && StackReady(s.g.a, s.m.mem.live)
    ensures
      var o := TlsAndElf(e, s);
      && Sound(e, o.s) && o.s.g.status == s.g.status && o.s.m.cpuEvents == s.m.cpuEvents
      && Unheld(s) <= Unheld(o.s)
      && (Execs(s.g.a.mods) == TlsHeld(s.g.a) == multiset{} ==> Unheld(s) == Unheld(o.s))
      && |o.s.g.a.mods| == |s.g.a.mods|
      && (o.ret == Success ==> Ready(o.s.g.a, o.s.m.mem.live) && o.s.g.a.entry != 0)
  {
    SetupTlsWorks(e, s);
    var o := SetupTls(e, s);
    if o.ret == Success {
      LoadAndInitWorks(e, o.s);
      Transitive(Unheld(s), TlsHeld(s.g.a), Unheld(TlsAndElf(e, s).s));
    }
  }

  lemma Transitive(a: multiset<Block>, b: multiset<Block>, c: multiset<Block>)
    ensures a + b <= c ==> a <= c
  {
    assert a <= a + b;
  }

  lemma PrepareWorks(e: Env, s: State)
    requires Sound(e, s) && s.g.status == Unloaded
    ensures
      var o := Prepare(e, s);
      && Sound(e, o.s) && o.s.g.status == Unloaded && o.s.m.cpuEvents == s.m.cpuEvents
      && Unheld(s) + StackHeld(s.g.a) <= Unheld(o.s)
      && (Held(s.g.a) == multiset{} ==> Unheld(o.s) == Unheld(s))
      && |o.s.g.a.mods| == |s.g.a.mods|
      && (o.ret == Success ==> Ready(o.s.g.a, o.s.m.mem.live) && o.s.g.a.entry != 0)
  {
    SetupStackWorks(e, s);
    NothingHeld(s.g.a);
    var o := SetupStack(e, s);
    if o.ret == Success {
      TlsAndElfWork(e, o.s);
    }
  }

  lemma NothingHeld(a: Assets)
    ensures Held(a) == multiset{} ==> Execs(a.mods) == TlsHeld(a) == StackHeld(a) == multiset{}
  {
    assert Execs(a.mods) <= Held(a) && TlsHeld(a) <= Held(a) && StackHeld(a) <= Held(a);
  }

  lemma KeptState(e: Env, s: State, m': Machine)
    requires Sound(e, s) && Kept(e, s.m, m')
    ensures Sound(e, s.(m := m')) && Unheld(s.(m := m')) == Unheld(s)
  {
  }

  lemma FinishedWorks(e: Env, s: State, m: Machine, ret: Ret)
    requires Sound(e, s) && s.g.status == Unloaded && Ready(s.g.a, s.m.mem.live) && s.g.a.entry != 0
    requires s.g.a.mods != []
    requires Kept(e, s.m, m)
    ensures Inv(e, Finished(s.(m := m), ret).s)
    ensures SameHoldings(s, Finished(s.(m := m), ret).s)
    ensures Finished(s.(m := m), ret).s.m.cpuEvents == s.m.cpuEvents
  {
  }

  lemma AnnounceTlsWorks(e: Env, s: State)
    requires Sound(e, s) && s.g.status == Unloaded && Ready(s.g.a, s.m.mem.live) && s.g.a.entry != 0
    requires s.g.a.mods != []
    ensures Inv(e, AnnounceTls(e, s).s)
    ensures SameHoldings(s, AnnounceTls(e, s).s)
    ensures AnnounceTls(e, s).s.m.cpuEvents == s.m.cpuEvents
  {
    hide AnnounceRange, Finished, Inv, Ready, SafeLog, MemoryOk, Held, SameHoldings;
    var a := s.g.a;
    AnnounceRangeKeeps(e, a, s.m, a.tls, a.tls + a.tlsSize, RW);
    var (m, ret) := AnnounceRange(e, a, s.m, a.tls, a.tls + a.tlsSize, RW);
    FinishedWorks(e, s, m, ret);
  }

  lemma AnnounceAllWorks(e: Env, s: State)
    requires Sound(e, s) && s.g.status == Unloaded && Ready(s.g.a, s.m.mem.live) && s.g.a.entry != 0
    requires s.g.a.mods != []
    ensures
      var o := AnnounceAll(e, s);
      && Inv(e, o.s) && Unheld(o.s) == Unheld(s) && o.s.m.cpuEvents == s.m.cpuEvents
  {
    AnnounceModulesKeeps(e, s.g.a, s.m, s.g.a.mods);
    var (m, ret) := AnnounceModules(e, s.g.a, s.m, s.g.a.mods);
    KeptState(e, s, m);
    if ret != Success {
      UnloadWorks(e, s.(m := m));
    } else {
      AnnounceTlsWorks(e, s.(m := m));
    }
  }

  /** A load from a state left behind by a load that failed on the TLS pages. */
  predicate Retry(s: State) {
    s.g.status == Unloaded && s.g.a.stack != 0 && s.g.a.mods != []
  }

  lemma LoadStarts(e: Env, s: State)
    requires Inv(e, s) && s.g.status == Unloaded
    ensures Sound(e, s)
    ensures s.g.a.stack == 0 || s.g.a.mods == [] ==> Held(s.g.a) == multiset{}
    ensures s.g.a.stack != 0 ==> StackHeld(s.g.a) == multiset{StackBlock(s.g.a)}
    ensures Held(s.g.a) == multiset{} ==> StackHeld(s.g.a) == multiset{}
  {
    NothingHeld(s.g.a);
  }

  /** A load loses memory exactly when it is a retry; the old stack is part of what is lost. */
  lemma LoadWorks(e: Env, s: State)
    requires Inv(e, s)
    ensures
      var o := Load(e, s);
      && Inv(e, o.s) && o.s.m.cpuEvents == s.m.cpuEvents
      && (if Retry(s) then Unheld(s) + multiset{StackBlock(s.g.a)} <= Unheld(o.s)
          else Unheld(o.s) == Unheld(s))
  {
    hide Prepare, AnnounceAll, Unload, Sound, Unheld, Ready, SafeLog, MemoryOk, StackHeld, TlsHeld, Execs, CpusBelow;
    if s.g.status == Unloaded && s.g.a.mods != [] {
      LoadStarts(e, s);
      PrepareWorks(e, s);
      var o := Prepare(e, s);
      if o.ret != Success {
        UnloadWorks(e, o.s);
      } else {
        AnnounceAllWorks(e, o.s);
      }
    }
  }

  // ---- The other calls -----------------------------------------------------------------------

  lemma {:induction false} ExecsOfSnoc(mods: seq<Binary>, b: Binary)
    requires b.exec == 0
    ensures Execs(mods + [b]) == Execs(mods)
    decreases mods
  {
    if mods == [] {
      assert mods + [b] == [b];
    } else {
      ExecsOfSnoc(mods[1..], b);
      assert (mods + [b])[1..] == mods[1..] + [b];
    }
  }

  lemma AddHeld(a: Assets, b: Binary)
    requires b.exec == 0
    ensures Held(a.(mods := a.mods + [b])) == Held(a)
  {
    ExecsOfSnoc(a.mods, b);
    hide Execs;
  }

  lemma SameHeld(s: State, s': State)
    requires s'.m.mem == s.m.mem && Held(s'.g.a) == Held(s.g.a)
    ensures Unheld(s') == Unheld(s)
  {
  }

  lemma AddWorks(e: Env, s: State, file: nat, size: nat)
    requires Inv(e, s)
    ensures Inv(e, Add(s, file, size).s)
    ensures Unheld(Add(s, file, size).s) == Unheld(s)
  {
    hide Held, Unheld, SafeLog, MemoryOk, Ready;
    var b := NO_BINARY.(file := file, fileSize := size);
    AddHeld(s.g.a, b);
    SameHeld(s, Add(s, file, size).s);
  }

  /** Nothing but counters and the log changed. */
  lemma SameHoldingsKeep(e: Env, s: State, s': State)
    requires Inv(e, s) && SameHoldings(s, s') && StatusOk(s'.g, s'.m) && SafeLog(e, s'.m.log)
    ensures Inv(e, s') && Unheld(s') == Unheld(s)
  {
  }

  lemma StopWorks(e: Env, s: State)
    requires Inv(e, s)
    ensures Inv(e, Stop(e, s).s)
    ensures Unheld(Stop(e, s).s) == Unheld(s)
    ensures s.g.status == Running ==> StopOutcome(s, Stop(e, s))
  {
    hide StopLoop, Ready, SafeLog, MemoryOk, Held, Unheld, Down;
    if s.g.status == Running {
      StopLoopWorks(e, s);
      SameHoldingsKeep(e, s, Stop(e, s).s);
    }
  }

  lemma StartWorks(e: Env, s: State) returns (j: nat)
    requires Inv(e, s)
    ensures Inv(e, Start(e, s).s)
    ensures Unheld(Start(e, s).s) == Unheld(s)
    ensures s.g.status == Loaded ==> StartOutcome(s, Start(e, s), 0, j)
  {
    hide StartLoop, Ready, SafeLog, MemoryOk, Held, Unheld, Up, Down;
    j := 0;
    if s.g.status == Loaded {
      j := StartLoopWorks(e, s.(g := s.g.(started := 0)), 0);
      SameHoldingsKeep(e, s, Start(e, s).s);
    }
  }

  lemma DumpWorks(e: Env, s: State, drr: bool, vcpuid: nat)
    requires Inv(e, s)
    ensures Inv(e, Dump(e, s, drr, vcpuid).s)
    ensures Unheld(Dump(e, s, drr, vcpuid).s) == Unheld(s)
    ensures Dump(e, s, drr, vcpuid).s.m.cpuEvents == s.m.cpuEvents
  {
    if drr && s.g.status != Unloaded {
      CallVmmKeeps(e, s.g.a, s.m, GetDrr(vcpuid));
      SameHoldingsKeep(e, s, Dump(e, s, drr, vcpuid).s);
    }
  }

  lemma InvIsSound(e: Env, s: State)
    requires Inv(e, s) && s.g.status == Unloaded
    ensures Sound(e, s)
  {
  }

  lemma FinishWorks(e: Env, s: State)
    requires Inv(e, s)
    ensures Inv(e, Finish(e, s).s)
    ensures Unheld(Finish(e, s).s) == Unheld(s)
  {
    hide Inv, Unheld, Stop, Unload, Reset;
    StopWorks(e, s);
    var s1 := if s.g.status == Running then Stop(e, s).s else s;
    UnloadWorks(e, s1);
    var s2 := if s1.g.status == Loaded then Unload(e, s1).s else s1;
    if s2.g.status == Unloaded && s2.g.a.mods != [] {
      InvIsSound(e, s2);
      ResetWorks(e, s2);
    }
  }

  // ---- Runs ----------------------------------------------------------------------------------

  /** Coming from another processor changes nothing that matters. */
  lemma EntersKeeps(e: Env, s: State)
    ensures Inv(e, Enters(e, s)) <==> Inv(e, s)
    ensures Unheld(Enters(e, s)) == Unheld(s)
  {
    hide MemoryOk, SafeLog, Held, Ready;
  }

  lemma StepWorks(e: Env, s: State, op: Op)
    requires Inv(e, s)
    ensures Inv(e, Step(e, s, op).s)
    ensures
      if op == LoadOp && Retry(s) then Unheld(s) + multiset{StackBlock(s.g.a)} <= Unheld(Step(e, s, op).s)
      else Unheld(Step(e, s, op).s) == Unheld(s)
  {
    hide Add, Load, Unload, Start, Stop, Dump, Finish, Inv, Unheld, Sound, StopOutcome, StartOutcome, Retry;
    var s0 := Enters(e, s);
    EntersKeeps(e, s);
    RetryEnters(e, s);
    match op
    case AddOp(file, size) => AddWorks(e, s0, file, size);
    case LoadOp => LoadWorks(e, s0);
    case UnloadOp => UnloadWorks(e, s0);
    case StartOp => var j := StartWorks(e, s0);
    case StopOp => StopWorks(e, s0);
    case DumpOp(drr, vcpuid) => DumpWorks(e, s0, drr, vcpuid);
    case FiniOp => FinishWorks(e, s0);
  }

  lemma RetryEnters(e: Env, s: State)
    ensures Retry(Enters(e, s)) == Retry(s) && Enters(e, s).g == s.g
  {
  }

  /** Whatever the outside answers and in whatever order the driver is called: no memory is handed
      out twice, everything the driver refers to is alive, it frees only live blocks and only while
      no processor is inside the VMM, and call_vmm writes only to a live stack. */
  lemma {:induction false} EveryRunIsSafe(e: Env, s: State, ops: seq<Op>)
    requires Inv(e, s)
    ensures Inv(e, Run(e, s, ops))
    decreases ops
  {
    if ops == [] {
    } else {
      StepWorks(e, s, ops[0]);
      EveryRunIsSafe(e, Step(e, s, ops[0]).s, ops[1..]);
    }
  }

  lemma BootIsSafe(e: Env, cpu: nat)
    ensures Inv(e, Boot(cpu)) && Unheld(Boot(cpu)) == multiset{}
  {
  }

  /** No load in the run is a retry. */
  predicate NoRetry(e: Env, s: State, ops: seq<Op>)
    decreases ops
  {
    ops == [] || (!(ops[0] == LoadOp && Retry(s)) && NoRetry(e, Step(e, s, ops[0]).s, ops[1..]))
  }

  /** Memory that nothing refers to never comes back, and a run loses memory exactly when it
      retries a load. */
  lemma {:induction false} LossAlongRun(e: Env, s: State, ops: seq<Op>)
    requires Inv(e, s)
    ensures Unheld(s) <= Unheld(Run(e, s, ops))
    ensures Unheld(s) == Unheld(Run(e, s, ops)) <==> NoRetry(e, s, ops)
    decreases ops
  {
    if ops == [] {
    } else {
      StepWorks(e, s, ops[0]);
      var s1 := Step(e, s, ops[0]).s;
      LossAlongRun(e, s1, ops[1..]);
      if ops[0] == LoadOp && Retry(s) {
        Grows(Unheld(s), StackBlock(s.g.a), Unheld(Run(e, s1, ops[1..])));
      }
    }
  }

  lemma Grows(a: multiset<Block>, b: Block, c: multiset<Block>)
    requires a + multiset{b} <= c
    ensures a <= c && a != c
  {
    assert a <= a + multiset{b};
    assert (a + multiset{b})[b] == a[b] + 1;
  }

  /** The allocation ledger of the driver is exact exactly on the runs without a retry. */
  lemma LedgerIsExact(e: Env, cpu: nat, ops: seq<Op>)
    ensures
      var s := Run(e, Boot(cpu), ops);
      s.m.mem.live == Held(s.g.a) <==> NoRetry(e, Boot(cpu), ops)
  {
    BootIsSafe(e, cpu);
    EveryRunIsSafe(e, Boot(cpu), ops);
    LossAlongRun(e, Boot(cpu), ops);
    var s := Run(e, Boot(cpu), ops);
    if Unheld(s) == multiset{} {
      assert s.m.mem.live == Held(s.g.a) + Unheld(s);
    }
  }
}
