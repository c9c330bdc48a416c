/** Concrete runs on which plausible claims about the driver fail. */
module Witnesses {
  import opened CommonModel
  import opened Config
  import opened Descriptors
  import opened EntryModel
  import opened Finalisation
  import opened Gaps
  import opened Invariant
  import opened IoOutcomes
  import opened Lifecycle
  import opened Machine
  import opened Outcomes
  import opened Pages
  import opened Runs
  import opened Safety
  import opened Tables
  import opened TlsSlots
  import opened Words

  const IMAGE_AT: nat := 0x2000_0000_0000_0000
  const TLS_AT: nat := 0x4000_0000_0000_0000
  const STACK_AT: nat := 0x6000_0000_0000_0000
  const NEVER := -1

  /** Two processors; allocations succeed at far apart addresses and the loader does with the modules
      what `images` says. Every call succeeds but the one made at `time`. */
  function Outside(time: int, images: seq<Image>): Env {
    Env(Linux, x => x, t => Answer(
      if t == 1 then 1 else if t == 0 || t == 3 then STACK_AT else TLS_AT,
      if t == time then 1 else 0,
      0, 0, true, 0, 0, 2, 1, images))
  }

  /** The modules load without an image. */
  function RefusesAt(time: int): Env {
    Outside(time, [])
  }

  const LONE_MODULE: Binary := NO_BINARY.(file := 1, fileSize := 1)

  // ---- A load on its own ---------------------------------------------------------------------

  /** At the start of a load: as the first call of the driver, or as the first one after the module was
      copied by the ioctl layer. */
  predicate Free(m: Machine) {
    || (m.now == 0 && m.mem.live == multiset{})
    || (m.now == 3 && m.mem.live == multiset{Block(1, 1, Rw)})
  }

  /** Before the first load of the lone module. */
  predicate Added(s: State) {
    && Free(s.m) && s.m.cpuEvents == [] && s.m.delivered == []
    && s.g.status == Unloaded && s.g.a.mods == [LONE_MODULE]
  }

  /** There is memory for the stack and the TLS block. */
  lemma Fits(time: int, images: seq<Image>, m: Machine)
    requires Free(m)
    ensures
      var e := Outside(time, images);
      var stack, tls := Block(STACK_AT, 2 * STACK_SIZE, Rw), Block(TLS_AT, THREAD_LOCAL_STORAGE_SIZE * 2, Rw);
      && NewStack(e, m) == stack && NewTls(e, m) == tls
      && CanPlace(e, m.mem.live, stack) && CanPlace(e, m.mem.live + multiset{stack}, tls)
  {
    var stack, tls := Block(STACK_AT, 2 * STACK_SIZE, Rw), Block(TLS_AT, THREAD_LOCAL_STORAGE_SIZE * 2, Rw);
    forall b | b in m.mem.live
      ensures Apart(Linux, stack, b) && Apart(Linux, tls, b)
    {
      assert b == Block(1, 1, Rw);
    }
    assert Apart(Linux, tls, stack);
  }

  lemma WitnessMemory(time: int, images: seq<Image>, s: State)
    requires Free(s.m)
    ensures
      var s1 := SetupStack(Outside(time, images), s).s;
      var s2 := SetupTls(Outside(time, images), s1).s;
      && SetupStack(Outside(time, images), s).ret == Success
      && SetupTls(Outside(time, images), s1).ret == Success
      && s2.m.now == s.m.now + 3 && s2.g.a.mods == s.g.a.mods && s2.g.status == s.g.status
      && s2.m.mem.live == s.m.mem.live
           + multiset{Block(STACK_AT, 2 * STACK_SIZE, Rw), Block(TLS_AT, THREAD_LOCAL_STORAGE_SIZE * 2, Rw)}
      && s2.g.a.stack == STACK_AT && s2.g.a.tls == TLS_AT && s2.g.a.tlsSize == THREAD_LOCAL_STORAGE_SIZE * 2
  {
    hide StackTop, CanPlace, Free, Outside, Wrap;
    Fits(time, images, s.m);
    StackEnds(Outside(time, images), s);
    TlsEnds(Outside(time, images), SetupStack(Outside(time, images), s).s);
  }

  lemma WitnessElf(time: int, s: State)
    requires (time < 0 || time >= s.m.now + 4) && s.g.a.mods == [LONE_MODULE]
    ensures
      var o := LoadAndInit(RefusesAt(time), s);
      && o.ret == Success && o.s.m.now == s.m.now + 4 && o.s.g.a == s.g.a.(entry := 1) && o.s.g.status == s.g.status
  {
    hide ContextOf;
    var e := RefusesAt(time);
    assert [LONE_MODULE][1..] == [];
    assert LoadImages(e, Tick(s.m), [], []) == (Tick(s.m), []);
    assert LoadImages(e, Tick(s.m), [LONE_MODULE], []) == (Tick(s.m), [LONE_MODULE] + []);
    assert LoadElf(e, s).s.g.a.mods == [LONE_MODULE];
  }

  /** Every load of the lone module gets as far as the pages of the TLS block. */
  lemma WitnessPrepare(time: int, s: State)
    requires Added(s) && (time < 0 || time >= s.m.now + 7)
    ensures
      var o := Prepare(RefusesAt(time), s);
      && o.ret == Success && o.s.m.now == s.m.now + 7 && o.s.g.status == Unloaded
      && o.s.g.a.mods == [LONE_MODULE] && o.s.g.a.entry == 1 && o.s.g.a.stack == STACK_AT
      && o.s.g.a.tls == TLS_AT && o.s.g.a.tlsSize == THREAD_LOCAL_STORAGE_SIZE * 2
      && AnnounceAll(RefusesAt(time), o.s) == AnnounceTls(RefusesAt(time), o.s)
      && Load(RefusesAt(time), s) == AnnounceTls(RefusesAt(time), o.s)
  {
    hide SetupStack, SetupTls, LoadAndInit, AnnounceTls, Outside;
    var e := RefusesAt(time);
    WitnessMemory(time, [], s);
    WitnessElf(time, SetupTls(e, SetupStack(e, s).s).s);
    var s1 := Prepare(e, s).s;
    assert [LONE_MODULE][1..] == [];
    assert AnnounceModule(e, s1.g.a, s1.m, LONE_MODULE, 0) == (s1.m, Success);
    assert AnnounceModules(e, s1.g.a, s1.m, []) == (s1.m, Success);
  }

  /** The first call of the witness runs. */
  lemma WitnessModule(e: Env) returns (s: State)
    requires MAX_NUM_MODULES > 0
    ensures s == Enters(e, Step(e, Boot(0), AddOp(1, 1)).s)
    ensures Added(s) && s.m.now == 0 && Inv(e, s) && !s.m.initialised && s.m.mem.pulled == 0
  {
    hide Inv, Unheld;
    s := Enters(e, Step(e, Boot(0), AddOp(1, 1)).s);
    assert s.g.a.mods == [] + [LONE_MODULE];
    BootIsSafe(e, 0);
    StepWorks(e, Boot(0), AddOp(1, 1));
    EntersKeeps(e, Step(e, Boot(0), AddOp(1, 1)).s);
  }

  lemma TwoSteps(e: Env, s: State, a: Op, b: Op)
    ensures Run(e, s, [a, b]) == Step(e, Step(e, s, a).s, b).s
  {
    hide Step;
    var s1 := Step(e, s, a).s;
    assert [a, b][1..] == [b] && [b][1..] == [];
    assert Run(e, s1, [b]) == Step(e, s1, b).s;
  }

  lemma ThreeSteps(e: Env, s: State, a: Op, b: Op, c: Op)
    ensures Run(e, s, [a, b, c]) == Step(e, Step(e, Step(e, s, a).s, b).s, c).s
  {
    hide Step;
    assert [a, b, c][1..] == [b, c];
    TwoSteps(e, Step(e, s, a).s, b, c);
  }

  lemma StepIs(e: Env, s: State)
    ensures Step(e, s, LoadOp) == Load(e, Enters(e, s))
    ensures Step(e, s, StartOp) == Start(e, Enters(e, s))
    ensures Step(e, s, UnloadOp) == Unload(e, Enters(e, s))
  {
    hide Load, Start, Unload, Enters;
  }

  // ---- Memory is lost ------------------------------------------------------------------------

  /** A load whose first TLS page is refused returns without a rollback, from an initialised VMM. */
  lemma RefusedTlsIsKept(s: State)
    requires Added(s) && s.m.now == 0
    ensures Load(RefusesAt(7), s).ret == External(1)
    ensures Retry(Load(RefusesAt(7), s).s) && Abandons(RefusesAt(7), s)
  {
    hide Prepare, Load, ContextOf;
    WitnessPrepare(7, s);
  }

  /** Add a module, load with the first TLS page refused, load again: the run has a retry, and some
      memory is alive that nothing refers to. */
  lemma RetryLosesMemory()
    requires MAX_NUM_MODULES > 0
    ensures !NoRetry(RefusesAt(7), Boot(0), [AddOp(1, 1), LoadOp, LoadOp])
    ensures
      var s := Run(RefusesAt(7), Boot(0), [AddOp(1, 1), LoadOp, LoadOp]);
      Held(s.g.a) < s.m.mem.live
  {
    hide Load, RefusesAt, Run, Held, Step, Inv;
    var e := RefusesAt(7);
    var ops := [AddOp(1, 1), LoadOp, LoadOp];
    var s := Step(e, Boot(0), AddOp(1, 1)).s;
    var s0 := WitnessModule(e);
    StepIs(e, s);
    RefusedTlsIsKept(s0);
    RetryInThree(e, Boot(0), AddOp(1, 1));
    LedgerIsExact(e, 0, ops);
    BootIsSafe(e, 0);
    EveryRunIsSafe(e, Boot(0), ops);
    HeldBelowLive(e, Run(e, Boot(0), ops));
  }

  lemma RetryInThree(e: Env, s: State, a: Op)
    requires Retry(Step(e, Step(e, s, a).s, LoadOp).s)
    ensures !NoRetry(e, s, [a, LoadOp, LoadOp])
  {
    hide Step;
    var s1 := Step(e, s, a).s;
    assert [a, LoadOp, LoadOp][1..] == [LoadOp, LoadOp] && [LoadOp, LoadOp][1..] == [LoadOp];
    assert !NoRetry(e, Step(e, s1, LoadOp).s, [LoadOp]);
    assert !NoRetry(e, s1, [LoadOp, LoadOp]);
  }

  lemma HeldBelowLive(e: Env, s: State)
    requires Inv(e, s)
    ensures s.m.mem.live != Held(s.g.a) ==> Held(s.g.a) < s.m.mem.live
  {
    hide Held, MemoryOk;
  }

  // ---- Memory is pulled from under the VMM ---------------------------------------------------

  /** Add a module, load with the first TLS page refused, unload: the VMM is initialised, and its
      memory is gone. */
  lemma UnloadPullsMemory()
    requires MAX_NUM_MODULES > 0
    ensures
      var s := Run(RefusesAt(7), Boot(0), [AddOp(1, 1), LoadOp, UnloadOp]);
      s.m.initialised && s.m.mem.pulled > 0 && Held(s.g.a) == multiset{}
  {
    hide Load, Unload, RefusesAt, Run, Held, Holdings, Step, Inv, Unheld, Abandons;
    var e := RefusesAt(7);
    ThreeSteps(e, Boot(0), AddOp(1, 1), LoadOp, UnloadOp);
    var s := WitnessModule(e);
    StepIs(e, Step(e, Boot(0), AddOp(1, 1)).s);
    RefusedTlsIsKept(s);
    LoadTies(e, s);
    LoadWorks(e, s);
    var s1 := Load(e, s).s;
    StepIs(e, s1);
    EntersKeeps(e, s1);
    var s2 := Enters(e, s1);
    UnloadPulls(e, s2);
    UnloadWorks(e, s2);
    UnloadCases(e, s2);
    StackIsHeld(s2.g.a, multiset{});
    PulledOnce(e, s2);
  }

  lemma PulledOnce(e: Env, s: State)
    requires Inv(e, s) && s.g.status == Unloaded
    ensures Held(Unload(e, s).s.g.a) == multiset{}
  {
    hide Held, Sound, Unheld;
    InvIsSound(e, s);
    ResetWorks(e, s);
  }

  // ---- A processor is counted and not launched -----------------------------------------------

  const TLS_PAGES: nat := PageCount(TLS_AT, TLS_AT + THREAD_LOCAL_STORAGE_SIZE * 2)

  /** Pages announced before `time` are accepted. */
  lemma {:induction false} AllAccepted(time: int, a: Assets, m: Machine, lo: nat, hi: nat)
    requires a.entry != 0 && (time < 0 || m.now + 3 * PageCount(lo, hi) <= time)
    ensures
      var (m', ret) := AnnounceRange(RefusesAt(time), a, m, lo, hi, RW);
      ret == Success && m'.now == m.now + 3 * PageCount(lo, hi)
    decreases if lo <= hi then hi - lo + 1 else 0
  {
    if lo > hi {
    } else {
      hide PageCount, ContextOf;
      CountCons(lo, hi);
      AllAccepted(time, a, AddRawMd(RefusesAt(time), a, m, lo, RW).0, lo + MAX_PAGE_SIZE, hi);
    }
  }

  lemma WitnessLoaded(time: int, s: State)
    requires Added(s) && (time < 0 || time >= s.m.now + 7 + 3 * TLS_PAGES)
    ensures
      var o := Load(RefusesAt(time), s);
      && o.ret == Success && o.s.g.status == Loaded && o.s.g.a.entry == 1
      && o.s.m.now == s.m.now + 7 + 3 * TLS_PAGES
      && o.s.g.a.tls == TLS_AT && o.s.g.a.tlsSize == THREAD_LOCAL_STORAGE_SIZE * 2
  {
    hide Prepare, Load, AnnounceRange, PageCount, RefusesAt;
    WitnessPrepare(time, s);
    var s1 := Prepare(RefusesAt(time), s).s;
    AllAccepted(time, s1.g.a, s1.m, s1.g.a.tls, s1.g.a.tls + s1.g.a.tlsSize);
  }

  /** One round of the start loop on one of the two processors, up to the START vmcall at m.now + 5. */
  lemma WitnessRound(time: int, a: Assets, m: Machine, k: CpuCount) returns (m': Machine)
    requires a.entry != 0 && k < 2 && time >= m.now + 5
    ensures m'.now == m.now + 7
    ensures FirstRefused(RefusesAt(time), a, m, k)
         == if time == m.now + 5 then k else FirstRefused(RefusesAt(time), a, m', k + 1)
  {
    hide ContextOf;
    var e := RefusesAt(time);
    var m2 := CallVmm(e, a, SetAffinity(e, NumCpus(e, m).0, k).0, VmmInit(k)).0;
    assert m2.now == m.now + 5;
    m' := RestoreAffinity(e, Vmcall(e, m2, VmcallStart).0, k);
  }

  lemma WitnessStarted(e: Env, s: State)
    requires Inv(e, s) && s.g.status == Loaded && s.g.a.entry != 0 && s.m.cpuEvents == []
    requires e == RefusesAt(s.m.now + 12)
    ensures Start(e, s).s.g.status == Running && Start(e, s).s.g.started == 2 && Start(e, s).s.m.launched == {0}
  {
    hide Start, RefusesAt, Gap, Inv, FirstRefused;
    var m1 := WitnessRound(s.m.now + 12, s.g.a, s.m, 0);
    var m2 := WitnessRound(s.m.now + 12, s.g.a, m1, 1);
    StartLeavesGap(e, s);
    assert CpusBelow(1) == {0};
  }

  /** Add a module, load, start on two processors of which the second one refuses START: the VMM
      runs, two processors are counted and one is inside. */
  lemma RefusedStartLeavesGap()
    requires MAX_NUM_MODULES > 0
    ensures
      var s := Run(RefusesAt(19 + 3 * TLS_PAGES), Boot(0), [AddOp(1, 1), LoadOp, StartOp]);
      s.g.status == Running && s.g.started == 2 && s.m.launched == {0}
  {
    hide Load, Start, RefusesAt, Inv, PageCount, Run, Unheld, Step;
    var e := RefusesAt(19 + 3 * TLS_PAGES);
    ThreeSteps(e, Boot(0), AddOp(1, 1), LoadOp, StartOp);
    var s := WitnessModule(e);
    StepIs(e, Step(e, Boot(0), AddOp(1, 1)).s);
    WitnessLoaded(19 + 3 * TLS_PAGES, s);
    LoadWorks(e, s);
    var s1 := Load(e, s).s;
    StepIs(e, s1);
    EntersKeeps(e, s1);
    WitnessStarted(e, Enters(e, s1));
  }

  // ---- A page announced without need ---------------------------------------------------------

  lemma AlignedPower(x: nat)
    requires PowerOfTwo(x) && x >= 0x1000_0000_0000_0000
    ensures x % MAX_PAGE_SIZE == 0
  {
    PowersDivide(x, MAX_PAGE_SIZE);
  }

  lemma FarAddressesAligned()
    ensures TLS_AT % MAX_PAGE_SIZE == 0 && IMAGE_AT % MAX_PAGE_SIZE == 0
  {
    U64IsPowerOfTwo();
    assert PowerOfTwo(0x8000_0000_0000_0000);
    assert PowerOfTwo(TLS_AT);
    assert PowerOfTwo(IMAGE_AT);
    AlignedPower(TLS_AT);
    AlignedPower(IMAGE_AT);
  }

  /** Add a module and load, with nothing refused: the page after the TLS block is delivered, although
      no byte of the block lies on it. */
  lemma LoadDeliversEmptyPage()
    requires MAX_NUM_MODULES > 0
    ensures
      var s := Run(RefusesAt(NEVER), Boot(0), [AddOp(1, 1), LoadOp]);
      var end := s.g.a.tls + s.g.a.tlsSize;
      && s.g.status == Loaded && Announces(s.m.delivered, end, RW)
      && !exists x :: s.g.a.tls <= x < end && PageOf(x) == end
  {
    hide Load, RefusesAt, Inv, Run, Step, PageCount, Announces, Floor, PowerOfTwo, PagesOf, Delivered;
    var e := RefusesAt(NEVER);
    TwoSteps(e, Boot(0), AddOp(1, 1), LoadOp);
    var s := WitnessModule(e);
    StepIs(e, Step(e, Boot(0), AddOp(1, 1)).s);
    WitnessLoaded(NEVER, s);
    FarAddressesAligned();
    var a := Load(e, s).s.g.a;
    LoadAnnounces(e, s);
    AlignedEnd(a.tls, a.tlsSize);
    TlsPagesAreTight(e, s, a.tls + a.tlsSize);
    RangeIsDelivered(e, s, TlsRange(a), a.tls + a.tlsSize);
    DeliveredFromNothing(s, Load(e, s).s);
  }

  lemma DeliveredFromNothing(s: State, s': State)
    requires s.m.delivered == []
    ensures Delivered(s, s') == s'.m.delivered
  {
  }

  // ---- A page announced writable and executable ----------------------------------------------

  const TWO_SEGMENTS: seq<Segment> :=
    [Segment(0, MAX_PAGE_SIZE, true), Segment(MAX_PAGE_SIZE, MAX_PAGE_SIZE, false)]

  /** The module gets an image of two pages: an executable segment that fills the first one exactly,
      and a writable one that fills the second. */
  function TwoPageImage(): Env {
    Outside(NEVER, [Image.Fresh(IMAGE_AT, 2 * MAX_PAGE_SIZE, TWO_SEGMENTS)])
  }

  const LOADED_MODULE: Binary :=
    LONE_MODULE.(exec := IMAGE_AT, execSize := 2 * MAX_PAGE_SIZE, segs := TWO_SEGMENTS)

  lemma TwoPageImageObliges()
    ensures Obliging(TwoPageImage())
  {
  }

  lemma TwoPagePlaced(m: Machine)
    requires m.mem.live
          == multiset{Block(STACK_AT, 2 * STACK_SIZE, Rw), Block(TLS_AT, THREAD_LOCAL_STORAGE_SIZE * 2, Rw)}
    ensures LoadImage(TwoPageImage(), m, LONE_MODULE, Image.Fresh(IMAGE_AT, 2 * MAX_PAGE_SIZE, TWO_SEGMENTS)).1
         == LOADED_MODULE
  {
    var b := Block(IMAGE_AT, 2 * MAX_PAGE_SIZE, Rwe);
    forall x | x in m.mem.live
      ensures Apart(Linux, b, x)
    {
      assert x == Block(STACK_AT, 2 * STACK_SIZE, Rw) || x == Block(TLS_AT, THREAD_LOCAL_STORAGE_SIZE * 2, Rw);
    }
    assert CanPlace(TwoPageImage(), m.mem.live, b);
    assert SegmentsWithin(TWO_SEGMENTS, 2 * MAX_PAGE_SIZE) by {
      forall seg | seg in TWO_SEGMENTS
        ensures seg.offset + seg.memsz <= 2 * MAX_PAGE_SIZE
      {
        assert seg == TWO_SEGMENTS[0] || seg == TWO_SEGMENTS[1];
      }
    }
  }

  lemma TwoPageElf(s: State)
    requires s.g.a.mods == [LONE_MODULE]
    requires s.m.mem.live
          == multiset{Block(STACK_AT, 2 * STACK_SIZE, Rw), Block(TLS_AT, THREAD_LOCAL_STORAGE_SIZE * 2, Rw)}
    ensures
      var o := LoadAndInit(TwoPageImage(), s);
      o.ret == Success && o.s.g.a == s.g.a.(mods := [LOADED_MODULE], entry := 1) && o.s.g.status == s.g.status
  {
    hide ContextOf, LoadImage;
    var e := TwoPageImage();
    var images := e.answers(s.m.now).images;
    TwoPagePlaced(Tick(s.m));
    var m1 := LoadImage(e, Tick(s.m), LONE_MODULE, images[0]).0;
    assert [LONE_MODULE][1..] == [] && images[1..] == [];
    assert LoadImages(e, m1, [], []) == (m1, []);
    assert LoadImages(e, Tick(s.m), [LONE_MODULE], images) == (m1, [LOADED_MODULE] + []);
    assert LoadElf(e, s).s.g.a.mods == [LOADED_MODULE];
  }

  lemma KeptFromPrepare(e: Env, s: State)
    requires s.g.status == Unloaded && s.g.a.mods != [] && Load(e, s).ret == Success
    ensures Load(e, s).s.g.a == Prepare(e, s).s.g.a
  {
    hide Prepare, Load, PrepareRet, SegmentsAccepted, PagesAccepted;
    LoadEnds(e, s);
  }

  lemma TwoPageLoad(s: State)
    requires Added(s) && s.m.now == 0
    ensures
      var o := Load(TwoPageImage(), s);
      o.ret == Success && o.s.g.status == Loaded && o.s.g.a.mods == [LOADED_MODULE]
  {
    hide SetupStack, SetupTls, LoadAndInit, AnnounceAll, Load, PrepareRet, Outside, Obliging;
    var e := TwoPageImage();
    WitnessMemory(NEVER, [Image.Fresh(IMAGE_AT, 2 * MAX_PAGE_SIZE, TWO_SEGMENTS)], s);
    TwoPageElf(SetupTls(e, SetupStack(e, s).s).s);
    TwoPageImageObliges();
    PrepareEnds(e, s);
    LoadObliged(e, s);
    LoadEnds(e, s);
    KeptFromPrepare(e, s);
  }

  /** The executable range ends on the page the writable one starts on. */
  lemma TwoPageRanges(a: Assets)
    requires a.mods == [LOADED_MODULE]
    ensures !WellSeparated(AllRanges(a.mods) + [TlsRange(a)])
  {
    hide Floor, PowerOfTwo, BitAnd;
    var b := LOADED_MODULE;
    var x, y := SegRange(b, b.segs[0]), SegRange(b, b.segs[1]);
    RangeOfSegment(a.mods, b, b.segs[0]);
    RangeOfSegment(a.mods, b, b.segs[1]);
    assert x.hi == PageOf(IMAGE_AT + MAX_PAGE_SIZE) && y.lo == PageOf(IMAGE_AT + MAX_PAGE_SIZE);
    SegRangeIsRegular(b, b.segs[0]);
    SegRangeIsRegular(b, b.segs[1]);
    FloorOrdered(x.lo, x.hi);
    FloorOrdered(y.lo, y.hi);
    var ranges := AllRanges(a.mods) + [TlsRange(a)];
    assert x in ranges && y in ranges && x.access == RE && y.access == RW && !Separate(x, y);
  }

  /** Add a module and load: two segments have their bytes on different pages, and a page is delivered
      both executable and writable. */
  lemma LoadDeliversMixedPage(x: nat, y: nat)
    requires MAX_NUM_MODULES > 0
    requires IMAGE_AT <= x < IMAGE_AT + MAX_PAGE_SIZE <= y < IMAGE_AT + 2 * MAX_PAGE_SIZE
    ensures PageOf(x) != PageOf(y)
    ensures
      var s := Run(TwoPageImage(), Boot(0), [AddOp(1, 1), LoadOp]);
      s.g.status == Loaded && s.g.a.mods == [LOADED_MODULE] && Mixed(s.m.delivered)
  {
    hide Load, TwoPageImage, Inv, Run, Step, Floor, PowerOfTwo, Delivered, Mixed, WellSeparated, AllRanges;
    var e := TwoPageImage();
    TwoSteps(e, Boot(0), AddOp(1, 1), LoadOp);
    var s := WitnessModule(e);
    StepIs(e, Step(e, Boot(0), AddOp(1, 1)).s);
    TwoPageLoad(s);
    LoadedPagesWritableXorExecutable(e, s);
    TwoPageRanges(Load(e, s).s.g.a);
    DeliveredFromNothing(s, Load(e, s).s);
    FarAddressesAligned();
    PagesApart(x, y);
  }

  lemma PagesApart(x: nat, y: nat)
    requires IMAGE_AT % MAX_PAGE_SIZE == 0
    requires IMAGE_AT <= x < IMAGE_AT + MAX_PAGE_SIZE <= y
    ensures PageOf(x) != PageOf(y)
  {
    FloorShift(IMAGE_AT, 1);
    AlignedFloor(IMAGE_AT);
    FloorOrdered(IMAGE_AT + MAX_PAGE_SIZE, y);
    BelowOwnPage(x);
    hide Floor;
  }

  // ---- A refused start through the ioctl layer -----------------------------------------------

  /** The module in the tables of both layers, on a machine with nothing else. */
  lemma WitnessBuffer(e: Env, time: int) returns (x: Io)
    requires MAX_NUM_MODULES > 0 && e == RefusesAt(time) && time > 3
    ensures x == IoRun(e, IoBoot(0), [AddModuleLength(true, 1), AddModule])
    ensures IoInv(e, x) && Added(Enters(e, x.s)) && x.s.m.now == 3
  {
    hide IoInv;
    IoBootIsSafe(e, 0);
    EveryIoRunIsSafe(e, IoBoot(0), [AddModuleLength(true, 1), AddModule]);
    var x1 := Dispatch(e, IoBoot(0), AddModuleLength(true, 1)).x;
    x := Dispatch(e, x1, AddModule).x;
    assert [AddModuleLength(true, 1), AddModule][1..] == [AddModule] && [AddModule][1..] == [];
    assert IoRun(e, x1, [AddModule]) == x;
    assert x.s.g.a.mods == [] + [LONE_MODULE];
  }
  lemma {:induction false} IoRunSnoc(e: Env, x: Io, commands: seq<Command>, last: Command)
    ensures IoRun(e, x, commands + [last]) == Dispatch(e, IoRun(e, x, commands), last).x
    decreases commands
  {
    hide Dispatch;
    if commands == [] {
      assert [] + [last] == [last];
      assert IoRun(e, Dispatch(e, x, last).x, []) == Dispatch(e, x, last).x;
    } else {
      assert (commands + [last])[1..] == commands[1..] + [last];
      IoRunSnoc(e, Dispatch(e, x, commands[0]).x, commands[1..], last);
    }
  }

  /** A start that is refused ends with the refusal. */
  lemma {:induction false} RefusalIsLast(e: Env, s: State, k: CpuCount)
    ensures StartLoop(e, s, k).ret == VmmStartFailed ==>
              StartLoop(e, s, k).s.m.now > 0 && e.answers(StartLoop(e, s, k).s.m.now - 1).code != 0
    decreases 0x8000_0000_0000_0000 - k
  {
    hide StartOne;
    var (m, n) := NumCpus(e, s.m);
    if k >= n {
    } else {
      var o := StartOne(e, s.(m := m), k);
      RoundIsLast(e, s.(m := m), k);
      if o.ret == Success {
        RefusalIsLast(e, o.s, k + 1);
      }
    }
  }

  lemma RoundIsLast(e: Env, s: State, k: CpuCount)
    ensures StartOne(e, s, k).ret == VmmStartFailed ==>
              StartOne(e, s, k).s.m.now > 0 && e.answers(StartOne(e, s, k).s.m.now - 1).code != 0
  {
    hide CallVmm, Stop;
    var m1 := SetAffinity(e, s.m, k).0;
    CallVmmFrame(e, s.g.a, m1, VmmInit(k));
    var m2 := CallVmm(e, s.g.a, m1, VmmInit(k)).0;
    assert Vmcall(e, m2, VmcallStart).0.now == m2.now + 1;
  }

  /** Nothing is refused after `time`. */
  lemma {:induction false} StopsLater(time: int, a: Assets, m: Machine, n: nat)
    requires time < m.now && a.entry != 0
    ensures StopEndOf(RefusesAt(time), a, m, n).Through?
    decreases n
  {
    hide ContextOf;
    if n == 0 {
    } else {
      var e := RefusesAt(time);
      var (m1, caller) := SetAffinity(e, m, n - 1);
      var m2 := Vmcall(e, m1, VmcallStop).0;
      StopsLater(time, a, RestoreAffinity(e, CallVmm(e, a, m2, VmmFini(n - 1)).0, caller), n - 1);
    }
  }

  /** A failed start is followed by a stop that gets through. */
  lemma WitnessRepair(e: Env, x: Io)
    requires IoInv(e, x) && x.s.g.status == Loaded && x.s.g.a.entry != 0 && x.s.m.cpuEvents == []
    requires e == RefusesAt(x.s.m.now + 12)
    ensures Start(e, x.s).ret == VmmStartFailed && Start(e, x.s).s.g.status == Running
    ensures Start(e, x.s).s.m.launched == {0}
    ensures
      var o := Execute(e, x, StartVmm);
      o.ret == IoFailure && o.x.s.g.status == Loaded && o.x.s.g.started == 0 && o.x.s.m.launched == {}
  {
    hide StartLoop, Stop, RefusesAt, Inv, Unheld, Gap, FirstRefused, StopEndOf, IoInv, StartEndOf, Up, Down, Execute;
    hide StopLeaves, StartLeaves;
    IoInvParts(e, x);
    WitnessStarted(e, x.s);
    var s0 := x.s.(g := x.s.g.(started := 0));
    WitnessRefused(e, x.s);
    RefusalIsLast(e, s0, 0);
    IoStartEnds(e, x);
    StartWorksAssets(e, x.s);
    var s1 := Start(e, x.s).s;
    LastRefusal(x.s.m.now + 12, s1.m.now - 1);
    StopsLater(x.s.m.now + 12, s1.g.a, s1.m, s1.g.started);
  }

  lemma LastRefusal(time: int, t: nat)
    requires RefusesAt(time).answers(t).code != 0
    ensures t == time
  {
  }

  lemma StartWorksAssets(e: Env, s: State)
    requires Inv(e, s) && s.g.status == Loaded
    ensures Start(e, s).s.g.a == s.g.a
  {
    hide Start, Inv, Up, Down, CpusBelow, Unheld;
    var j := StartWorks(e, s);
  }

  lemma WitnessRefused(e: Env, s: State)
    requires Inv(e, s) && s.g.status == Loaded && s.g.a.entry != 0 && e == RefusesAt(s.m.now + 12)
    ensures Start(e, s).ret == VmmStartFailed
    ensures Start(e, s) == StartLoop(e, s.(g := s.g.(started := 0)), 0)
  {
    hide StartLoop, RefusesAt, Inv, FirstRefused;
    var m1 := WitnessRound(s.m.now + 12, s.g.a, s.m, 0);
    var m2 := WitnessRound(s.m.now + 12, s.g.a, m1, 1);
    StartLoopRefused(e, s.(g := s.g.(started := 0)), 0);
  }

  lemma WitnessIoLoaded(e: Env, time: int, x: Io)
    requires IoInv(e, x) && Added(x.s) && e == RefusesAt(time) && time >= x.s.m.now + 7 + 3 * TLS_PAGES
    ensures
      var x' := Execute(e, x, LoadVmm).x;
      && x'.s.g.status == Loaded && x'.s.g.a.entry == 1 && x'.s.m.cpuEvents == []
      && x'.s.m.now == x.s.m.now + 7 + 3 * TLS_PAGES
  {
    hide Load, IoctlUnload, Inv, Unheld, RefusesAt, PageCount, TablesAgree;
    IoInvParts(e, x);
    LoadWorks(e, x.s);
    WitnessLoaded(time, x.s);
  }

  /** Add a module, load, start on two processors of which the second one refuses START, through the ioctl
      layer: the start fails with the VMM running on processor 0, and the stop that follows gets through. */
  lemma RefusedStartIsRepaired()
    requires MAX_NUM_MODULES > 0
    ensures
      var e := RefusesAt(22 + 3 * TLS_PAGES);
      var x := IoRun(e, IoBoot(0), [AddModuleLength(true, 1), AddModule] + [LoadVmm]);
      var x' := IoRun(e, IoBoot(0), [AddModuleLength(true, 1), AddModule] + [LoadVmm] + [StartVmm]);
      && x.s.g.status == Loaded
      && Start(e, Enters(e, x.s)).s.g.status == Running && Start(e, Enters(e, x.s)).s.m.launched == {0}
      && x'.s.g.status == Loaded && x'.s.g.started == 0 && x'.s.m.launched == {}
  {
    hide RefusesAt, Execute, IoRun, IoInv, PageCount, Start, Added;
    var time := 22 + 3 * TLS_PAGES;
    var e := RefusesAt(time);
    var commands := [AddModuleLength(true, 1), AddModule];
    var x := WitnessBuffer(e, time);
    EntersIo(e, x);
    WitnessIoLoaded(e, time, x.(s := Enters(e, x.s)));
    IoRunSnoc(e, IoBoot(0), commands, LoadVmm);
    var x1 := IoRun(e, IoBoot(0), commands + [LoadVmm]);
    DispatchWorks(e, x, LoadVmm);
    EntersIo(e, x1);
    WitnessRepair(e, x1.(s := Enters(e, x1.s)));
    IoRunSnoc(e, IoBoot(0), commands + [LoadVmm], StartVmm);
  }

  // ---- Memory is left allocated at exit ------------------------------------------------------

  lemma WitnessAdded(x: Io)
    requires x.s == Boot(0).(m := x.s.m) && x.s.m.now == 1 && x.s.m.mem.live == multiset{}
    requires x.pmods == [] && x.moduleLength == 1 && MAX_NUM_MODULES > 0
    ensures Dispatch(RefusesAt(9), x, AddModule).x.pmods != []
    ensures Dispatch(RefusesAt(9), x, AddModule).x.s.g.status == Unloaded
  {
  }

  /** Add a module through the ioctl layer and exit: its buffer stays allocated. */
  lemma ExitLeaksModule()
    requires MAX_NUM_MODULES > 0
    ensures
      var x := IoRun(RefusesAt(9), IoBoot(0), [AddModuleLength(true, 1), AddModule] + [Reboot]);
      x.s.g.status == Unloaded && x.s.m.mem.live != multiset{}
  {
    hide RefusesAt, Dispatch, IoRun;
    var e := RefusesAt(9);
    var x := WitnessLength();
    var x1 := Dispatch(e, x, AddModule).x;
    WitnessAdded(x);
    IoRunSnoc(e, IoBoot(0), [AddModuleLength(true, 1)], AddModule);
    assert [AddModuleLength(true, 1)] + [AddModule] == [AddModuleLength(true, 1), AddModule];
    IoRunSnoc(e, IoBoot(0), [AddModuleLength(true, 1), AddModule], Reboot);
    IoBootIsSafe(e, 0);
    EveryIoRunIsSafe(e, IoBoot(0), [AddModuleLength(true, 1), AddModule]);
    ExitLeavesBuffers(e, x1);
    WitnessExit(x1);
  }

  lemma WitnessLength() returns (x: Io)
    ensures x == IoRun(RefusesAt(9), IoBoot(0), [AddModuleLength(true, 1)])
    ensures x.s == Boot(0).(m := x.s.m) && x.s.m.now == 1 && x.s.m.mem.live == multiset{}
    ensures x.pmods == [] && x.moduleLength == 1
  {
    hide RefusesAt;
    var e := RefusesAt(9);
    x := Dispatch(e, IoBoot(0), AddModuleLength(true, 1)).x;
    assert [AddModuleLength(true, 1)][1..] == [];
    assert IoRun(e, x, []) == x;
  }

  lemma WitnessExit(x: Io)
    requires IoInv(RefusesAt(9), x) && x.s.g.status == Unloaded
    ensures Unloads(RefusesAt(9), Enters(RefusesAt(9), x.s))
    ensures Dispatch(RefusesAt(9), x, Reboot).x.s.g.status == Unloaded
  {
    hide RefusesAt, Finish, Inv, Unheld;
    EntersKeeps(RefusesAt(9), x.s);
    FinishUnloads(RefusesAt(9), Enters(RefusesAt(9), x.s));
  }
}
