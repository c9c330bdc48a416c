/** What every call of the driver keeps, whatever the outside answers. */
module Safety {
  import opened Addresses
  import opened CommonModel
  import opened Config
  import opened Machine
  import opened Words

  // ---- The invariant -------------------------------------------------------------------------

  /** No memory is handed out twice. */
  predicate MemoryOk(live: multiset<Block>) {
    && (forall b | b in live :: live[b] == 1 && b.addr != 0 && b.addr + b.len + MAX_PAGE_SIZE < U64)
    && (forall a, b {:trigger Disjoint(a, b)} | a in live && b in live && a != b :: Disjoint(a, b))
  }

  /** The request argument of a per-processor request is the processor in the thread context,
      unless the firmware could not name the processor. */
  predicate NamesCpu(e: Env, request: Request, cpuid: int) {
    match request
    case VmmInit(k) => cpuid == k || (e.os.Uefi? && cpuid == -1)
    case VmmFini(k) => cpuid == k || (e.os.Uefi? && cpuid == -1)
    case _ => true
  }

  /** The thread context ends one byte below the last multiple of STACK_SIZE in the stack; the stack
      pointer is the byte below it, with the rest of STACK_SIZE bytes of the stack underneath. */
  predicate InPlace(stack: Block, at: nat, sp: nat) {
    && at + CONTEXT_SIZE + 1 == Floor(stack.addr + stack.len, STACK_SIZE)
    && sp + 1 == at
    && stack.addr + (STACK_SIZE - CONTEXT_SIZE - 2) < sp && at + CONTEXT_SIZE < stack.addr + stack.len
  }

  /** An access to memory that is alive. Memory the driver holds is given back only while no
      processor is inside the VMM. */
  predicate Safe(e: Env, ev: Event) {
    match ev
    case Freed(b, owner, live, launched) => b in live && (owner.Driver? ==> launched == {})
    case Context(request, cpuid, at, sp, tlsptr, stack, tls, live) =>
      && stack in live && tls in live && tls.addr + tls.len < U64
      && stack.kind == Rw && stack.len == 2 * STACK_SIZE
      && (CONTEXT_SIZE + 2 <= STACK_SIZE ==> InPlace(stack, at, sp))
      && tlsptr == Wrap(tls.addr + THREAD_LOCAL_STORAGE_SIZE * cpuid)
      && NamesCpu(e, request, cpuid)
  }

  predicate SafeLog(e: Env, log: seq<Event>) {
    forall ev | ev in log :: Safe(e, ev)
  }

  /** {0, ..., n - 1} */
  function CpusBelow(n: int): (r: set<nat>)
    decreases if n > 0 then n else 0
  {
    if n <= 0 then {} else CpusBelow(n - 1) + {n - 1}
  }

  lemma {:induction false} CpusBelowHolds(n: int, i: nat)
    ensures i in CpusBelow(n) <==> i < n
    decreases if n > 0 then n else 0
  {
    if n <= 0 {
    } else {
      CpusBelowHolds(n - 1, i);
    }
  }

  lemma LastCpu(n: nat)
    requires n > 0
    ensures CpusBelow(n) - {n - 1} == CpusBelow(n - 1)
    ensures CpusBelow(n - 1) - {n - 1} == CpusBelow(n - 1)
  {
    CpusBelowHolds(n - 1, n - 1);
  }

  /** The stack and the TLS block are alive and the stack pointer belongs to the stack. */
  predicate Ready(a: Assets, live: multiset<Block>) {
    && a.stack != 0 && a.tls != 0
    && a.stackSize == 2 * STACK_SIZE
    && a.stack + a.stackSize < U64 && a.tls + a.tlsSize < U64
    && a.stackTop == StackTop(a.stack)
    && StackBlock(a) in live && TlsBlock(a) in live
  }

  /** The processors inside the VMM are the ones counted, perhaps without the last one. */
  predicate Counted(started: nat, launched: set<nat>) {
    launched == CpusBelow(started) || launched == CpusBelow(started - 1)
  }

  /** No processor is inside the VMM; the first one may have been counted in vain. */
  predicate Idle(g: Globals, launched: set<nat>) {
    launched == {} && g.started <= if g.status == Unloaded then 0 else 1
  }

  predicate StatusOk(g: Globals, m: Machine) {
    match g.status
    case Unloaded => Idle(g, m.launched) && (g.a.stack == 0 || g.a.mods == [] ==> Held(g.a) == multiset{})
    case Loaded => Ready(g.a, m.mem.live) && g.a.entry != 0 && Idle(g, m.launched)
    case Running =>
      && Ready(g.a, m.mem.live) && g.a.entry != 0 && g.started >= 1
      && (m.launched == CpusBelow(g.started) || (g.started >= 2 && m.launched == CpusBelow(g.started - 1)))
    case Corrupt => Ready(g.a, m.mem.live) && g.a.entry != 0 && Counted(g.started, m.launched)
  }

  predicate Inv(e: Env, s: State) {
    && MemoryOk(s.m.mem.live)
    && Held(s.g.a) <= s.m.mem.live
    && |s.g.a.mods| <= MAX_NUM_MODULES
    && StatusOk(s.g, s.m)
    && SafeLog(e, s.m.log)
  }

  /** Live memory that no pointer of the driver refers to. */
  function Unheld(s: State): multiset<Block> {
    s.m.mem.live - Held(s.g.a)
  }

  // ---- Machine steps -------------------------------------------------------------------------

  lemma PlaceKeepsMemory(e: Env, m: Machine, b: Block)
    requires MemoryOk(m.mem.live) && CanPlace(e, m.mem.live, b)
    ensures b !in m.mem.live && MemoryOk(Place(m, b).mem.live)
  {
  }

  lemma {:induction false} FreeAllKeeps(e: Env, m: Machine, blocks: seq<Block>, owner: Owner, rest: multiset<Block>)
    requires m.mem.live == multiset(blocks) + rest
    requires MemoryOk(m.mem.live) && SafeLog(e, m.log)
    requires owner.Driver? ==> m.launched == {}
    ensures
      var m' := FreeAll(m, blocks, owner);
      && m'.mem.live == rest && MemoryOk(rest) && SafeLog(e, m'.log)
      && m' == m.(mem := m'.mem, log := m'.log)
      && m'.mem == m.mem.(live := rest, pagesBack := m'.mem.pagesBack, pulled := m'.mem.pulled)
    decreases blocks
  {
    if blocks == [] {
    } else {
      var m1 := Free(m, blocks[0], owner);
      assert blocks == [blocks[0]] + blocks[1..];
      assert m1.mem.live == multiset(blocks[1..]) + rest;
      FreeAllKeeps(e, m1, blocks[1..], owner, rest);
    }
  }

  lemma ContextIsSafe(e: Env, a: Assets, cpuid: int, request: Request, live: multiset<Block>)
    requires Ready(a, live) && NamesCpu(e, request, cpuid)
    ensures Safe(e, ContextOf(a, cpuid, request, live))
  {
    ContextInWindow(a, cpuid, request, live);
    StackWindow(a.stack);
    WindowEnd(a.stack);
  }

  /** Whether the VMM is initialised after it answered a request. */
  function InitialisedBy(request: Request, ret: Ret, before: bool): bool {
    if ret == Success && request.Init? then true
    else if ret == Success && request.Fini? then false
    else before
  }

  /** What call_vmm leaves alone, whatever the pointers are. */
  lemma CallVmmFrame(e: Env, a: Assets, m: Machine, request: Request)
    ensures
      var (m', ret) := CallVmm(e, a, m, request);
      && m'.mem == m.mem && m'.launched == m.launched && m'.cpu == m.cpu
      && m'.initialised == InitialisedBy(request, ret, m.initialised)
      && (ret == Success || ret == Unknown || ret.External?)
  {
    hide ContextOf;
  }

  lemma CallVmmKeeps(e: Env, a: Assets, m: Machine, request: Request)
    requires Ready(a, m.mem.live) && SafeLog(e, m.log)
    requires request.VmmInit? || request.VmmFini? ==> request.cpuid == m.cpu
    ensures
      var (m', ret) := CallVmm(e, a, m, request);
      && m'.mem == m.mem && m'.launched == m.launched && m'.cpu == m.cpu && SafeLog(e, m'.log)
      && m'.initialised == InitialisedBy(request, ret, m.initialised)
      && (ret == Success ==> a.entry != 0)
      && m'.cpuEvents == m.cpuEvents +
         (if ret != Success then [] else match request
            case VmmInit(k) => [InitCpu(k)]
            case VmmFini(k) => [FiniCpu(k)]
            case _ => [])
  {
    var (m1, args) := LibraryCall(e, m);
    if args == 0 {
      var (m2, cpuid) := CurrentCpu(e, m1);
      ContextIsSafe(e, a, cpuid, request, m2.mem.live);
    }
  }

  // ---- Announcing memory ---------------------------------------------------------------------

  /** Only the log and the delivered descriptors may have changed. */
  predicate Kept(e: Env, m: Machine, m': Machine) {
    && m'.mem == m.mem && m'.launched == m.launched && m'.initialised == m.initialised && m'.cpu == m.cpu
    && m'.cpuEvents == m.cpuEvents && SafeLog(e, m'.log)
  }

  lemma {:induction false} AnnounceRangeKeeps(e: Env, a: Assets, m: Machine, lo: nat, hi: nat, access: Access)
    requires Ready(a, m.mem.live) && SafeLog(e, m.log)
    ensures Kept(e, m, AnnounceRange(e, a, m, lo, hi, access).0)
    decreases if lo <= hi then hi - lo + 1 else 0
  {
    if lo > hi {
    } else {
      var request := AddMdl(Descriptor(lo, PhysOf(e, lo), access));
      CallVmmKeeps(e, a, m, request);
      AnnounceRangeKeeps(e, a, CallVmm(e, a, m, request).0, lo + MAX_PAGE_SIZE, hi, access);
    }
  }

  lemma {:induction false} AnnounceModuleKeeps(e: Env, a: Assets, m: Machine, b: Binary, k: nat)
    requires k <= |b.segs| && Ready(a, m.mem.live) && SafeLog(e, m.log)
    ensures Kept(e, m, AnnounceModule(e, a, m, b, k).0)
    decreases |b.segs| - k
  {
    if k >= |b.segs| {
    } else {
      var m1 := LibraryCall(e, m).0;
      var seg := b.segs[k];
      AnnounceRangeKeeps(e, a, m1, SegStart(b, seg), SegEnd(b, seg), AccessOf(seg));
      var m2 := AnnounceRange(e, a, m1, SegStart(b, seg), SegEnd(b, seg), AccessOf(seg)).0;
      AnnounceModuleKeeps(e, a, m2, b, k + 1);
    }
  }

  lemma {:induction false} AnnounceModulesKeeps(e: Env, a: Assets, m: Machine, mods: seq<Binary>)
    requires Ready(a, m.mem.live) && SafeLog(e, m.log)
    ensures Kept(e, m, AnnounceModules(e, a, m, mods).0)
    decreases mods
  {
    if mods == [] {
    } else {
      AnnounceModuleKeeps(e, a, m, mods[0], 0);
      AnnounceModulesKeeps(e, a, AnnounceModule(e, a, m, mods[0], 0).0, mods[1..]);
    }
  }
}
