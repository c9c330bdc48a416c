/** src/common.c as functions from state to state. The class in Common.dfy is the program itself;
    each of its methods is proved to compute the function of the same name here, and the
    properties of the driver are proved about these functions. */
module CommonModel {
  import opened Config
  import opened Machine
  import opened Words

  /** The global variables of src/common.c that describe memory. `mods` is the part of
      g_modules in use. */
  datatype Assets = Assets(
    mods: seq<Binary>,
    entry: nat,
    tls: nat,
    tlsSize: nat,
    stack: nat,
    stackSize: nat,
    stackTop: nat
  )

  /** All global variables of src/common.c. */
  datatype Globals = Globals(status: Status, started: nat, a: Assets)

  datatype State = State(g: Globals, m: Machine)

  datatype Out = Out(s: State, ret: Ret)

  function StackBlock(a: Assets): Block {
    Block(a.stack, a.stackSize, Rw)
  }

  function TlsBlock(a: Assets): Block {
    Block(a.tls, a.tlsSize, Rw)
  }

  // ---- Memory the driver holds ---------------------------------------------------------------

  function ExecOf(b: Binary): multiset<Block> {
    if b.exec != 0 then multiset{Block(b.exec, b.execSize, Rwe)} else multiset{}
  }

  function Execs(mods: seq<Binary>): multiset<Block> {
    if mods == [] then multiset{} else ExecOf(mods[0]) + Execs(mods[1..])
  }

  function TlsHeld(a: Assets): multiset<Block> {
    if a.tls != 0 then multiset{TlsBlock(a)} else multiset{}
  }

  function StackHeld(a: Assets): multiset<Block> {
    if a.stack != 0 then multiset{StackBlock(a)} else multiset{}
  }

  /** The blocks the pointers of the driver refer to. */
  function Held(a: Assets): multiset<Block> {
    Execs(a.mods) + TlsHeld(a) + StackHeld(a)
  }

  /** The same blocks in the order in which common_reset gives them back. */
  function Holdings(a: Assets): seq<Block> {
    ExecList(a.mods)
    + (if a.tls != 0 then [TlsBlock(a)] else [])
    + (if a.stack != 0 then [StackBlock(a)] else [])
  }

  function ExecList(mods: seq<Binary>): seq<Block> {
    if mods == [] then []
    else (if mods[0].exec != 0 then [Block(mods[0].exec, mods[0].execSize, Rwe)] else []) + ExecList(mods[1..])
  }

  lemma {:induction false} ExecListIsExecs(mods: seq<Binary>)
    ensures multiset(ExecList(mods)) == Execs(mods)
  {
    if mods == [] {
    } else {
      ExecListIsExecs(mods[1..]);
    }
  }

  lemma HoldingsAreHeld(a: Assets)
    ensures multiset(Holdings(a)) == Held(a)
  {
    ExecListIsExecs(a.mods);
  }

  // ---- Helpers -------------------------------------------------------------------------------

  function StackTop(base: nat): nat {
    Wrap(Mask(Wrap(base + 2 * STACK_SIZE), STACK_SIZE) - 1)
  }

  function WithAssets(s: State, a: Assets): State {
    s.(g := s.g.(a := a))
  }

  function SetupStack(e: Env, s: State): Out {
    var (m, addr) := Alloc(e, s.m, 2 * STACK_SIZE, Rw);
    var a := s.g.a.(stackSize := 2 * STACK_SIZE, stack := addr);
    if addr == 0 then Out(State(s.g.(a := a), m), OutOfMemory)
    else Out(State(s.g.(a := a.(stackTop := StackTop(addr))), m), Success)
  }

  function SetupTls(e: Env, s: State): Out {
    var (m0, n) := NumCpus(e, s.m);
    var size := Wrap(THREAD_LOCAL_STORAGE_SIZE * n);
    var (m, addr) := Alloc(e, m0, size, Rw);
    Out(State(s.g.(a := s.g.a.(tlsSize := size, tls := addr)), m), if addr == 0 then OutOfMemory else Success)
  }

  /** The thread context written by call_vmm. */
  function ContextOf(a: Assets, cpuid: int, request: Request, live: multiset<Block>): Event {
    var at := Wrap(a.stackTop - CONTEXT_SIZE);
    Context(request, cpuid, at, Wrap(at - 1), Wrap(a.tls + THREAD_LOCAL_STORAGE_SIZE * cpuid),
            StackBlock(a), TlsBlock(a), live)
  }

  function CallVmm(e: Env, a: Assets, m: Machine, request: Request): (Machine, Ret) {
    var (m1, args) := LibraryCall(e, m);
    if args != 0 then (m1, External(args))
    else
      var (m2, cpuid) := CurrentCpu(e, m1);
      var m3 := m2.(log := m2.log + [ContextOf(a, cpuid, request, m2.mem.live)]);
      if a.entry == 0 then (m3, Unknown)
      else
        var (m4, code) := Enter(e, m3, request);
        (m4, CodeOf(code))
  }

  function AddRawMd(e: Env, a: Assets, m: Machine, virt: nat, access: Access): (Machine, Ret) {
    CallVmm(e, a, m, AddMdl(Descriptor(virt, PhysOf(e, virt), access)))
  }

  /** The page loops of src/common.c: one descriptor for lo, lo + P, ... up to hi. */
  function AnnounceRange(e: Env, a: Assets, m: Machine, lo: nat, hi: nat, access: Access): (Machine, Ret)
    decreases if lo <= hi then hi - lo + 1 else 0
  {
    if lo > hi then (m, Success)
    else
      var (m1, ret) := AddRawMd(e, a, m, lo, access);
      if ret != Success then (m1, ret)
      else AnnounceRange(e, a, m1, lo + MAX_PAGE_SIZE, hi, access)
  }

  function SegStart(b: Binary, seg: Segment): nat
    requires seg in b.segs
  {
    Mask(b.exec + seg.offset, MAX_PAGE_SIZE)
  }

  function SegEnd(b: Binary, seg: Segment): nat
    requires seg in b.segs
  {
    Mask(b.exec + seg.offset + seg.memsz, MAX_PAGE_SIZE)
  }

  function AccessOf(seg: Segment): Access {
    if seg.exec then RE else RW
  }

  /** add_md_to_memory_manager, from segment k on. */
  function AnnounceModule(e: Env, a: Assets, m: Machine, b: Binary, k: nat): (Machine, Ret)
    requires k <= |b.segs|
    decreases |b.segs| - k
  {
    if k == |b.segs| then (m, Success)
    else
      var (m1, code) := LibraryCall(e, m);
      if code != 0 then (m1, External(code))
      else
        var seg := b.segs[k];
        var (m2, ret) := AnnounceRange(e, a, m1, SegStart(b, seg), SegEnd(b, seg), AccessOf(seg));
        if ret != Success then (m2, ret) else AnnounceModule(e, a, m2, b, k + 1)
  }

  function AnnounceModules(e: Env, a: Assets, m: Machine, mods: seq<Binary>): (Machine, Ret)
    decreases mods
  {
    if mods == [] then (m, Success)
    else
      var (m1, ret) := AnnounceModule(e, a, m, mods[0], 0);
      if ret != Success then (m1, ret) else AnnounceModules(e, a, m1, mods[1..])
  }

  // ---- Reset and unload ----------------------------------------------------------------------

  function Reset(s: State): State {
    State(Globals(Unloaded, 0, Assets([], 0, 0, s.g.a.tlsSize, 0, s.g.a.stackSize, 0)),
          FreeAll(s.m, Holdings(s.g.a), Driver))
  }

  function WithStatus(s: State, status: Status): State {
    s.(g := s.g.(status := status))
  }

  function Unload(e: Env, s: State): Out {
    match s.g.status
    case Corrupt => Out(s, VmmCorrupted)
    case Running => Out(s, VmmInvalidState)
    case Unloaded => Out(Reset(s), Success)
    case Loaded =>
      var (m, ret) := CallVmm(e, s.g.a, s.m, Fini);
      if ret != Success then Out(WithStatus(s.(m := m), Corrupt), VmmCorrupted)
      else Out(Reset(s.(m := m)), Success)
  }

  // ---- Adding modules and loading ------------------------------------------------------------

  function Add(s: State, file: nat, size: nat): Out {
    if file == 0 || size == 0 then Out(s, InvalidArg)
    else match s.g.status
      case Corrupt => Out(s, VmmCorrupted)
      case Loaded => Out(s, VmmInvalidState)
      case Running => Out(s, VmmInvalidState)
      case Unloaded =>
        if |s.g.a.mods| >= MAX_NUM_MODULES then Out(s, MaxModulesReached)
        else
          var b := NO_BINARY.(file := file, fileSize := size);
          Out(WithAssets(s, s.g.a.(mods := s.g.a.mods + [b])), Success)
  }

  /** bfelf_load on the module table. */
  function LoadElf(e: Env, s: State): Out {
    var (m, mods, entry, code) := BfelfLoad(e, s.m, s.g.a.mods);
    Out(State(s.g.(a := s.g.a.(mods := mods, entry := entry)), m), CodeOf(code))
  }

  /** The part of common_load_vmm that loads the modules and sends the INIT request. */
  function LoadAndInit(e: Env, s: State): Out {
    var o := LoadElf(e, s);
    if o.ret != Success then o
    else
      var (m, ret) := CallVmm(e, o.s.g.a, o.s.m, Init);
      Out(o.s.(m := m), ret)
  }

  function TlsAndElf(e: Env, s: State): Out {
    var o := SetupTls(e, s);
    if o.ret != Success then o else LoadAndInit(e, o.s)
  }

  /** The part of common_load_vmm up to the INIT request. */
  function Prepare(e: Env, s: State): Out {
    var o := SetupStack(e, s);
    if o.ret != Success then o else TlsAndElf(e, o.s)
  }

  /** The last part of common_load_vmm; on a refusal it returns without a rollback. */
  function AnnounceTls(e: Env, s: State): Out {
    var a := s.g.a;
    var (m, ret) := AnnounceRange(e, a, s.m, a.tls, a.tls + a.tlsSize, RW);
    Finished(s.(m := m), ret)
  }

  function Finished(s: State, ret: Ret): Out {
    Out(if ret != Success then s else WithStatus(s, Loaded), ret)
  }

  /** The part of common_load_vmm that announces the memory of the VMM. */
  function AnnounceAll(e: Env, s: State): Out {
    var (m, ret) := AnnounceModules(e, s.g.a, s.m, s.g.a.mods);
    if ret != Success then Out(Unload(e, s.(m := m)).s, ret) else AnnounceTls(e, s.(m := m))
  }

  function Load(e: Env, s: State): Out {
    match s.g.status
    case Corrupt => Out(s, VmmCorrupted)
    case Loaded => Out(s, Success)
    case Running => Out(s, VmmInvalidState)
    case Unloaded =>
      if s.g.a.mods == [] then Out(s, NoModulesAdded)
      else
        var o := Prepare(e, s);
        if o.ret != Success then Out(Unload(e, o.s).s, o.ret) else AnnounceAll(e, o.s)
  }

  // ---- Stop and start ------------------------------------------------------------------------

  /** One round of the loop of common_stop_vmm, on the last processor started. */
  function StopOne(e: Env, s: State): (o: Out)
    requires s.g.started > 0
    ensures o.ret == Success ==> o.s.g == s.g.(started := s.g.started - 1)
  {
    var cpuid := s.g.started - 1;
    var (m1, caller) := SetAffinity(e, s.m, cpuid);
    if caller < 0 then Out(WithStatus(s.(m := m1), Corrupt), External(caller))
    else
      var (m2, ok) := Vmcall(e, m1, VmcallStop);
      if !ok then Out(s.(m := m2), VmmStopFailed)
      else
        var (m3, ret) := CallVmm(e, s.g.a, m2, VmmFini(cpuid));
        if ret != Success then Out(WithStatus(s.(m := m3), Corrupt), ret)
        else Out(State(s.g.(started := cpuid), RestoreAffinity(e, m3, caller)), Success)
  }

  function StopLoop(e: Env, s: State): Out
    decreases s.g.started
  {
    if s.g.started == 0 then Out(WithStatus(s, Loaded), Success)
    else
      var o := StopOne(e, s);
      if o.ret != Success then o else StopLoop(e, o.s)
  }

  function Stop(e: Env, s: State): Out {
    match s.g.status
    case Corrupt => Out(s, VmmCorrupted)
    case Loaded => Out(s, Success)
    case Unloaded => Out(s, VmmInvalidState)
    case Running => StopLoop(e, s)
  }

  /** One round of the loop of common_start_vmm; a failure before the vmcall stops the VMM. */
  function StartOne(e: Env, s: State, cpuid: nat): (o: Out)
    ensures o.ret == Success ==> o.s.g == s.g.(started := s.g.started + 1, status := Running)
  {
    var (m1, caller) := SetAffinity(e, s.m, cpuid);
    if caller < 0 then Out(Stop(e, s.(m := m1)).s, External(caller))
    else
      var (m2, ret) := CallVmm(e, s.g.a, m1, VmmInit(cpuid));
      if ret != Success then Out(Stop(e, s.(m := m2)).s, ret)
      else
        var g := s.g.(started := s.g.started + 1);
        var (m3, ok) := Vmcall(e, m2, VmcallStart);
        if !ok then Out(State(g, m3), VmmStartFailed)
        else Out(State(g.(status := Running), RestoreAffinity(e, m3, caller)), Success)
  }

  /** The loop of common_start_vmm from processor `cpuid` on. */
  function StartLoop(e: Env, s: State, cpuid: CpuCount): Out
    decreases 0x8000_0000_0000_0000 - cpuid
  {
    var (m, n) := NumCpus(e, s.m);
    if cpuid >= n then Out(s.(m := m), Success)
    else
      var o := StartOne(e, s.(m := m), cpuid);
      if o.ret != Success then o else StartLoop(e, o.s, cpuid + 1)
  }

  function Start(e: Env, s: State): Out {
    match s.g.status
    case Corrupt => Out(s, VmmCorrupted)
    case Running => Out(s, Success)
    case Unloaded => Out(s, VmmInvalidState)
    case Loaded => StartLoop(e, s.(g := s.g.(started := 0)), 0)
  }

  // ---- Dump and fini -------------------------------------------------------------------------

  function Dump(e: Env, s: State, drr: bool, vcpuid: nat): Out {
    if !drr then Out(s, InvalidArg)
    else if s.g.status == Unloaded then Out(s, VmmInvalidState)
    else
      var (m, ret) := CallVmm(e, s.g.a, s.m, GetDrr(vcpuid));
      Out(s.(m := m), ret)
  }

  function Finish(e: Env, s: State): Out {
    var s1 := if s.g.status == Running then Stop(e, s).s else s;
    var s2 := if s1.g.status == Loaded then Unload(e, s1).s else s1;
    if s2.g.status == Corrupt then Out(s2, VmmCorrupted)
    else if s2.g.status == Unloaded && s2.g.a.mods != [] then Out(Reset(s2), Success)
    else Out(s2, Success)
  }

  // ---- Runs ----------------------------------------------------------------------------------

  datatype Op =
    | AddOp(file: nat, size: nat)
    | LoadOp
    | UnloadOp
    | StartOp
    | StopOp
    | DumpOp(drr: bool, vcpuid: nat)
    | FiniOp

  /** One call of the interface, from whatever processor it comes. */
  function Step(e: Env, s: State, op: Op): Out {
    Perform(e, Enters(e, s), op)
  }

  function Enters(e: Env, s: State): State {
    s.(m := Arrive(e, s.m))
  }

  function Perform(e: Env, s: State, op: Op): Out {
    match op
    case AddOp(file, size) => Add(s, file, size)
    case LoadOp => Load(e, s)
    case UnloadOp => Unload(e, s)
    case StartOp => Start(e, s)
    case StopOp => Stop(e, s)
    case DumpOp(drr, vcpuid) => Dump(e, s, drr, vcpuid)
    case FiniOp => Finish(e, s)
  }

  function Run(e: Env, s: State, ops: seq<Op>): State
    decreases ops
  {
    if ops == [] then s else Run(e, Step(e, s, ops[0]).s, ops[1..])
  }

  /** The state after common_init at load time: all globals are zero, nothing is allocated. */
  function Boot(cpu: nat): State {
    State(Globals(Unloaded, 0, Assets([], 0, 0, 0, 0, 0, 0)),
          Machine(0, Ledger(multiset{}, 0, 0, 0), cpu, {}, false, [], [], []))
  }
}
