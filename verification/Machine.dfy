/** Everything outside src/common.c: the allocator, the processors, the ELF loader and the VMM.
    A call to the outside is answered by an arbitrary sequence of answers, one for each call, so
    every call may succeed or fail at any time. An answer that breaks the contract of the
    interface (an allocator handing out memory that is in use, say) is read as a refusal. */
module Machine {
  import opened Config
  import opened Words

  // ---- Results and status codes -------------------------------------------------------------

  datatype Status = Unloaded | Loaded | Running | Corrupt

  datatype Ret =
    | Success
    | OutOfMemory
    | InvalidArg
    | NoModulesAdded
    | MaxModulesReached
    | VmmCorrupted
    | VmmInvalidState
    | Unknown
    | VmmStartFailed
    | VmmStopFailed
    | External(code: int)

  /** All the success codes of the different interfaces are one value. */
  function CodeOf(c: int): Ret {
    if c == 0 then Success else External(c)
  }

  // ---- Memory --------------------------------------------------------------------------------

  datatype Kind = Rw | Rwe

  datatype Block = Block(addr: nat, len: nat, kind: Kind)

  predicate Disjoint(a: Block, b: Block) {
    a.addr + Extent(a) <= b.addr || b.addr + Extent(b) <= a.addr
  }

  function Extent(b: Block): nat {
    if b.len == 0 then 1 else b.len
  }

  /** A loadable part of an ELF module; `exec` is the bit bfpf_x of its permissions. */
  datatype Segment = Segment(offset: nat, memsz: nat, exec: bool)

  datatype RawBinary = Binary(file: nat, fileSize: nat, exec: nat, execSize: nat, segs: seq<Segment>)

  /** The ELF loader places every segment inside the image, and no image touches the last page
      of the address space. */
  predicate InBounds(b: RawBinary) {
    b.exec + b.execSize + MAX_PAGE_SIZE < U64 && SegmentsWithin(b.segs, b.execSize)
  }

  predicate SegmentsWithin(segs: seq<Segment>, size: nat) {
    forall s | s in segs :: s.offset + s.memsz <= size
  }

  type Binary = b: RawBinary | InBounds(b) witness Binary(0, 0, 0, 0, [])

  const NO_BINARY: Binary := Binary(0, 0, 0, 0, [])

  // ---- What the outside answers --------------------------------------------------------------

  datatype Os = Linux | Windows | Uefi

  datatype Image = NoImage | Keep | Fresh(addr: nat, size: nat, segs: seq<Segment>)

  datatype Answer = Answer(
    addr: nat,           // the address an allocator proposes
    code: int,           // the return code of a library call, the VMM or a vmcall
    affinity: int,       // negative: the processor switch failed
    whoami: int,         // negative: the firmware cannot tell the processor number
    enableAp: bool,      // the firmware can enable the processor to switch to
    cpu: nat,            // the processor an unpinned thread lands on
    caller: nat,         // the processor the next call of the driver comes from
    cpus: CpuCount,      // the processor count
    entry: nat,          // the entry point found by the ELF loader, 0 for none
    images: seq<Image>   // what the ELF loader does for each module
  )

  /** `answers(n)` answers the call made at time n. */
  datatype Env = Env(os: Os, phys: nat -> nat, answers: nat -> Answer)

  // ---- What is observed ----------------------------------------------------------------------

  datatype Access = RE | RW

  datatype Descriptor = Descriptor(virt: nat, phys: nat, access: Access)

  datatype Request =
    | Init
    | Fini
    | AddMdl(md: Descriptor)
    | VmmInit(cpuid: nat)
    | VmmFini(cpuid: nat)
    | GetDrr(vcpuid: nat)

  /** A per-processor request that succeeded, and the processor it ran on. */
  datatype CpuEvent = InitCpu(cpu: nat) | StartCpu(cpu: nat) | StopCpu(cpu: nat) | FiniCpu(cpu: nat)

  datatype Owner = Driver | Ioctl

  datatype Event =
    // call_vmm wrote a thread context at `at`
    | Context(request: Request, cpuid: int, at: nat, sp: nat, tlsptr: nat,
              stack: Block, tls: Block, live: multiset<Block>)
    // a block was given back
    | Freed(block: Block, owner: Owner, live: multiset<Block>, launched: set<nat>)

  datatype Ledger = Ledger(
    live: multiset<Block>,       // the blocks handed out and not given back
    pagesOut: nat,               // firmware pages handed out so far
    pagesBack: nat,              // firmware pages given back so far
    pulled: nat                  // blocks of the driver given back while the VMM was initialised
  )

  datatype Machine = Machine(
    now: nat,                    // calls answered so far
    mem: Ledger,
    cpu: nat,                    // the processor the caller runs on
    launched: set<nat>,          // the processors inside the VMM
    initialised: bool,           // the VMM accepted INIT, and no FINI since
    cpuEvents: seq<CpuEvent>,
    delivered: seq<Descriptor>,  // memory descriptors the VMM accepted
    log: seq<Event>
  )

  // ---- The allocator -------------------------------------------------------------------------

  /** Page count of the UEFI allocator (src/arch/uefi/Platform.c). */
  function Pages(len: nat): nat {
    len / EFI_PAGE_SIZE + 1
  }

  /** The bytes an allocator sets aside: whole pages on UEFI. */
  function Footprint(os: Os, b: Block): (n: nat)
    ensures n >= Extent(b)
  {
    if os.Uefi? then Pages(b.len) * EFI_PAGE_SIZE else Extent(b)
  }

  predicate Apart(os: Os, a: Block, b: Block) {
    a.addr + Footprint(os, a) <= b.addr || b.addr + Footprint(os, b) <= a.addr
  }

  /** The allocator's contract: a null-free address range that is not in use and ends at least
      one page below the top; Linux and Windows refuse an empty request. */
  predicate CanPlace(e: Env, live: multiset<Block>, b: Block) {
    && b.addr != 0
    && (b.len != 0 || e.os.Uefi?)
    && b.addr + Footprint(e.os, b) + MAX_PAGE_SIZE < U64
    && forall x | x in live :: Apart(e.os, b, x)
  }

  function Place(m: Machine, b: Block): Machine {
    m.(mem := m.mem.(live := m.mem.live + multiset{b}, pagesOut := m.mem.pagesOut + Pages(b.len)))
  }

  function Tick(m: Machine): Machine {
    m.(now := m.now + 1)
  }

  function Alloc(e: Env, m: Machine, len: nat, kind: Kind): (r: (Machine, nat))
    ensures r.1 != 0 ==> CanPlace(e, m.mem.live, Block(r.1, len, kind))
  {
    var b := Block(e.answers(m.now).addr, len, kind);
    if CanPlace(e, m.mem.live, b) then (Place(Tick(m), b), b.addr) else (Tick(m), 0)
  }

  function Free(m: Machine, b: Block, owner: Owner): Machine {
    m.(mem := m.mem.(live := m.mem.live - multiset{b},
                     pagesBack := m.mem.pagesBack + (if b in m.mem.live then Pages(b.len) else 0),
                     pulled := m.mem.pulled + (if owner.Driver? && m.initialised then 1 else 0)),
       log := m.log + [Freed(b, owner, m.mem.live, m.launched)])
  }

  function FreeAll(m: Machine, blocks: seq<Block>, owner: Owner): Machine
    decreases blocks
  {
    if blocks == [] then m else FreeAll(Free(m, blocks[0], owner), blocks[1..], owner)
  }

  /** All the blocks can be given back, one after the other. */
  predicate Freeable(live: multiset<Block>, blocks: seq<Block>)
    decreases blocks
  {
    blocks == [] || (blocks[0] in live && Freeable(live - multiset{blocks[0]}, blocks[1..]))
  }

  lemma {:induction false} LiveIsFreeable(live: multiset<Block>, blocks: seq<Block>)
    requires multiset(blocks) <= live
    ensures Freeable(live, blocks)
    decreases blocks
  {
    if blocks == [] {
    } else {
      assert blocks == [blocks[0]] + blocks[1..];
      assert multiset(blocks) == multiset{blocks[0]} + multiset(blocks[1..]);
      assert blocks[0] in multiset(blocks);
      LiveIsFreeable(live - multiset{blocks[0]}, blocks[1..]);
    }
  }

  lemma {:induction false} FreeAllFrame(m: Machine, blocks: seq<Block>, owner: Owner)
    ensures
      var m' := FreeAll(m, blocks, owner);
      m' == m.(mem := m'.mem, log := m'.log)
    decreases blocks
  {
    if blocks == [] {
    } else {
      FreeAllFrame(Free(m, blocks[0], owner), blocks[1..], owner);
    }
  }

  // ---- Processors ----------------------------------------------------------------------------

  /** Where a call of the driver comes from: any processor, but on UEFI the one the caller was left
      on. */
  function Arrive(e: Env, m: Machine): Machine {
    if e.os.Uefi? then m else m.(cpu := e.answers(m.now).caller)
  }

  function NumCpus(e: Env, m: Machine): (Machine, CpuCount) {
    (Tick(m), e.answers(m.now).cpus)
  }

  /** The UEFI services needed to get from one processor to another: none but WhoAmI when the
      caller is already there. */
  predicate Reaches(a: Answer, from: nat, to: nat) {
    a.whoami >= 0 && (from == to || (a.enableAp && a.affinity >= 0))
  }

  /** platform_set_affinity: a negative result is a failure; otherwise the caller is pinned to
      processor k. UEFI returns the processor the caller came from. */
  function SetAffinity(e: Env, m: Machine, k: nat): (r: (Machine, int))
    ensures r.1 >= 0 ==> r.0.cpu == k
  {
    var a := e.answers(m.now);
    if e.os.Uefi? then
      if Reaches(a, m.cpu, k) then (Tick(m).(cpu := k), m.cpu) else (Tick(m), -1)
    else if a.affinity < 0 then (Tick(m).(cpu := a.cpu), a.affinity)
    else (Tick(m).(cpu := k), if e.os.Linux? then k else a.affinity)
  }

  /** platform_restore_affinity: nothing on Linux, the scheduler's choice on Windows, a processor
      switch that may fail on UEFI. */
  function RestoreAffinity(e: Env, m: Machine, caller: nat): Machine {
    var a := e.answers(m.now);
    match e.os
    case Linux => Tick(m)
    case Windows => Tick(m).(cpu := a.cpu)
    case Uefi => if Reaches(a, m.cpu, caller) then Tick(m).(cpu := caller) else Tick(m)
  }

  function CurrentCpu(e: Env, m: Machine): (Machine, int) {
    (Tick(m), if e.os.Uefi? && e.answers(m.now).whoami < 0 then -1 else m.cpu)
  }

  datatype VmcallOp = VmcallStart | VmcallStop

  /** True when the VMM accepted the vmcall (it cleared the result register). */
  function Vmcall(e: Env, m: Machine, op: VmcallOp): (Machine, bool) {
    if e.answers(m.now).code != 0 then (Tick(m), false)
    else match op
      case VmcallStart =>
        (Tick(m).(launched := m.launched + {m.cpu}, cpuEvents := m.cpuEvents + [StartCpu(m.cpu)]), true)
      case VmcallStop =>
        (Tick(m).(launched := m.launched - {m.cpu}, cpuEvents := m.cpuEvents + [StopCpu(m.cpu)]), true)
  }

  // ---- Library calls and the entry point of the VMM ------------------------------------------

  /** A library call with no effect the driver can see besides its return code. */
  function LibraryCall(e: Env, m: Machine): (Machine, int) {
    (Tick(m), e.answers(m.now).code)
  }

  function Enter(e: Env, m: Machine, request: Request): (Machine, int) {
    var code := e.answers(m.now).code;
    (if code != 0 then Tick(m) else Accept(Tick(m), request), code)
  }

  function Accept(m: Machine, request: Request): Machine {
    match request
    case Init => m.(initialised := true)
    case Fini => m.(initialised := false)
    case AddMdl(md) => m.(delivered := m.delivered + [md])
    case VmmInit(_) => m.(cpuEvents := m.cpuEvents + [InitCpu(m.cpu)])
    case VmmFini(_) => m.(cpuEvents := m.cpuEvents + [FiniCpu(m.cpu)])
    case GetDrr(_) => m
  }

  function PhysOf(e: Env, virt: nat): nat {
    if e.os.Uefi? then virt else e.phys(virt)
  }

  // ---- The ELF loader ------------------------------------------------------------------------

  function FileOf(b: Binary): Block {
    Block(b.file, b.fileSize, Rw)
  }

  function Files(mods: seq<Binary>): (r: seq<Block>)
    ensures |r| == |mods|
  {
    seq(|mods|, i requires 0 <= i < |mods| => FileOf(mods[i]))
  }

  /** The loader leaves a module without an image, leaves it alone, or gives it a fresh one. */
  function LoadImage(e: Env, m: Machine, b: Binary, image: Image): (Machine, Binary) {
    match image
    case Keep => (m, b)
    case NoImage => (m, b.(exec := 0, execSize := 0, segs := []))
    case Fresh(addr, size, segs) =>
      if CanPlace(e, m.mem.live, Block(addr, size, Rwe)) && SegmentsWithin(segs, size) then
        (Place(m, Block(addr, size, Rwe)), b.(exec := addr, execSize := size, segs := segs))
      else
        (m, b.(exec := 0, execSize := 0, segs := []))
  }

  function LoadImages(e: Env, m: Machine, mods: seq<Binary>, images: seq<Image>): (r: (Machine, seq<Binary>))
    ensures |r.1| == |mods|
    decreases mods
  {
    if mods == [] then (m, [])
    else
      var image := if images == [] then NoImage else images[0];
      var (m1, b) := LoadImage(e, m, mods[0], image);
      var (m2, rest) := LoadImages(e, m1, mods[1..], if images == [] then [] else images[1..]);
      (m2, [b] + rest)
  }

  /** Loading images only allocates. */
  lemma {:induction false} LoadImagesFrame(e: Env, m: Machine, mods: seq<Binary>, images: seq<Image>)
    ensures
      var m' := LoadImages(e, m, mods, images).0;
      m' == m.(mem := m'.mem) && m'.mem.pulled == m.mem.pulled
    decreases mods
  {
    hide CanPlace, SegmentsWithin;
    if mods == [] {
    } else {
      var image := if images == [] then NoImage else images[0];
      LoadImagesFrame(e, LoadImage(e, m, mods[0], image).0, mods[1..], if images == [] then [] else images[1..]);
    }
  }

  /** bfelf_load: the new modules, the entry point and the return code. */
  function BfelfLoad(e: Env, m: Machine, mods: seq<Binary>): (r: (Machine, seq<Binary>, nat, int))
    ensures |r.1| == |mods|
  {
    var a := e.answers(m.now);
    var (m1, mods') := LoadImages(e, Tick(m), mods, a.images);
    (m1, mods', a.entry, a.code)
  }
}
