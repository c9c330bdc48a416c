/** src/arch/linux/entry.c as functions from state to state: the ioctl layer over the driver, with
    its own table of module buffers. */
module EntryModel {
  import opened CommonModel
  import opened Config
  import opened Machine
  import opened Words

  datatype PModule = PModule(data: nat, size: nat)

  /** The global variables of entry.c over the state of the driver. `pmods` is the part of
      pmodules in use. */
  datatype Io = Io(s: State, pmods: seq<PModule>, moduleLength: Word, vcpuid: Word)

  datatype IoRet = IoSuccess | IoFailure | IoInvalid

  datatype IoOut = IoOut(x: Io, ret: IoRet)

  function BufferOf(p: PModule): Block {
    Block(p.data, p.size, Rw)
  }

  function Buffers(pmods: seq<PModule>): (r: seq<Block>)
    ensures |r| == |pmods|
  {
    seq(|pmods|, i requires 0 <= i < |pmods| => BufferOf(pmods[i]))
  }

  function Report(ret: Ret): IoRet {
    if ret == Success then IoSuccess else IoFailure
  }

  function WithMachine(x: Io, m: Machine): Io {
    x.(s := x.s.(m := m))
  }

  function IoctlAddModule(e: Env, x: Io): IoOut {
    if |x.pmods| >= MAX_NUM_MODULES then IoOut(x, IoFailure)
    else
      var (m1, buf) := Alloc(e, x.s.m, x.moduleLength, Rw);
      if buf == 0 then IoOut(WithMachine(x, m1), IoFailure)
      else
        var p := PModule(buf, x.moduleLength);
        var (m2, code) := LibraryCall(e, m1);  // copy_from_user
        if code != 0 then IoOut(WithMachine(x, Free(m2, BufferOf(p), Ioctl)), IoFailure)
        else
          var o := Add(x.s.(m := m2), buf, x.moduleLength);
          if o.ret != Success then IoOut(x.(s := o.s.(m := Free(o.s.m, BufferOf(p), Ioctl))), IoFailure)
          else IoOut(x.(s := o.s, pmods := x.pmods + [p]), IoSuccess)
  }

  /** `value` is what g_module_length holds after the copy, complete or not. */
  function IoctlAddModuleLength(e: Env, x: Io, len: bool, value: Word): IoOut {
    if !len then IoOut(x, IoFailure)
    else
      var (m, code) := LibraryCall(e, x.s.m);
      IoOut(WithMachine(x, m).(moduleLength := value), if code != 0 then IoFailure else IoSuccess)
  }

  function IoctlUnload(e: Env, x: Io): IoOut {
    var o := Unload(e, x.s);
    var s := o.s.(m := FreeAll(o.s.m, Buffers(x.pmods), Ioctl));
    IoOut(x.(s := s, pmods := []), Report(o.ret))
  }

  function IoctlLoad(e: Env, x: Io): IoOut {
    var o := Load(e, x.s);
    if o.ret != Success then IoOut(IoctlUnload(e, x.(s := o.s)).x, IoFailure)
    else IoOut(x.(s := o.s), IoSuccess)
  }

  function IoctlStop(e: Env, x: Io): IoOut {
    var o := Stop(e, x.s);
    IoOut(x.(s := o.s), Report(o.ret))
  }

  function IoctlStart(e: Env, x: Io): IoOut {
    var o := Start(e, x.s);
    if o.ret != Success then IoOut(IoctlStop(e, x.(s := o.s)).x, IoFailure)
    else IoOut(x.(s := o.s), IoSuccess)
  }

  function IoctlDump(e: Env, x: Io): IoOut {
    var o := Dump(e, x.s, true, x.vcpuid);
    if o.ret != Success then IoOut(x.(s := o.s), IoFailure)
    else
      var (m, code) := LibraryCall(e, o.s.m);  // copy_to_user
      IoOut(x.(s := o.s.(m := m)), if code != 0 then IoFailure else IoSuccess)
  }

  function IoctlVmmStatus(e: Env, x: Io, status: bool): IoOut {
    if !status then IoOut(x, IoFailure)
    else
      var (m, code) := LibraryCall(e, x.s.m);
      IoOut(WithMachine(x, m), if code != 0 then IoFailure else IoSuccess)
  }

  /** `value` is what g_vcpuid holds after the copy, complete or not. */
  function IoctlSetVcpuid(e: Env, x: Io, vcpuid: bool, value: Word): IoOut {
    if !vcpuid then IoOut(x, IoFailure)
    else
      var (m, code) := LibraryCall(e, x.s.m);
      IoOut(WithMachine(x, m).(vcpuid := value), if code != 0 then IoFailure else IoSuccess)
  }

  /** The commands of dev_unlocked_ioctl, and the reboot notifier (which runs common_fini). A
      boolean argument says whether the user's pointer is non-null. */
  datatype Command =
    | AddModule
    | AddModuleLength(len: bool, value: Word)
    | LoadVmm
    | UnloadVmm
    | StartVmm
    | StopVmm
    | DumpVmm
    | VmmStatus(status: bool)
    | SetVcpuid(vcpuid: bool, value: Word)
    | Other
    | Reboot

  /** One command, from whatever processor it comes. */
  function Dispatch(e: Env, x: Io, c: Command): IoOut {
    Execute(e, x.(s := Enters(e, x.s)), c)
  }

  function Execute(e: Env, x: Io, c: Command): IoOut {
    match c
    case AddModule => IoctlAddModule(e, x)
    case AddModuleLength(len, value) => IoctlAddModuleLength(e, x, len, value)
    case LoadVmm => IoctlLoad(e, x)
    case UnloadVmm => IoctlUnload(e, x)
    case StartVmm => IoctlStart(e, x)
    case StopVmm => IoctlStop(e, x)
    case DumpVmm => IoctlDump(e, x)
    case VmmStatus(status) => IoctlVmmStatus(e, x, status)
    case SetVcpuid(vcpuid, value) => IoctlSetVcpuid(e, x, vcpuid, value)
    case Other => IoOut(x, IoInvalid)
    case Reboot => IoOut(x.(s := Finish(e, x.s).s), IoSuccess)
  }

  function IoRun(e: Env, x: Io, commands: seq<Command>): Io
    decreases commands
  {
    if commands == [] then x else IoRun(e, Dispatch(e, x, commands[0]).x, commands[1..])
  }

  /** The state after dev_init. */
  function IoBoot(cpu: nat): Io {
    Io(Boot(cpu), [], 0, 0)
  }
}
