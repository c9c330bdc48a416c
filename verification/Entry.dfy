/** src/arch/linux/entry.c as a program: the device over the driver. */
module Entry {
  import opened Common
  import opened Config
  import opened Invariant
  import opened Machine
  import opened Platform
  import opened Safety
  import opened Tables
  import opened Words
  import C = CommonModel
  import E = EntryModel

  const NO_PMODULE := E.PModule(0, 0)

  class Device {
    const common: Driver
    const pmodules: array<E.PModule>
    var numPmodules: nat
    var moduleLength: Word
    var vcpuid: Word

    ghost predicate Valid()
      reads this, pmodules, common, common.modules, common.platform, common.platform.uefi.fw
    {
      && common.Valid()
      && pmodules.Length == MAX_NUM_MODULES && numPmodules <= pmodules.Length
      && forall i | numPmodules <= i < pmodules.Length :: pmodules[i] == NO_PMODULE
    }

    ghost function View(): E.Io
      reads this, pmodules, common, common.modules, common.platform, common.platform.uefi.fw
      requires Valid()
    {
      E.Io(common.View(), pmodules[..numPmodules], moduleLength, vcpuid)
    }

    constructor (common: Driver)
      requires common.Valid()
      ensures Valid() && this.common == common && fresh(pmodules)
      ensures View() == E.Io(common.View(), [], 0, 0)
    {
      this.common := common;
      pmodules := new E.PModule[MAX_NUM_MODULES](_ => NO_PMODULE);
      numPmodules, moduleLength, vcpuid := 0, 0, 0;
    }

    static lemma AllocIsLive(e: Env, m: Machine, len: nat)
      ensures
        var (m', addr) := Alloc(e, m, len, Rw);
        addr != 0 ==> Block(addr, len, Rw) in m'.mem.live
    {
      hide CanPlace;
    }

    method AddModule() returns (ret: E.IoRet)
      requires Valid()
      modifies this, pmodules, common, common.modules, common.platform, common.platform.uefi.fw
      ensures Valid() && E.IoOut(View(), ret) == E.IoctlAddModule(common.platform.env, old(View()))
    {
      hide Alloc, C.Add, Free, Platform.Valid;
      AllocIsLive(common.platform.env, common.platform.m, moduleLength);
      if numPmodules >= MAX_NUM_MODULES {
        return E.IoFailure;
      }
      var platform := common.platform;
      var buf := platform.AllocRw(moduleLength);
      if buf == 0 {
        return E.IoFailure;
      }
      var code := platform.LibraryCall();  // copy_from_user
      if code != 0 {
        platform.FreeRw(buf, moduleLength, Owner.Ioctl);
        return E.IoFailure;
      }
      var added := common.AddModule(buf, moduleLength);
      if added != Success {
        platform.FreeRw(buf, moduleLength, Owner.Ioctl);
        return E.IoFailure;
      }
      pmodules[numPmodules] := E.PModule(buf, moduleLength);
      numPmodules := numPmodules + 1;
      assert pmodules[..numPmodules] == old(pmodules[..numPmodules]) + [E.PModule(buf, moduleLength)];
      return E.IoSuccess;
    }

    method AddModuleLength(len: bool, value: Word) returns (ret: E.IoRet)
      requires Valid()
      modifies this, common.platform, common.platform.uefi.fw
      ensures Valid() && E.IoOut(View(), ret) == E.IoctlAddModuleLength(common.platform.env, old(View()), len, value)
    {
      if !len {
        return E.IoFailure;
      }
      var code := common.platform.LibraryCall();  // copy_from_user
      moduleLength := value;
      return if code != 0 then E.IoFailure else E.IoSuccess;
    }

    /** The module buffers are the live memory the driver does not hold. */
    ghost predicate OwnsBuffers()
      reads this, pmodules, common, common.modules, common.platform, common.platform.uefi.fw
      requires Valid()
    {
      && Inv(common.platform.env, common.View())
      && Unheld(common.View()) == multiset(E.Buffers(pmodules[..numPmodules]))
    }

    static lemma BuffersFreeable(e: Env, s: C.State, pmods: seq<E.PModule>)
      requires Inv(e, s) && Unheld(s) == multiset(E.Buffers(pmods))
      ensures C.Held(s.g.a) <= s.m.mem.live
      ensures Freeable(s.m.mem.live, E.Buffers(pmods))
    {
      hide C.Held, E.Buffers, MemoryOk;
      LiveIsFreeable(s.m.mem.live, E.Buffers(pmods));
    }

    static lemma FreeableStep(m: Machine, blocks: seq<Block>)
      requires blocks != [] && Freeable(m.mem.live, blocks)
      ensures blocks[0] in m.mem.live && Freeable(Free(m, blocks[0], Owner.Ioctl).mem.live, blocks[1..])
    {
    }

    /** The freeing loop of ioctl_unload_vmm and the clearing of the table. */
    method FreeModules()
      requires Valid() && Freeable(common.platform.m.mem.live, E.Buffers(pmodules[..numPmodules]))
      modifies this, pmodules, common.platform, common.platform.uefi.fw
      ensures Valid()
      ensures View() == E.WithMachine(old(View()).(pmods := []),
                                      FreeAll(old(common.platform.m), old(E.Buffers(pmodules[..numPmodules])),
                                              Owner.Ioctl))
    {
      hide Free, Freeable, Platform.Valid;
      ghost var buffers := E.Buffers(pmodules[..numPmodules]);
      assert buffers[0..] == buffers;
      var i := 0;
      while i < numPmodules
        invariant Valid() && i <= numPmodules && numPmodules == old(numPmodules) && |buffers| == numPmodules
        invariant E.Buffers(pmodules[..numPmodules]) == buffers
        invariant common.View() == old(common.View()).(m := common.platform.m)
        invariant moduleLength == old(moduleLength) && vcpuid == old(vcpuid)
        invariant Freeable(common.platform.m.mem.live, buffers[i..])
        invariant FreeAll(common.platform.m, buffers[i..], Owner.Ioctl)
               == FreeAll(old(common.platform.m), buffers, Owner.Ioctl)
      {
        assert buffers[i..][1..] == buffers[i + 1..];
        assert buffers[i] == E.BufferOf(pmodules[i]);
        FreeableStep(common.platform.m, buffers[i..]);
        common.platform.FreeRw(pmodules[i].data, pmodules[i].size, Owner.Ioctl);
        i := i + 1;
      }
      assert buffers[i..] == [];
      numPmodules := 0;
      forall k | 0 <= k < pmodules.Length {
        pmodules[k] := NO_PMODULE;
      }
    }

    method UnloadVmm() returns (ret: E.IoRet)
      requires Valid() && OwnsBuffers()
      modifies this, pmodules, common, common.modules, common.platform, common.platform.uefi.fw
      ensures Valid() && E.IoOut(View(), ret) == E.IoctlUnload(common.platform.env, old(View()))
    {
      hide C.Unload, C.Held, FreeAll, Inv, Unheld, Freeable, Platform.Valid;
      BuffersFreeable(common.platform.env, common.View(), pmodules[..numPmodules]);
      UnloadWorks(common.platform.env, common.View());
      var done := common.Unload();
      BuffersFreeable(common.platform.env, common.View(), pmodules[..numPmodules]);
      ret := E.Report(done);
      FreeModules();
    }

    method LoadVmm() returns (ret: E.IoRet)
      requires Valid() && IoInv(common.platform.env, View())
      modifies this, pmodules, common, common.modules, common.platform, common.platform.uefi.fw
      ensures Valid() && E.IoOut(View(), ret) == E.IoctlLoad(common.platform.env, old(View()))
    {
      hide C.Load, E.IoctlUnload, Inv, Unheld, TablesAgree, Platform.Valid;
      LoadWorks(common.platform.env, common.View());
      var done := common.Load();
      if done != Success {
        var _ := UnloadVmm();
        return E.IoFailure;
      }
      return E.IoSuccess;
    }

    method StopVmm() returns (ret: E.IoRet)
      requires Valid()
      modifies common, common.platform, common.platform.uefi.fw
      ensures Valid() && E.IoOut(View(), ret) == E.IoctlStop(common.platform.env, old(View()))
    {
      hide C.Stop;
      var done := common.Stop();
      return E.Report(done);
    }

    method StartVmm() returns (ret: E.IoRet)
      requires Valid()
      modifies common, common.platform, common.platform.uefi.fw
      ensures Valid() && E.IoOut(View(), ret) == E.IoctlStart(common.platform.env, old(View()))
    {
      hide C.Start, E.IoctlStop;
      var done := common.Start();
      if done != Success {
        var _ := StopVmm();
        return E.IoFailure;
      }
      return E.IoSuccess;
    }

    method DumpVmm() returns (ret: E.IoRet)
      requires Valid()
      modifies common.platform, common.platform.uefi.fw
      ensures Valid() && E.IoOut(View(), ret) == E.IoctlDump(common.platform.env, old(View()))
    {
      hide C.Dump;
      var done := common.Dump(true, vcpuid);
      if done != Success {
        return E.IoFailure;
      }
      var code := common.platform.LibraryCall();  // copy_to_user
      return if code != 0 then E.IoFailure else E.IoSuccess;
    }

    method VmmStatus(status: bool) returns (ret: E.IoRet, vmmStatus: Status)
      requires Valid()
      modifies common.platform, common.platform.uefi.fw
      ensures Valid() && E.IoOut(View(), ret) == E.IoctlVmmStatus(common.platform.env, old(View()), status)
      ensures vmmStatus == View().s.g.status
    {
      vmmStatus := common.status;
      if !status {
        return E.IoFailure, vmmStatus;
      }
      var code := common.platform.LibraryCall();  // copy_to_user
      ret := if code != 0 then E.IoFailure else E.IoSuccess;
    }

    method SetVcpuid(id: bool, value: Word) returns (ret: E.IoRet)
      requires Valid()
      modifies this, common.platform, common.platform.uefi.fw
      ensures Valid() && E.IoOut(View(), ret) == E.IoctlSetVcpuid(common.platform.env, old(View()), id, value)
    {
      if !id {
        return E.IoFailure;
      }
      var code := common.platform.LibraryCall();  // copy_from_user
      vcpuid := value;
      return if code != 0 then E.IoFailure else E.IoSuccess;
    }

    lemma OwnsTheBuffers()
      requires Valid() && IoInv(common.platform.env, View())
      ensures OwnsBuffers() && Inv(common.platform.env, common.View())
    {
      hide Inv, Unheld;
    }

    /** dev_unlocked_ioctl, and the reboot notifier as one more command. */
    method Handle(c: E.Command) returns (ret: E.IoRet)
      requires Valid() && IoInv(common.platform.env, View())
      modifies this, pmodules, common, common.modules, common.platform, common.platform.uefi.fw
      ensures Valid() && E.IoOut(View(), ret) == E.Dispatch(common.platform.env, old(View()), c)
      ensures IoInv(common.platform.env, View())
    {
      hide E.IoctlAddModule, E.IoctlAddModuleLength, E.IoctlUnload, E.IoctlLoad, E.IoctlStop, E.IoctlStart,
           E.IoctlDump, E.IoctlVmmStatus, E.IoctlSetVcpuid, C.Finish, C.Run, IoInv, Inv, Unheld, Platform.Valid,
           Driver.Valid, E.Buffers;
      DispatchWorks(common.platform.env, View(), c);
      EntersIo(common.platform.env, View());
      common.Arrive();
      OwnsTheBuffers();
      match c {
        case AddModule =>
          ret := AddModule();
        case AddModuleLength(len, value) =>
          ret := AddModuleLength(len, value);
        case LoadVmm =>
          ret := LoadVmm();
        case UnloadVmm =>
          ret := UnloadVmm();
        case StartVmm =>
          ret := StartVmm();
        case StopVmm =>
          ret := StopVmm();
        case DumpVmm =>
          ret := DumpVmm();
        case VmmStatus(status) =>
          var vmmStatus;
          ret, vmmStatus := VmmStatus(status);
        case SetVcpuid(id, value) =>
          ret := SetVcpuid(id, value);
        case Other =>
          ret := E.IoInvalid;
        case Reboot =>
          var _ := common.Finish();
          ret := E.IoSuccess;
      }
    }
  }
}
