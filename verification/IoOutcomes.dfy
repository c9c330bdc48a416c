/** Which answers of the outside lead to which outcome of an ioctl, and what the caller is told. */
module IoOutcomes {
  import opened CommonModel
  import opened Config
  import opened EntryModel
  import opened Invariant
  import opened Lifecycle
  import opened Machine
  import opened Outcomes
  import opened Safety
  import opened Tables
  import opened Words

  // ---- Add -----------------------------------------------------------------------------------

  function NewBuffer(e: Env, x: Io): Block {
    Block(e.answers(x.s.m.now).addr, x.moduleLength, Rw)
  }

  /** The conditions of an ioctl add: room, memory, a complete copy, an unloaded driver, and a length. */
  predicate CanAdd(e: Env, x: Io) {
    && |x.pmods| < MAX_NUM_MODULES && CanPlace(e, x.s.m.mem.live, NewBuffer(e, x))
    && e.answers(x.s.m.now + 1).code == 0 && x.s.g.status == Unloaded && x.moduleLength != 0
  }

  /** An ioctl add works if and only if its conditions hold; then both tables end in the new module, and
      otherwise nothing is allocated or changed. */
  lemma IoAddEnds(e: Env, x: Io)
    requires IoInv(e, x)
    ensures
      var o := Execute(e, x, AddModule);
      && o.ret == (if CanAdd(e, x) then IoSuccess else IoFailure)
      && if CanAdd(e, x) then
           && o.x.pmods == x.pmods + [PModule(NewBuffer(e, x).addr, x.moduleLength)]
           && Files(o.x.s.g.a.mods) == Files(x.s.g.a.mods) + [NewBuffer(e, x)]
           && o.x.s.m.mem.live == x.s.m.mem.live + multiset{NewBuffer(e, x)}
         else
           o.x == x.(s := x.s.(m := o.x.s.m)) && o.x.s.m.mem.live == x.s.m.mem.live
  {
    hide Inv, Unheld, Files, TablesAgree, CanPlace;
    BufferEnds(e, x);
    if |x.pmods| < MAX_NUM_MODULES {
      RoomForBoth(e, x, NewBuffer(e, x).addr, x.moduleLength);
    }
    if CanAdd(e, x) {
      AddEnds(x.s.(m := Tick(Place(Tick(x.s.m), NewBuffer(e, x)))), NewBuffer(e, x).addr, x.moduleLength);
    }
  }

  lemma BufferEnds(e: Env, x: Io)
    ensures CanPlace(e, x.s.m.mem.live, NewBuffer(e, x)) ==> NewBuffer(e, x).addr != 0
    ensures x.s.m.mem.live + multiset{NewBuffer(e, x)} - multiset{NewBuffer(e, x)} == x.s.m.mem.live
  {
    hide Apart;
  }

  // ---- Unload and load -----------------------------------------------------------------------

  /** An ioctl unload always empties pmodules and frees its buffers; it works if and only if the driver
      is unloaded, or loaded and the FINI gets through. */
  lemma IoUnloadEnds(e: Env, x: Io)
    requires IoInv(e, x)
    ensures
      var o := Execute(e, x, UnloadVmm);
      && o.x.pmods == [] && o.x.moduleLength == x.moduleLength && o.x.vcpuid == x.vcpuid
      && (o.ret == IoSuccess <==>
            x.s.g.status == Unloaded || (x.s.g.status == Loaded && Accepted(e, x.s.g.a.entry, x.s.m.now)))
      && o.ret == (if Pristine(o.x.s.g) then IoSuccess else IoFailure)
      && (o.ret == IoSuccess ==> o.x.s.m.mem.live == multiset{})
      && (o.ret == IoFailure ==>
            && o.x.s.g == x.s.g.(status := if x.s.g.status == Loaded then Corrupt else x.s.g.status)
            && o.x.s.m.mem.live == Held(x.s.g.a))
  {
    hide Unload, Inv, Unheld, Held, Accepted, FreeAll, Files, TablesAgree;
    UnloadCases(e, x.s);
    if x.s.g.status == Loaded {
      UnloadEnds(e, x.s);
    }
    ResetEnds(x.s);
    IoctlUnloadWorks(e, x);
    UnloadWorks(e, x.s);
    DropBuffers(e, Unload(e, x.s).s, Buffers(x.pmods));
  }

  /** An ioctl load reports what the driver does. One that fails empties pmodules; when the driver was
      unloaded it leaves nothing at all behind, whatever failed. */
  lemma IoLoadEnds(e: Env, x: Io)
    requires IoInv(e, x)
    ensures
      var o := Execute(e, x, LoadVmm);
      && (o.ret == IoSuccess <==>
            x.s.g.status == Loaded
            || (x.s.g.status == Unloaded && x.s.g.a.mods != [] && LoadEndOf(e, x.s).Complete?))
      && (o.ret != IoSuccess ==> o.ret == IoFailure && o.x.pmods == [])
      && (o.ret != IoSuccess && x.s.g.status == Unloaded ==>
            Pristine(o.x.s.g) && o.x.s.m.mem.live == multiset{})
      && (o.ret != IoSuccess && x.s.g.status != Unloaded ==> o.x.s.g == x.s.g)
      && (o.ret == IoSuccess ==> o.x == x.(s := o.x.s) && o.x.s.g.status == Loaded)
  {
    hide Load, IoctlUnload, Inv, Unheld, Held, LoadEndOf, PrepareRet, Prepare, FreeAll, Files, TablesAgree;
    hide Accepted, Perform;
    if x.s.g.status == Unloaded && x.s.g.a.mods != [] {
      LoadEnds(e, x.s);
    } else {
      LoadVerdict(e, x.s);
    }
    LoadWorks(e, x.s);
    if Load(e, x.s).ret != Success {
      FailedLoad(e, x);
    }
  }

  lemma LoadVerdict(e: Env, s: State)
    requires s.g.status != Unloaded || s.g.a.mods == []
    ensures Load(e, s) == Out(s, VerdictOn(s.g, LoadOp).ret) && VerdictOn(s.g, LoadOp).Answered?
  {
    hide Prepare, AnnounceAll;
  }

  /** What the repair of a failed load leaves. */
  lemma FailedLoad(e: Env, x: Io)
    requires IoInv(e, x) && Load(e, x.s).ret != Success
    ensures
      var o := IoctlUnload(e, x.(s := Load(e, x.s).s));
      && o.x.pmods == []
      && (x.s.g.status == Unloaded ==> Pristine(o.x.s.g) && o.x.s.m.mem.live == multiset{})
      && (x.s.g.status != Unloaded ==> o.x.s.g == x.s.g)
  {
    hide Load, Unload, Inv, Unheld, Held, Files, TablesAgree, FreeAll, Holdings;
    var s1 := Load(e, x.s).s;
    LoadWorks(e, x.s);
    LoadStays(e, x.s);
    UnloadCases(e, s1);
    UnloadWorks(e, s1);
    ResetEnds(s1);
    DropBuffers(e, Unload(e, s1).s, Buffers(x.pmods));
    if x.s.g.status == Unloaded {
      CleanHoldsNothing(e, Unload(e, s1).s);
    }
  }

  lemma LoadStays(e: Env, s: State)
    requires Load(e, s).ret != Success
    ensures s.g.status == Unloaded ==> Load(e, s).s.g.status == Unloaded
    ensures s.g.status != Unloaded ==> Load(e, s).s == s && s.g.status != Loaded
  {
    hide Prepare, PrepareRet, SegmentsAccepted, PagesAccepted, AnnounceAll, LoadEndOf;
    if s.g.status == Unloaded && s.g.a.mods != [] {
      hide Load;
      LoadEnds(e, s);
    }
  }

  // ---- Start and stop ------------------------------------------------------------------------

  lemma StopVerdict(e: Env, s: State)
    requires s.g.status != Running
    ensures Stop(e, s) == Out(s, VerdictOn(s.g, StopOp).ret)
  {
    hide StopLoop;
  }

  /** An ioctl stop reports what the driver does and changes nothing of the ioctl layer. */
  lemma IoStopEnds(e: Env, x: Io)
    requires IoInv(e, x)
    ensures
      var o := Execute(e, x, StopVmm);
      && o.x == x.(s := o.x.s)
      && (o.ret == IoSuccess <==>
            x.s.g.status == Loaded
            || (x.s.g.status == Running && StopEndOf(e, x.s.g.a, x.s.m, x.s.g.started).Through?))
      && (o.ret != IoSuccess ==> o.ret == IoFailure)
      && (x.s.g.status == Running ==>
            StopLeaves(x.s, o.x.s, x.s.g.started, x.s.m.launched, StopEndOf(e, x.s.g.a, x.s.m, x.s.g.started)))
      && (x.s.g.status != Running ==> o.x == x)
  {
    hide Stop, StopEndOf, StopLeaves, Inv, Unheld, Files, TablesAgree;
    if x.s.g.status == Running {
      StopEnds(e, x.s);
    } else {
      StopVerdict(e, x.s);
    }
  }

  /** What an ioctl start leaves when the driver's start fails: the driver is stopped again, as far as the
      answers then let it. */
  predicate FailedStartLeaves(e: Env, s: State, s': State) {
    if s.g.status != Running then s' == s
    else StopLeaves(s, s', s.g.started, s.m.launched, StopEndOf(e, s.g.a, s.m, s.g.started))
  }

  lemma LoadedIdle(e: Env, s: State)
    requires Inv(e, s)
    ensures s.g.status == Loaded ==> s.m.launched == {}
  {
  }

  lemma StartVerdict(e: Env, s: State)
    requires s.g.status != Loaded
    ensures Start(e, s) == Out(s, VerdictOn(s.g, StartOp).ret)
  {
    hide StartLoop;
  }

  /** An ioctl start reports what the driver does. A start that fails is followed by a stop, so whenever it
      leaves the VMM running on some processor, it ends LOADED with nothing inside if and only if every
      step of that stop gets through. */
  lemma IoStartEnds(e: Env, x: Io)
    requires IoInv(e, x)
    ensures
      var o := Execute(e, x, StartVmm);
      var s1 := Start(e, x.s).s;
      && o.x == x.(s := o.x.s)
      && (o.ret == IoSuccess <==>
            x.s.g.status == Running
            || (x.s.g.status == Loaded && StartEndOf(e, x.s.g.a, x.s.m, 0).AllUp?))
      && o.ret == Report(Start(e, x.s).ret)
      && (o.ret != IoSuccess ==> FailedStartLeaves(e, s1, o.x.s))
      && (o.ret == IoSuccess ==> o.x.s == s1)
      && (o.ret != IoSuccess && s1.g.status == Running ==>
            (o.x.s.g == s1.g.(status := Loaded, started := 0)
             <==> StopEndOf(e, s1.g.a, s1.m, s1.g.started).Through?))
      && (o.ret != IoSuccess && o.x.s.g.status == Loaded ==> o.x.s.m.launched == {})
  {
    hide Start, Stop, StartEndOf, StopEndOf, Inv, Unheld, Files, TablesAgree, CpusBelow, Up, Down;
    WrongState(e, x.s);
    if x.s.g.status == Loaded {
      StartEnds(e, x.s);
    } else {
      StartVerdict(e, x.s);
    }
    var j := StartWorks(e, x.s);
    var s1 := Start(e, x.s).s;
    WrongState(e, s1);
    if s1.g.status == Running {
      StopEnds(e, s1);
    }
    StopWorks(e, s1);
    LoadedIdle(e, Stop(e, s1).s);
  }

  // ---- The commands that only pass things on -------------------------------------------------

  /** An ioctl dump names the virtual processor set before; it works if and only if the VMM is there and
      answers, and the copy is complete. */
  lemma IoDumpEnds(e: Env, x: Io)
    ensures
      var o := Execute(e, x, DumpVmm);
      && o.x == x.(s := x.s.(m := o.x.s.m)) && o.x.s.m.mem == x.s.m.mem
      && (o.ret == IoSuccess <==>
            x.s.g.status != Unloaded && Accepted(e, x.s.g.a.entry, x.s.m.now) && e.answers(x.s.m.now + 3).code == 0)
      && (o.ret != IoSuccess ==> o.ret == IoFailure)
      && (x.s.g.status != Unloaded && e.answers(x.s.m.now).code == 0 ==>
            && |o.x.s.m.log| == |x.s.m.log| + 1
            && o.x.s.m.log[|x.s.m.log|].Context? && o.x.s.m.log[|x.s.m.log|].request == GetDrr(x.vcpuid))
  {
    hide Dump, Accepted, Told;
    if x.s.g.status != Unloaded {
      DumpEnds(e, x.s, x.vcpuid);
      DumpTime(e, x.s, x.vcpuid);
    } else {
      DumpUnloaded(e, x.s, x.vcpuid);
    }
  }

  lemma DumpTime(e: Env, s: State, vcpuid: nat)
    ensures s.g.status != Unloaded && Dump(e, s, true, vcpuid).ret == Success ==>
              Dump(e, s, true, vcpuid).s.m.now == s.m.now + 3
  {
    hide CallVmm;
    CallVmmTime(e, s.g.a, s.m, GetDrr(vcpuid));
  }

  lemma DumpUnloaded(e: Env, s: State, vcpuid: nat)
    requires s.g.status == Unloaded
    ensures Dump(e, s, true, vcpuid) == Out(s, VmmInvalidState)
  {
  }

  /** A user copy that is asked for and complete. */
  predicate Copied(e: Env, x: Io, pointer: bool) {
    pointer && e.answers(x.s.m.now).code == 0
  }

  /** The other commands touch one variable of the ioctl layer, or none. */
  lemma PlainEnds(e: Env, x: Io, pointer: bool, value: Word)
    ensures
      var o := Execute(e, x, AddModuleLength(pointer, value));
      && o.ret == (if Copied(e, x, pointer) then IoSuccess else IoFailure)
      && o.x == x.(s := x.s.(m := o.x.s.m), moduleLength := if pointer then value else x.moduleLength)
    ensures
      var o := Execute(e, x, SetVcpuid(pointer, value));
      && o.ret == (if Copied(e, x, pointer) then IoSuccess else IoFailure)
      && o.x == x.(s := x.s.(m := o.x.s.m), vcpuid := if pointer then value else x.vcpuid)
    ensures
      var o := Execute(e, x, VmmStatus(pointer));
      && o.ret == (if Copied(e, x, pointer) then IoSuccess else IoFailure)
      && o.x == x.(s := x.s.(m := o.x.s.m))
    ensures Execute(e, x, Other) == IoOut(x, IoInvalid)
  {
  }

  /** The reboot notifier runs common_fini and leaves the ioctl layer alone. */
  lemma RebootEnds(e: Env, x: Io)
    requires IoInv(e, x)
    ensures
      var o := Execute(e, x, Reboot);
      && o.ret == IoSuccess && o.x == x.(s := o.x.s)
      && (o.x.s.g.status, o.x.s.g.started) == FinishEndOf(e, x.s)
  {
    hide Finish, FinishEndOf, Inv, Unheld, Files, TablesAgree;
    FinishEnds(e, x.s);
  }
}
