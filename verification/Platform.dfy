/** The outside as an object the driver calls. Each method answers with the function of the same
    name in Machine; on UEFI it runs the code of Platform.c over the firmware. */
module Platform {
  import opened Config
  import opened Safety
  import M = Machine
  import Uefi

  class Platform {
    const env: M.Env
    var m: M.Machine
    const uefi: Uefi.Layer  // in use on UEFI only

    /** No memory is handed out twice, and the firmware agrees with the machine. */
    ghost predicate Valid()
      reads this, uefi.fw
    {
      MemoryOk(m.mem.live) && (env.os.Uefi? ==> uefi.Mirrors(m))
    }

    constructor (env: M.Env, m: M.Machine, uefi: Uefi.Layer)
      requires MemoryOk(m.mem.live) && (env.os.Uefi? ==> uefi.Mirrors(m))
      ensures Valid() && this.env == env && this.m == m && this.uefi == uefi
    {
      this.env, this.m, this.uefi := env, m, uefi;
    }

    /** Reserves memory at the place the allocator picks, if it may. */
    method Reserve(len: nat, pick: nat, kind: M.Kind) returns (addr: nat)
      requires Valid()
      modifies this, uefi.fw
      ensures Valid()
      ensures addr == if M.CanPlace(env, old(m).mem.live, M.Block(pick, len, kind)) then pick else 0
      ensures m == if addr != 0 then M.Place(old(m), M.Block(pick, len, kind)) else old(m)
    {
      hide M.CanPlace, MemoryOk, Uefi.Tracks;
      if env.os.Uefi? {
        addr := uefi.Alloc(len, pick, env, m, kind);
      } else {
        addr := if M.CanPlace(env, m.mem.live, M.Block(pick, len, kind)) then pick else 0;
      }
      if addr != 0 {
        PlaceKeepsMemory(env, m, M.Block(pick, len, kind));
        m := M.Place(m, M.Block(pick, len, kind));
      }
    }

    method AllocRw(len: nat) returns (addr: nat)
      requires Valid()
      modifies this, uefi.fw
      ensures Valid()
      ensures (m, addr) == M.Alloc(env, old(m), len, M.Rw)
    {
      hide M.CanPlace, MemoryOk, Uefi.Tracks;
      var pick := env.answers(m.now).addr;
      m := M.Tick(m);
      addr := Reserve(len, pick, M.Rw);
      PickIsNotNull(env, old(m), len, M.Rw);
    }

    static lemma PickIsNotNull(e: M.Env, m: M.Machine, len: nat, kind: M.Kind)
      ensures M.CanPlace(e, m.mem.live, M.Block(e.answers(m.now).addr, len, kind)) ==> e.answers(m.now).addr != 0
    {
    }

    method Free(addr: nat, len: nat, kind: M.Kind, owner: M.Owner)
      requires Valid() && M.Block(addr, len, kind) in m.mem.live
      modifies this, uefi.fw
      ensures Valid()
      ensures m == M.Free(old(m), M.Block(addr, len, kind), owner)
    {
      hide Uefi.Tracks;
      if env.os.Uefi? {
        uefi.Free(addr, len, m, kind, owner);
      }
      m := M.Free(m, M.Block(addr, len, kind), owner);
    }

    method FreeRw(addr: nat, len: nat, owner: M.Owner)
      requires Valid() && M.Block(addr, len, M.Rw) in m.mem.live
      modifies this, uefi.fw
      ensures Valid()
      ensures m == M.Free(old(m), M.Block(addr, len, M.Rw), owner)
    {
      Free(addr, len, M.Rw, owner);
    }

    method FreeRwe(addr: nat, len: nat, owner: M.Owner)
      requires Valid() && M.Block(addr, len, M.Rwe) in m.mem.live
      modifies this, uefi.fw
      ensures Valid()
      ensures m == M.Free(old(m), M.Block(addr, len, M.Rwe), owner)
    {
      Free(addr, len, M.Rwe, owner);
    }

    /** The next call of the driver comes from some processor. */
    method Arrive()
      requires Valid()
      modifies this
      ensures Valid() && m == M.Arrive(env, old(m))
    {
      m := M.Arrive(env, m);
    }

    method NumCpus() returns (n: CpuCount)
      requires Valid()
      modifies this
      ensures Valid()
      ensures (m, n) == M.NumCpus(env, old(m))
    {
      var r := M.NumCpus(env, m);
      m, n := r.0, r.1;
    }

    method SetAffinity(cpu: nat) returns (caller: int)
      requires Valid()
      modifies this, uefi.fw
      ensures Valid()
      ensures (m, caller) == M.SetAffinity(env, old(m), cpu)
    {
      var r := M.SetAffinity(env, m, cpu);
      caller := r.1;
      if env.os.Uefi? {
        caller := uefi.SetAffinity(cpu, env.answers(m.now), env, m);
      }
      m := r.0;
    }

    method RestoreAffinity(caller: nat)
      requires Valid()
      modifies this, uefi.fw
      ensures Valid()
      ensures m == M.RestoreAffinity(env, old(m), caller)
    {
      if env.os.Uefi? {
        uefi.RestoreAffinity(caller, env.answers(m.now), env, m);
      }
      m := M.RestoreAffinity(env, m, caller);
    }

    method CurrentCpu() returns (cpuid: int)
      requires Valid()
      modifies this
      ensures Valid()
      ensures (m, cpuid) == M.CurrentCpu(env, old(m))
    {
      var r := M.CurrentCpu(env, m);
      cpuid := r.1;
      if env.os.Uefi? {
        cpuid := uefi.CurrentCpuNum(env.answers(m.now), env, m);
      }
      m := r.0;
    }

    method Vmcall(op: M.VmcallOp) returns (ok: bool)
      requires Valid()
      modifies this
      ensures Valid()
      ensures (m, ok) == M.Vmcall(env, old(m), op)
    {
      var r := M.Vmcall(env, m, op);
      m, ok := r.0, r.1;
    }

    method LibraryCall() returns (code: int)
      requires Valid()
      modifies this
      ensures Valid()
      ensures (m, code) == M.LibraryCall(env, old(m))
    {
      var r := M.LibraryCall(env, m);
      m, code := r.0, r.1;
    }

    /** A write to memory that the log observes. */
    method Write(ev: M.Event)
      requires Valid()
      modifies this
      ensures Valid()
      ensures m == old(m).(log := old(m).log + [ev])
    {
      m := m.(log := m.log + [ev]);
    }

    method Enter(request: M.Request) returns (code: int)
      requires Valid()
      modifies this
      ensures Valid()
      ensures (m, code) == M.Enter(env, old(m), request)
    {
      var r := M.Enter(env, m, request);
      m, code := r.0, r.1;
    }

    // ---- The ELF loader, which allocates images through the same platform ---------------------

    method LoadImage(b: M.Binary, image: M.Image) returns (b': M.Binary)
      requires Valid()
      modifies this, uefi.fw
      ensures Valid()
      ensures (m, b') == M.LoadImage(env, old(m), b, image)
    {
      hide MemoryOk, Uefi.Tracks;
      match image {
        case Keep => return b;
        case NoImage =>
        case Fresh(pick, size, segs) =>
          if M.SegmentsWithin(segs, size) {
            var addr := Reserve(size, pick, M.Rwe);
            if addr != 0 {
              return b.(exec := addr, execSize := size, segs := segs);
            }
          }
      }
      return b.(exec := 0, execSize := 0, segs := []);
    }

    static function From(images: seq<M.Image>, i: nat): seq<M.Image> {
      if i <= |images| then images[i..] else []
    }

    static function ImageAt(images: seq<M.Image>, i: nat): M.Image {
      if i < |images| then images[i] else M.NoImage
    }

    /** One round of the loader's loop over the modules. */
    static lemma LoadImagesStep(e: M.Env, m: M.Machine, mods: seq<M.Binary>, images: seq<M.Image>, i: nat)
      requires i < |mods|
      ensures
        var (m1, b) := M.LoadImage(e, m, mods[i], ImageAt(images, i));
        var (m2, rest) := M.LoadImages(e, m1, mods[i + 1..], From(images, i + 1));
        M.LoadImages(e, m, mods[i..], From(images, i)) == (m2, [b] + rest)
    {
      hide M.LoadImage;
      assert mods[i..][1..] == mods[i + 1..];
      if i < |images| {
        assert images[i..][1..] == images[i + 1..];
      }
    }

    static lemma NothingToLoad(e: M.Env, m: M.Machine, images: seq<M.Image>)
      ensures M.LoadImages(e, m, [], images) == (m, [])
    {
    }

    static lemma FromStart(images: seq<M.Image>)
      ensures From(images, 0) == images
    {
    }

    /** The loader's loop over the modules. */
    method LoadAll(modules: array<M.Binary>, n: nat, images: seq<M.Image>)
      requires Valid() && n <= modules.Length
      modifies this, uefi.fw, modules
      ensures Valid()
      ensures (m, modules[..n]) == M.LoadImages(env, old(m), old(modules[..n]), images)
      ensures forall i | n <= i < modules.Length :: modules[i] == old(modules[i])
    {
      hide M.LoadImages, M.LoadImage, MemoryOk, Uefi.Tracks, From, ImageAt;
      ghost var mods := modules[..n];
      FromStart(images);
      assert mods[0..] == mods;
      ghost var all := M.LoadImages(env, m, mods, images);
      for i := 0 to n
        invariant Valid()
        invariant forall k | i <= k < modules.Length :: modules[k] == old(modules[k])
        invariant forall k | 0 <= k < i :: modules[k] == all.1[k]
        invariant (all.0, all.1[i..]) == M.LoadImages(env, m, mods[i..], From(images, i))
      {
        LoadImagesStep(env, m, mods, images, i);
        var b := LoadImage(modules[i], ImageAt(images, i));
        assert all.1[i..][0] == b && all.1[i + 1..] == all.1[i..][1..];
        modules[i] := b;
      }
      assert mods[n..] == [];
      NothingToLoad(env, m, From(images, n));
      assert modules[..n] == all.1;
    }

    /** The loader rewrites the first n entries of the module table. */
    method BfelfLoad(modules: array<M.Binary>, n: nat) returns (entry: nat, code: int)
      requires Valid() && n <= modules.Length
      modifies this, uefi.fw, modules
      ensures Valid()
      ensures (m, modules[..n], entry, code) == M.BfelfLoad(env, old(m), old(modules[..n]))
      ensures forall i | n <= i < modules.Length :: modules[i] == old(modules[i])
    {
      var a := env.answers(m.now);
      m := M.Tick(m);
      LoadAll(modules, n, a.images);
      entry, code := a.entry, a.code;
    }
  }
}
