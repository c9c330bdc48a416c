/** src/arch/uefi/Platform.c as a program over the firmware. Each function keeps the firmware's page
    table and current processor in step with the function of the same purpose in Machine, so what is
    proved about the machine holds of the firmware. */
module Uefi {
  import opened Config
  import opened Safety
  import opened Words
  import M = Machine

  /** A range of n pages at `addr` that overlaps no allocated range. */
  predicate Available(pages: map<nat, nat>, addr: nat, n: nat) {
    && addr != 0 && addr + n * EFI_PAGE_SIZE + MAX_PAGE_SIZE < U64
    && forall a | a in pages :: addr + n * EFI_PAGE_SIZE <= a || a + pages[a] * EFI_PAGE_SIZE <= addr
  }

  /** Boot services and multi-processor services. What they answer is up to the firmware: `pick` is
      the range it chooses, 0 for none, and an Answer says which services succeed. */
  class Firmware {
    var pages: map<nat, nat>  // the allocated ranges: first address and page count
    var processor: nat

    constructor (processor: nat)
      ensures pages == map[] && this.processor == processor
    {
      pages, this.processor := map[], processor;
    }

    method AllocatePages(n: nat, pick: nat) returns (ok: bool, addr: nat)
      modifies this`pages
      ensures addr == pick && (ok <==> Available(old(pages), pick, n))
      ensures pages == if ok then old(pages)[addr := n] else old(pages)
    {
      ok, addr := Available(pages, pick, n), pick;
      if ok {
        pages := pages[addr := n];
      }
    }

    /** The firmware takes back a range only as a whole. */
    method FreePages(addr: nat, n: nat) returns (ok: bool)
      modifies this`pages
      ensures ok <==> addr in old(pages) && old(pages)[addr] == n
      ensures pages == if ok then old(pages) - {addr} else old(pages)
    {
      ok := addr in pages && pages[addr] == n;
      if ok {
        pages := pages - {addr};
      }
    }

    method WhoAmI(a: M.Answer) returns (ok: bool, cpu: nat)
      ensures ok == (a.whoami >= 0) && cpu == processor
    {
      ok, cpu := a.whoami >= 0, processor;
    }

    method EnableAp(cpu: nat, a: M.Answer) returns (ok: bool)
      ensures ok == a.enableAp
    {
      ok := a.enableAp;
    }

    method SwitchBsp(cpu: nat, a: M.Answer) returns (ok: bool)
      modifies this`processor
      ensures ok == (a.affinity >= 0)
      ensures processor == if ok then cpu else old(processor)
    {
      ok := a.affinity >= 0;
      if ok {
        processor := cpu;
      }
    }
  }

  // ---- The firmware's table and the ledger ---------------------------------------------------

  /** The firmware's table holds one range for each live block. */
  predicate Tracks(live: multiset<M.Block>, pages: map<nat, nat>) {
    && (forall b | b in live :: b.addr in pages && pages[b.addr] == M.Pages(b.len))
    && (forall a | a in pages :: exists b :: b in live && b.addr == a)
  }

  /** The allocator of the machine accepts a proposal exactly when the firmware does. */
  lemma PlacedIffAvailable(e: M.Env, live: multiset<M.Block>, pages: map<nat, nat>, b: M.Block)
    requires e.os.Uefi? && Tracks(live, pages)
    ensures M.CanPlace(e, live, b) <==> Available(pages, b.addr, M.Pages(b.len))
    ensures M.CanPlace(e, live, b) ==> b.addr != 0 && b.addr !in pages
  {
    hide M.Pages;
    if M.CanPlace(e, live, b) {
      forall a | a in pages
        ensures b.addr + M.Pages(b.len) * EFI_PAGE_SIZE <= a || a + pages[a] * EFI_PAGE_SIZE <= b.addr
        ensures b.addr != a
      {
        var c :| c in live && c.addr == a;
        assert M.Apart(e.os, b, c);
      }
    }
  }

  lemma PlacedIsTracked(live: multiset<M.Block>, pages: map<nat, nat>, b: M.Block)
    requires Tracks(live, pages) && b.addr !in pages
    ensures Tracks(live + multiset{b}, pages[b.addr := M.Pages(b.len)])
  {
    var live', pages' := live + multiset{b}, pages[b.addr := M.Pages(b.len)];
    assert b in live';
    forall a | a in pages' && a != b.addr
      ensures exists c :: c in live' && c.addr == a
    {
      var c :| c in live && c.addr == a;
      assert c in live';
    }
  }

  lemma SameAddressSameBlock(live: multiset<M.Block>, a: M.Block, b: M.Block)
    requires MemoryOk(live) && a in live && b in live && a.addr == b.addr
    ensures a == b
  {
    assert a == b || M.Disjoint(a, b);
  }

  /** A block given back with the length it was allocated with is taken back by the firmware, whole,
      and the table keeps tracking the ledger. A wrong page count would leave it allocated. */
  lemma FreeAgrees(live: multiset<M.Block>, pages: map<nat, nat>, b: M.Block)
    requires MemoryOk(live) && Tracks(live, pages) && b in live
    ensures b.addr in pages && pages[b.addr] == M.Pages(b.len)
    ensures Tracks(live - multiset{b}, pages - {b.addr})
  {
    var live' := live - multiset{b};
    forall c | c in live'
      ensures c.addr in pages - {b.addr} && (pages - {b.addr})[c.addr] == M.Pages(c.len)
    {
      assert c in live;
      if c.addr == b.addr {
        SameAddressSameBlock(live, b, c);
        assert false;
      }
    }
    forall a | a in pages - {b.addr}
      ensures exists c :: c in live' && c.addr == a
    {
      var c :| c in live && c.addr == a;
      assert c in live';
    }
  }

  // ---- The platform layer --------------------------------------------------------------------

  class Layer {
    const fw: Firmware

    constructor (fw: Firmware)
      ensures this.fw == fw
    {
      this.fw := fw;
    }

    /** The firmware is where the machine says it is. */
    ghost predicate Mirrors(m: M.Machine)
      reads fw
    {
      Tracks(m.mem.live, fw.pages) && fw.processor == m.cpu
    }

    /** platform_alloc_rw and platform_alloc_rwe differ only in the firmware's memory type. */
    method Alloc(len: nat, pick: nat, ghost e: M.Env, ghost m: M.Machine, ghost kind: M.Kind) returns (addr: nat)
      requires e.os.Uefi? && Mirrors(m)
      modifies fw`pages
      ensures addr == if M.CanPlace(e, m.mem.live, M.Block(pick, len, kind)) then pick else 0
      ensures Mirrors(if addr != 0 then M.Place(m, M.Block(pick, len, kind)) else m)
      ensures pick == e.answers(m.now).addr ==>
                addr == M.Alloc(e, m, len, kind).1 && Mirrors(M.Alloc(e, m, len, kind).0)
      ensures fw.pages == if addr != 0 then old(fw.pages)[addr := len / EFI_PAGE_SIZE + 1] else old(fw.pages)
      ensures addr != 0 ==> len < fw.pages[addr] * EFI_PAGE_SIZE
    {
      hide Tracks, M.CanPlace, Available;
      PlacedIffAvailable(e, m.mem.live, fw.pages, M.Block(pick, len, kind));
      var ok;
      ok, addr := fw.AllocatePages(len / EFI_PAGE_SIZE + 1, pick);
      if !ok {
        return 0;
      }
      PlacedIsTracked(m.mem.live, old(fw.pages), M.Block(pick, len, kind));
    }

    method Free(addr: nat, len: nat, ghost m: M.Machine, ghost kind: M.Kind, ghost owner: M.Owner)
      requires Mirrors(m) && MemoryOk(m.mem.live) && M.Block(addr, len, kind) in m.mem.live
      modifies fw`pages
      ensures Mirrors(M.Free(m, M.Block(addr, len, kind), owner))
      ensures fw.pages == old(fw.pages) - {addr}
    {
      hide Tracks, MemoryOk;
      FreeAgrees(m.mem.live, fw.pages, M.Block(addr, len, kind));
      var _ := fw.FreePages(addr, len / EFI_PAGE_SIZE + 1);
    }

    method SetAffinity(affinity: nat, a: M.Answer, ghost e: M.Env, ghost m: M.Machine) returns (ret: int)
      requires e.os.Uefi? && Mirrors(m) && a == e.answers(m.now)
      modifies fw`processor
      ensures ret == M.SetAffinity(e, m, affinity).1 && Mirrors(M.SetAffinity(e, m, affinity).0)
      ensures ret == if a.whoami >= 0 && (old(fw.processor) == affinity || (a.enableAp && a.affinity >= 0))
                     then old(fw.processor) else -1
      ensures fw.processor == if ret >= 0 then affinity else old(fw.processor)
    {
      hide Tracks;
      var status, cpu := fw.WhoAmI(a);
      if !status {
        return -1;
      }
      if cpu == affinity {
        return cpu;
      }
      status := fw.EnableAp(affinity, a);
      if !status {
        return -1;
      }
      status := fw.SwitchBsp(affinity, a);
      if !status {
        return -1;
      }
      return cpu;
    }

    method RestoreAffinity(affinity: nat, a: M.Answer, ghost e: M.Env, ghost m: M.Machine)
      requires e.os.Uefi? && Mirrors(m) && a == e.answers(m.now)
      modifies fw`processor
      ensures Mirrors(M.RestoreAffinity(e, m, affinity))
      ensures fw.processor == if a.whoami >= 0 && (old(fw.processor) == affinity || (a.enableAp && a.affinity >= 0))
                              then affinity else old(fw.processor)
    {
      hide Tracks;
      var _ := SetAffinity(affinity, a, e, m);
    }

    method CurrentCpuNum(a: M.Answer, ghost e: M.Env, ghost m: M.Machine) returns (ret: int)
      requires e.os.Uefi? && Mirrors(m) && a == e.answers(m.now)
      ensures ret == M.CurrentCpu(e, m).1 && Mirrors(M.CurrentCpu(e, m).0)
    {
      hide Tracks;
      var status, cpu := fw.WhoAmI(a);
      return if status then cpu else -1;
    }
  }
}
