/** Which memory descriptors a load announces to the memory manager of the VMM. */
module Descriptors {
  import opened CommonModel
  import opened Config
  import opened Machine
  import opened Words

  // ---- What should be announced --------------------------------------------------------------

  /** The pages lo, lo + P, ..., up to and including hi. */
  datatype Range = Range(lo: nat, hi: nat, access: Access)

  function PageCount(lo: nat, hi: nat): nat {
    if lo > hi then 0 else (hi - lo) / MAX_PAGE_SIZE + 1
  }

  function PageAt(e: Env, r: Range, i: nat): Descriptor {
    var virt := r.lo + i * MAX_PAGE_SIZE;
    Descriptor(virt, PhysOf(e, virt), r.access)
  }

  function PagesOf(e: Env, r: Range): (ds: seq<Descriptor>)
    ensures |ds| == PageCount(r.lo, r.hi)
  {
    seq(PageCount(r.lo, r.hi), (i: nat) => PageAt(e, r, i))
  }

  function SegRange(b: Binary, seg: Segment): Range {
    var start := b.exec + seg.offset;
    Range(Floor(start, MAX_PAGE_SIZE), Floor(start + seg.memsz, MAX_PAGE_SIZE), AccessOf(seg))
  }

  function ModuleRanges(b: Binary): (rs: seq<Range>)
    ensures |rs| == |b.segs|
  {
    seq(|b.segs|, i requires 0 <= i < |b.segs| => SegRange(b, b.segs[i]))
  }

  function AllRanges(mods: seq<Binary>): seq<Range> {
    if mods == [] then [] else ModuleRanges(mods[0]) + AllRanges(mods[1..])
  }

  function TlsRange(a: Assets): Range {
    Range(a.tls, a.tls + a.tlsSize, RW)
  }

  function Flatten(e: Env, ranges: seq<Range>): seq<Descriptor> {
    if ranges == [] then [] else PagesOf(e, ranges[0]) + Flatten(e, ranges[1..])
  }

  /** Every page of every segment of every module, in order, then the pages of the TLS block. */
  function Announcement(e: Env, a: Assets): seq<Descriptor> {
    Flatten(e, AllRanges(a.mods) + [TlsRange(a)])
  }

  lemma {:induction false} FlattenConcat(e: Env, a: seq<Range>, b: seq<Range>)
    ensures Flatten(e, a + b) == Flatten(e, a) + Flatten(e, b)
    decreases a
  {
    if a == [] {
      assert a + b == b;
    } else {
      assert (a + b)[1..] == a[1..] + b;
      FlattenConcat(e, a[1..], b);
    }
  }

  // ---- What is announced ---------------------------------------------------------------------

  /** From m to m' the descriptors `expected` were delivered, or a prefix of them up to the first
      refusal, whose code is the result. */
  predicate Delivers(e: Env, m: Machine, r: (Machine, Ret), expected: seq<Descriptor>) {
    && m.now <= r.0.now
    && if r.1 == Success then r.0.delivered == m.delivered + expected
       else
         && m.delivered <= r.0.delivered && r.0.delivered[|m.delivered|..] <= expected
         && m.now < r.0.now && e.answers(r.0.now - 1).code != 0
         && r.1 == External(e.answers(r.0.now - 1).code)
  }

  lemma DeliverOne(e: Env, a: Assets, m: Machine, md: Descriptor)
    requires a.entry != 0
    ensures Delivers(e, m, CallVmm(e, a, m, AddMdl(md)), [md])
  {
    hide ContextOf;
  }

  lemma DeliverBoth(e: Env, m: Machine, r1: (Machine, Ret), r2: (Machine, Ret), x: seq<Descriptor>, y: seq<Descriptor>)
    requires Delivers(e, m, r1, x)
    ensures r1.1 == Success && Delivers(e, r1.0, r2, y) ==> Delivers(e, m, r2, x + y)
    ensures r1.1 != Success ==> Delivers(e, m, r1, x + y)
  {
    if r1.1 == Success && Delivers(e, r1.0, r2, y) {
      if r2.1 == Success {
        assert m.delivered + x + y == m.delivered + (x + y);
      } else {
        var d := r2.0.delivered;
        assert d[|m.delivered|..] == x + d[|r1.0.delivered|..];
      }
    }
  }

  lemma PagesOfCons(e: Env, r: Range)
    requires r.lo <= r.hi
    ensures PagesOf(e, r) == [PageAt(e, r, 0)] + PagesOf(e, r.(lo := r.lo + MAX_PAGE_SIZE))
  {
    var rest := r.(lo := r.lo + MAX_PAGE_SIZE);
    CountCons(r.lo, r.hi);
    forall i: nat | i < PageCount(rest.lo, rest.hi)
      ensures PageAt(e, rest, i) == PageAt(e, r, i + 1)
    {
      assert (i + 1) * MAX_PAGE_SIZE == i * MAX_PAGE_SIZE + MAX_PAGE_SIZE;
    }
  }

  lemma CountCons(lo: nat, hi: nat)
    requires lo <= hi
    ensures PageCount(lo, hi) == 1 + PageCount(lo + MAX_PAGE_SIZE, hi)
  {
    var p, d := MAX_PAGE_SIZE, hi - lo;
    if d >= p {
      assert d == (d / p - 1) * p + p + d % p;
      RemainderUnique(d - p, p, d / p - 1, d % p);
    } else {
      RemainderUnique(d, p, 0, d);
    }
  }

  lemma {:induction false} RangeDelivers(e: Env, a: Assets, m: Machine, r: Range)
    requires a.entry != 0
    ensures Delivers(e, m, AnnounceRange(e, a, m, r.lo, r.hi, r.access), PagesOf(e, r))
    decreases if r.lo <= r.hi then r.hi - r.lo + 1 else 0
  {
    hide CallVmm, PagesOf, Delivers;
    if r.lo > r.hi {
      assert PagesOf(e, r) == [];
      NothingDelivered(e, m);
    } else {
      PagesOfCons(e, r);
      var md := PageAt(e, r, 0);
      DeliverOne(e, a, m, md);
      var r1 := CallVmm(e, a, m, AddMdl(md));
      var rest := r.(lo := r.lo + MAX_PAGE_SIZE);
      RangeDelivers(e, a, r1.0, rest);
      DeliverBoth(e, m, r1, AnnounceRange(e, a, r1.0, rest.lo, rest.hi, r.access), [md], PagesOf(e, rest));
    }
  }

  lemma NothingDelivered(e: Env, m: Machine)
    ensures Delivers(e, m, (m, Success), [])
  {
  }

  lemma {:induction false} ModuleDelivers(e: Env, a: Assets, m: Machine, b: Binary, k: nat)
    requires a.entry != 0 && k <= |b.segs|
    ensures Delivers(e, m, AnnounceModule(e, a, m, b, k), Flatten(e, ModuleRanges(b)[k..]))
    decreases |b.segs| - k
  {
    hide AnnounceRange, Delivers, PagesOf;
    var rs := ModuleRanges(b);
    if k == |b.segs| {
      NothingDelivered(e, m);
    } else {
      assert rs[k..][1..] == rs[k + 1..];
      var (m1, code) := LibraryCall(e, m);
      if code != 0 {
        RefusedByLoader(e, m, Flatten(e, rs[k..]));
      } else {
        var seg := b.segs[k];
        SegBounds(b, seg);
        RangeDelivers(e, a, m1, rs[k]);
        LibraryDeliversNothing(e, m, AnnounceRange(e, a, m1, rs[k].lo, rs[k].hi, rs[k].access), PagesOf(e, rs[k]));
        var r := AnnounceRange(e, a, m1, rs[k].lo, rs[k].hi, rs[k].access);
        ModuleDelivers(e, a, r.0, b, k + 1);
        DeliverBoth(e, m, r, AnnounceModule(e, a, r.0, b, k + 1), PagesOf(e, rs[k]), Flatten(e, rs[k + 1..]));
      }
    }
  }

  lemma RefusedByLoader(e: Env, m: Machine, expected: seq<Descriptor>)
    requires LibraryCall(e, m).1 != 0
    ensures Delivers(e, m, (LibraryCall(e, m).0, External(LibraryCall(e, m).1)), expected)
  {
    assert m.delivered[|m.delivered|..] == [];
  }

  lemma LibraryDeliversNothing(e: Env, m: Machine, r: (Machine, Ret), expected: seq<Descriptor>)
    requires Delivers(e, LibraryCall(e, m).0, r, expected)
    ensures Delivers(e, m, r, expected)
  {
  }

  lemma SegBounds(b: Binary, seg: Segment)
    requires seg in b.segs
    ensures SegStart(b, seg) == SegRange(b, seg).lo && SegEnd(b, seg) == SegRange(b, seg).hi
  {
    MaskIsFloor(b.exec + seg.offset, MAX_PAGE_SIZE);
    MaskIsFloor(b.exec + seg.offset + seg.memsz, MAX_PAGE_SIZE);
  }

  lemma {:induction false} ModulesDeliver(e: Env, a: Assets, m: Machine, mods: seq<Binary>)
    requires a.entry != 0
    ensures Delivers(e, m, AnnounceModules(e, a, m, mods), Flatten(e, AllRanges(mods)))
    decreases mods
  {
    hide AnnounceModule, Delivers, Flatten;
    if mods == [] {
      NothingRanged(e);
      NothingDelivered(e, m);
    } else {
      ModuleDelivers(e, a, m, mods[0], 0);
      assert ModuleRanges(mods[0])[0..] == ModuleRanges(mods[0]);
      var r := AnnounceModule(e, a, m, mods[0], 0);
      ModulesDeliver(e, a, r.0, mods[1..]);
      FlattenConcat(e, ModuleRanges(mods[0]), AllRanges(mods[1..]));
      DeliverBoth(e, m, r, AnnounceModules(e, a, r.0, mods[1..]),
                  Flatten(e, ModuleRanges(mods[0])), Flatten(e, AllRanges(mods[1..])));
    }
  }

  lemma NothingRanged(e: Env)
    ensures Flatten(e, []) == []
  {
  }

  // ---- A whole load --------------------------------------------------------------------------

  lemma PrepareDeliversNothing(e: Env, s: State)
    ensures Prepare(e, s).s.m.delivered == s.m.delivered
    ensures Prepare(e, s).s.g.status == s.g.status
    ensures Prepare(e, s).ret == Success ==> Prepare(e, s).s.g.a.entry != 0
  {
    hide ContextOf, LoadImages, CanPlace, StackTop;
    var s1 := SetupStack(e, s).s;
    var s2 := SetupTls(e, s1).s;
    var answer := e.answers(s2.m.now);
    LoadImagesFrame(e, Tick(s2.m), s2.g.a.mods, answer.images);
  }

  lemma AnnounceAllDelivers(e: Env, s: State)
    requires s.g.status == Unloaded && s.g.a.entry != 0
    ensures Delivers(e, s.m, (AnnounceAll(e, s).s.m, AnnounceAll(e, s).ret), Announcement(e, s.g.a))
    ensures AnnounceAll(e, s).ret == Success ==> AnnounceAll(e, s).s.g.a == s.g.a
  {
    hide AnnounceModules, AnnounceRange, Flatten, FreeAll, Holdings, PagesOf;
    var a := s.g.a;
    ModulesDeliver(e, a, s.m, a.mods);
    var r1 := AnnounceModules(e, a, s.m, a.mods);
    TlsIsLast(e, a);
    if r1.1 != Success {
      DeliverBoth(e, s.m, r1, r1, Flatten(e, AllRanges(a.mods)), PagesOf(e, TlsRange(a)));
      FreeAllFrame(r1.0, Holdings(a), Driver);
    } else {
      RangeDelivers(e, a, r1.0, TlsRange(a));
      var r2 := AnnounceRange(e, a, r1.0, a.tls, a.tls + a.tlsSize, RW);
      DeliverBoth(e, s.m, r1, r2, Flatten(e, AllRanges(a.mods)), PagesOf(e, TlsRange(a)));
    }
  }

  lemma TlsIsLast(e: Env, a: Assets)
    ensures Announcement(e, a) == Flatten(e, AllRanges(a.mods)) + PagesOf(e, TlsRange(a))
  {
    hide AllRanges, PagesOf;
    FlattenConcat(e, AllRanges(a.mods), [TlsRange(a)]);
    assert [TlsRange(a)][1..] == [];
    assert Flatten(e, [TlsRange(a)]) == PagesOf(e, TlsRange(a)) + [];
  }

  /** A load delivers exactly the announcement of what it loaded; when the VMM refuses a page it
      has delivered a prefix and returns the code of that refusal. */
  lemma LoadDelivers(e: Env, s: State)
    requires s.g.status == Unloaded && s.g.a.mods != [] && Prepare(e, s).ret == Success
    ensures Delivers(e, Prepare(e, s).s.m, (Load(e, s).s.m, Load(e, s).ret), Announcement(e, Prepare(e, s).s.g.a))
    ensures Prepare(e, s).s.m.delivered == s.m.delivered
    ensures Load(e, s).ret == Success ==>
              Load(e, s).s.m.delivered == s.m.delivered + Announcement(e, Load(e, s).s.g.a)
  {
    hide Prepare, AnnounceAll, Announcement;
    PrepareDeliversNothing(e, s);
    AnnounceAllDelivers(e, Prepare(e, s).s);
  }

  // ---- Coverage ------------------------------------------------------------------------------

  lemma FloorShift(x: nat, i: nat)
    ensures Floor(x + i * MAX_PAGE_SIZE, MAX_PAGE_SIZE) == Floor(x, MAX_PAGE_SIZE) + i * MAX_PAGE_SIZE
  {
    var p := MAX_PAGE_SIZE;
    assert x + i * p == (x / p + i) * p + x % p by {
      assert x == (x / p) * p + x % p;
      assert (x / p + i) * p == (x / p) * p + i * p;
    }
    RemainderUnique(x + i * p, p, x / p + i, x % p);
  }

  /** The ranges of a load: a whole number of pages from lo to hi. */
  predicate Regular(r: Range) {
    r.lo <= r.hi && (r.hi - r.lo) % MAX_PAGE_SIZE == 0
  }

  /** Page q (an aligned address) is announced by one of the descriptors. */
  predicate Announces(ds: seq<Descriptor>, q: nat, access: Access) {
    exists d :: d in ds && d.access == access && Floor(d.virt, MAX_PAGE_SIZE) == q
  }

  lemma PagesOrdered(i: nat, n: nat)
    ensures i <= n ==> i * MAX_PAGE_SIZE <= n * MAX_PAGE_SIZE
    ensures i > n ==> i * MAX_PAGE_SIZE >= n * MAX_PAGE_SIZE + MAX_PAGE_SIZE
  {
    if i < n {
      NextMultiple(n, i, MAX_PAGE_SIZE);
    } else if i > n {
      NextMultiple(i, n, MAX_PAGE_SIZE);
    }
  }

  lemma RegularHi(r: Range) returns (n: nat)
    requires Regular(r)
    ensures n + 1 == PageCount(r.lo, r.hi)
    ensures Floor(r.hi, MAX_PAGE_SIZE) == Floor(r.lo, MAX_PAGE_SIZE) + n * MAX_PAGE_SIZE
  {
    n := (r.hi - r.lo) / MAX_PAGE_SIZE;
    assert r.hi == r.lo + n * MAX_PAGE_SIZE;
    FloorShift(r.lo, n);
  }

  lemma AnnouncedIsInside(e: Env, r: Range, d: Descriptor)
    requires Regular(r) && d in PagesOf(e, r)
    ensures Floor(r.lo, MAX_PAGE_SIZE) <= Floor(d.virt, MAX_PAGE_SIZE) <= Floor(r.hi, MAX_PAGE_SIZE)
    ensures d.access == r.access
  {
    var n := RegularHi(r);
    var i :| 0 <= i < |PagesOf(e, r)| && PagesOf(e, r)[i] == d;
    assert d == PageAt(e, r, i);
    hide PagesOf;
    FloorShift(r.lo, i);
    PagesOrdered(i, n);
  }

  lemma InsideIsAnnounced(e: Env, r: Range, q: nat) returns (d: Descriptor)
    requires Regular(r) && q % MAX_PAGE_SIZE == 0
    requires Floor(r.lo, MAX_PAGE_SIZE) <= q <= Floor(r.hi, MAX_PAGE_SIZE)
    ensures d in PagesOf(e, r) && d.access == r.access && Floor(d.virt, MAX_PAGE_SIZE) == q
  {
    var n := RegularHi(r);
    var start := Floor(r.lo, MAX_PAGE_SIZE);
    FloorAligned(r.lo);
    MultipleGap(start, q);
    var i := (q - start) / MAX_PAGE_SIZE;
    PagesOrdered(i, n);
    FloorShift(r.lo, i);
    d := PagesOf(e, r)[i];
    assert d == PageAt(e, r, i);
  }

  lemma FloorAligned(x: nat)
    ensures Floor(x, MAX_PAGE_SIZE) % MAX_PAGE_SIZE == 0
  {
    RemainderUnique(Floor(x, MAX_PAGE_SIZE), MAX_PAGE_SIZE, x / MAX_PAGE_SIZE, 0);
  }

  /** A regular range announces every page from the one of lo to the one of hi, and no other. */
  lemma RangeAnnounces(e: Env, r: Range, q: nat)
    requires Regular(r) && q % MAX_PAGE_SIZE == 0
    ensures Announces(PagesOf(e, r), q, r.access)
        <==> Floor(r.lo, MAX_PAGE_SIZE) <= q <= Floor(r.hi, MAX_PAGE_SIZE)
  {
    hide PagesOf, Floor, Regular;
    if Announces(PagesOf(e, r), q, r.access) {
      var d :| d in PagesOf(e, r) && d.access == r.access && Floor(d.virt, MAX_PAGE_SIZE) == q;
      AnnouncedIsInside(e, r, d);
    }
    if Floor(r.lo, MAX_PAGE_SIZE) <= q <= Floor(r.hi, MAX_PAGE_SIZE) {
      var d := InsideIsAnnounced(e, r, q);
    }
  }

  lemma MultipleGap(a: nat, b: nat)
    requires a <= b && a % MAX_PAGE_SIZE == 0 && b % MAX_PAGE_SIZE == 0
    ensures b - a == ((b - a) / MAX_PAGE_SIZE) * MAX_PAGE_SIZE
  {
    var p := MAX_PAGE_SIZE;
    assert b - a == (b / p - a / p) * p;
    RemainderUnique(b - a, p, b / p - a / p, 0);
  }
}
