/** What the announced pages cover, which of them are both writable and executable, and when the
    page loops end. */
module Pages {
  import opened CommonModel
  import opened Config
  import opened Descriptors
  import opened Machine
  import opened Words

  function PageOf(x: nat): nat {
    Floor(x, MAX_PAGE_SIZE)
  }

  // ---- Segments ------------------------------------------------------------------------------

  lemma FloorOrdered(x: nat, y: nat)
    requires x <= y
    ensures PageOf(x) <= PageOf(y)
  {
    Quotient(x);
    Quotient(y);
    hide Floor;
    Ordered(x, y, x / MAX_PAGE_SIZE, y / MAX_PAGE_SIZE);
  }

  lemma Ordered(x: nat, y: nat, a: nat, b: nat)
    requires a * MAX_PAGE_SIZE <= x <= y < b * MAX_PAGE_SIZE + MAX_PAGE_SIZE
    ensures a * MAX_PAGE_SIZE <= b * MAX_PAGE_SIZE
  {
    PagesOrdered(a, b);
  }

  lemma Quotient(x: nat)
    ensures PageOf(x) == x / MAX_PAGE_SIZE * MAX_PAGE_SIZE
    ensures PageOf(x) <= x < PageOf(x) + MAX_PAGE_SIZE
  {
  }

  lemma SegRangeIsRegular(b: Binary, seg: Segment)
    ensures Regular(SegRange(b, seg))
  {
    var start := b.exec + seg.offset;
    FloorOrdered(start, start + seg.memsz);
    FloorAligned(start);
    FloorAligned(start + seg.memsz);
    MultipleGap(PageOf(start), PageOf(start + seg.memsz));
    RemainderUnique(PageOf(start + seg.memsz) - PageOf(start), MAX_PAGE_SIZE,
                    (PageOf(start + seg.memsz) - PageOf(start)) / MAX_PAGE_SIZE, 0);
  }

  /** The number of pages announced for a segment. */
  lemma SegmentPageCount(b: Binary, seg: Segment)
    ensures
      var start := b.exec + seg.offset;
      PageCount(SegRange(b, seg).lo, SegRange(b, seg).hi)
        == (start + seg.memsz) / MAX_PAGE_SIZE - start / MAX_PAGE_SIZE + 1
  {
    var start := b.exec + seg.offset;
    FloorOrdered(start, start + seg.memsz);
    PageDistance(start, start + seg.memsz);
  }

  lemma PageDistance(x: nat, y: nat)
    requires PageOf(x) <= PageOf(y)
    ensures (PageOf(y) - PageOf(x)) / MAX_PAGE_SIZE == y / MAX_PAGE_SIZE - x / MAX_PAGE_SIZE
  {
    var a, z := x / MAX_PAGE_SIZE, y / MAX_PAGE_SIZE;
    assert PageOf(y) - PageOf(x) == (z - a) * MAX_PAGE_SIZE;
    RemainderUnique(PageOf(y) - PageOf(x), MAX_PAGE_SIZE, z - a, 0);
  }

  /** Every byte of a segment lies on an announced page. */
  lemma SegmentIsCovered(e: Env, b: Binary, seg: Segment, x: nat)
    requires b.exec + seg.offset <= x < b.exec + seg.offset + seg.memsz
    ensures Announces(PagesOf(e, SegRange(b, seg)), PageOf(x), AccessOf(seg))
  {
    var start := b.exec + seg.offset;
    SegRangeIsRegular(b, seg);
    FloorOrdered(start, x);
    FloorOrdered(x, start + seg.memsz);
    FloorAligned(x);
    FloorOfFloor(start);
    FloorOfFloor(start + seg.memsz);
    RangeAnnounces(e, SegRange(b, seg), PageOf(x));
  }

  lemma FloorOfFloor(x: nat)
    ensures PageOf(PageOf(x)) == PageOf(x)
  {
    FloorAligned(x);
  }

  /** An announced page holds a byte of the segment, except for the last page when the segment
      ends exactly at its start. */
  lemma SegmentPagesAreTight(e: Env, b: Binary, seg: Segment, q: nat)
    requires seg.memsz > 0 && q % MAX_PAGE_SIZE == 0
    requires Announces(PagesOf(e, SegRange(b, seg)), q, AccessOf(seg))
    ensures
      var start := b.exec + seg.offset;
      (exists x :: start <= x < start + seg.memsz && PageOf(x) == q) <==> q != start + seg.memsz
  {
    hide PagesOf, Announces, Regular, Floor;
    var start := b.exec + seg.offset;
    SegRangeIsRegular(b, seg);
    FloorOfFloor(start);
    FloorOfFloor(start + seg.memsz);
    RangeAnnounces(e, SegRange(b, seg), q);
    PageHoldsByte(start, start + seg.memsz, q);
  }

  lemma PageHoldsByte(start: nat, end: nat, q: nat)
    requires start < end && q % MAX_PAGE_SIZE == 0 && PageOf(start) <= q <= PageOf(end)
    ensures (exists x :: start <= x < end && PageOf(x) == q) <==> q != end
  {
    Quotient(end);
    Quotient(start);
    AlignedFloor(q);
    if q != end {
      var x := if q < start then start else q;
      FloorOrdered(q, x);
      assert start <= x < end && PageOf(x) == q;
    } else {
      forall x | start <= x < end
        ensures PageOf(x) != q
      {
        Quotient(x);
      }
    }
  }

  lemma AlignedFloor(q: nat)
    requires q % MAX_PAGE_SIZE == 0
    ensures PageOf(q) == q
  {
  }

  // ---- Writable or executable ----------------------------------------------------------------

  /** Some page is announced both executable and writable. */
  predicate Mixed(ds: seq<Descriptor>) {
    exists d1, d2 :: d1 in ds && d2 in ds && d1.access == RE && d2.access == RW && PageOf(d1.virt) == PageOf(d2.virt)
  }

  /** The inclusive ends of two ranges lie on different pages. */
  predicate Separate(a: Range, b: Range) {
    PageOf(a.hi) < PageOf(b.lo) || PageOf(b.hi) < PageOf(a.lo)
  }

  predicate WellSeparated(ranges: seq<Range>) {
    forall a, b | a in ranges && b in ranges && a.access == RE && b.access == RW :: Separate(a, b)
  }

  predicate AllRegular(ranges: seq<Range>) {
    forall r | r in ranges :: Regular(r)
  }

  lemma {:induction false} InFlatten(e: Env, ranges: seq<Range>, d: Descriptor)
    ensures d in Flatten(e, ranges) <==> exists r :: r in ranges && d in PagesOf(e, r)
    decreases ranges
  {
    hide PagesOf;
    if ranges == [] {
    } else {
      assert ranges == [ranges[0]] + ranges[1..];
      InFlatten(e, ranges[1..], d);
    }
  }

  lemma OverlapIsMixed(e: Env, a: Range, b: Range) returns (d1: Descriptor, d2: Descriptor)
    requires Regular(a) && Regular(b) && !Separate(a, b)
    ensures d1 in PagesOf(e, a) && d2 in PagesOf(e, b)
    ensures d1.access == a.access && d2.access == b.access && PageOf(d1.virt) == PageOf(d2.virt)
  {
    hide PagesOf, Regular;
    FloorAligned(a.lo);
    FloorAligned(b.lo);
    var q := if PageOf(a.lo) < PageOf(b.lo) then PageOf(b.lo) else PageOf(a.lo);
    RegularOrdered(a);
    RegularOrdered(b);
    d1 := InsideIsAnnounced(e, a, q);
    d2 := InsideIsAnnounced(e, b, q);
  }

  lemma RegularOrdered(r: Range)
    requires Regular(r)
    ensures PageOf(r.lo) <= PageOf(r.hi)
  {
    FloorOrdered(r.lo, r.hi);
  }

  /** No page is both writable and executable exactly when differently permissioned ranges have
      their inclusive ends on different pages; that their bytes are on different pages is not
      enough. */
  lemma WritableXorExecutable(e: Env, ranges: seq<Range>)
    requires AllRegular(ranges)
    ensures !Mixed(Flatten(e, ranges)) <==> WellSeparated(ranges)
  {
    hide PagesOf, Flatten, Floor, Regular;
    var ds := Flatten(e, ranges);
    if Mixed(ds) {
      var d1, d2 :| d1 in ds && d2 in ds && d1.access == RE && d2.access == RW && PageOf(d1.virt) == PageOf(d2.virt);
      InFlatten(e, ranges, d1);
      InFlatten(e, ranges, d2);
      var a :| a in ranges && d1 in PagesOf(e, a);
      var b :| b in ranges && d2 in PagesOf(e, b);
      AnnouncedIsInside(e, a, d1);
      AnnouncedIsInside(e, b, d2);
      assert !Separate(a, b);
    }
    if !WellSeparated(ranges) {
      var a, b :| a in ranges && b in ranges && a.access == RE && b.access == RW && !Separate(a, b);
      var d1, d2 := OverlapIsMixed(e, a, b);
      InFlatten(e, ranges, d1);
      InFlatten(e, ranges, d2);
    }
  }

  lemma Multiples(k: nat)
    ensures PageOf(k * MAX_PAGE_SIZE) == k * MAX_PAGE_SIZE
  {
    RemainderUnique(k * MAX_PAGE_SIZE, MAX_PAGE_SIZE, k, 0);
  }

  /** An executable segment that fills one page exactly, followed by a writable one that fills the
      next page. */
  function TwoPages(): Binary {
    var p: nat := MAX_PAGE_SIZE;
    Binary(1, 1, p, 2 * p, [Segment(0, p, true), Segment(p, p, false)])
  }

  /** That the bytes of the segments are on different pages is not enough. */
  lemma BytesApartIsNotEnough(e: Env, x: nat, y: nat)
    requires MAX_PAGE_SIZE <= x < 2 * MAX_PAGE_SIZE <= y < 3 * MAX_PAGE_SIZE
    ensures PageOf(x) != PageOf(y)
    ensures Mixed(Flatten(e, ModuleRanges(TwoPages())))
  {
    hide PageOf, Flatten, Mixed, TwoPages;
    Multiples(2);
    BelowOwnPage(x);
    FloorOrdered(2 * MAX_PAGE_SIZE, y);
    TwoPagesMixed(e);
  }

  lemma BelowOwnPage(x: nat)
    ensures PageOf(x) <= x
  {
    Quotient(x);
  }

  lemma TwoPagesRanges()
    ensures
      var p: nat := MAX_PAGE_SIZE;
      ModuleRanges(TwoPages()) == [Range(p, 2 * p, RE), Range(2 * p, 3 * p, RW)]
  {
    hide Floor, BitAnd, PowerOfTwo;
    var p: nat := MAX_PAGE_SIZE;
    Multiples(1);
    Multiples(2);
    Multiples(3);
    var b := TwoPages();
    assert b.segs[0] == Segment(0, p, true) && b.segs[1] == Segment(p, p, false);
    assert SegRange(b, b.segs[0]) == Range(p, 2 * p, RE);
    assert SegRange(b, b.segs[1]) == Range(2 * p, 3 * p, RW);
  }

  lemma TwoPagesTouch()
    ensures
      var p: nat := MAX_PAGE_SIZE;
      !Separate(Range(p, 2 * p, RE), Range(2 * p, 3 * p, RW))
  {
    hide Floor, PowerOfTwo;
    Multiples(1);
    Multiples(2);
    Multiples(3);
  }

  lemma TwoPagesMixed(e: Env)
    ensures Mixed(Flatten(e, ModuleRanges(TwoPages())))
  {
    hide Flatten, Regular, Mixed, Separate, ModuleRanges, TwoPages;
    TwoPagesRanges();
    TwoPagesTouch();
    ModuleRangesRegular(TwoPages());
    var rs := ModuleRanges(TwoPages());
    assert rs[0] in rs && rs[1] in rs;
    WritableXorExecutable(e, rs);
  }

  lemma ModuleRangesRegular(b: Binary)
    ensures AllRegular(ModuleRanges(b))
  {
    hide Regular, SegRange;
    forall r | r in ModuleRanges(b)
      ensures Regular(r)
    {
      var i :| 0 <= i < |ModuleRanges(b)| && ModuleRanges(b)[i] == r;
      SegRangeIsRegular(b, b.segs[i]);
    }
  }

  lemma PagesFillU64()
    ensures U64 % MAX_PAGE_SIZE == 0
  {
    U64IsPowerOfTwo();
    PowersDivide(U64, MAX_PAGE_SIZE);
  }

  /** The size setup_tls computes is a whole number of pages even when it wraps around. */
  lemma TlsSizeIsAligned(n: nat)
    ensures Wrap(THREAD_LOCAL_STORAGE_SIZE * n) % MAX_PAGE_SIZE == 0
  {
    hide Wrap;
    PagesFillU64();
    var t: nat := THREAD_LOCAL_STORAGE_SIZE;
    var c := t / MAX_PAGE_SIZE * n;
    assert t * n == c * MAX_PAGE_SIZE by {
      Decompose(t);
      Reorder(t / MAX_PAGE_SIZE, MAX_PAGE_SIZE, n);
    }
    var z := WrapBy(t * n, c, 0);
    RemainderUnique(Wrap(t * n), MAX_PAGE_SIZE, z, 0);
  }

  lemma Reorder(a: int, p: int, n: int)
    ensures a * p * n == a * n * p
  {
  }

  lemma {:induction false} AllRangesRegular(mods: seq<Binary>)
    ensures AllRegular(AllRanges(mods))
    decreases mods
  {
    hide Regular, SegRange;
    if mods == [] {
    } else {
      AllRangesRegular(mods[1..]);
      ModuleRangesRegular(mods[0]);
    }
  }

  // ---- A whole load --------------------------------------------------------------------------

  /** What one call delivered to the memory manager. */
  function Delivered(s: State, s': State): seq<Descriptor> {
    if |s.m.delivered| <= |s'.m.delivered| then s'.m.delivered[|s.m.delivered|..] else []
  }

  lemma SetupTlsAligned(e: Env, s: State)
    ensures SetupTls(e, s).s.g.a.tlsSize % MAX_PAGE_SIZE == 0
  {
    hide Wrap, Alloc;
    TlsSizeIsAligned(NumCpus(e, s.m).1);
  }

  lemma PrepareAligned(e: Env, s: State)
    requires Prepare(e, s).ret == Success
    ensures Prepare(e, s).s.g.a.tlsSize % MAX_PAGE_SIZE == 0
  {
    hide SetupStack, SetupTls, CallVmm, BfelfLoad;
    SetupTlsAligned(e, SetupStack(e, s).s);
  }

  lemma AnnounceAllKeepsAssets(e: Env, s: State)
    requires AnnounceAll(e, s).ret == Success
    ensures AnnounceAll(e, s).s.g.a == s.g.a
  {
    hide AnnounceModules, AnnounceRange, Unload;
  }

  /** A successful load delivers the pages of its segments and then those of a TLS block that is a
      whole number of pages long. */
  lemma LoadAnnounces(e: Env, s: State)
    requires s.g.status == Unloaded && Load(e, s).ret == Success
    ensures
      var a := Load(e, s).s.g.a;
      && Delivered(s, Load(e, s).s) == Announcement(e, a)
      && a.tlsSize % MAX_PAGE_SIZE == 0
  {
    hide Prepare, AnnounceAll, Announcement;
    LoadDelivers(e, s);
    PrepareAligned(e, s);
    AnnounceAllKeepsAssets(e, Prepare(e, s).s);
  }

  /** No page a successful load announces is both writable and executable exactly when the
      differently permissioned ranges among its segments and its TLS block are separate. */
  lemma LoadedPagesWritableXorExecutable(e: Env, s: State)
    requires s.g.status == Unloaded && Load(e, s).ret == Success
    ensures
      var a := Load(e, s).s.g.a;
      !Mixed(Delivered(s, Load(e, s).s)) <==> WellSeparated(AllRanges(a.mods) + [TlsRange(a)])
  {
    hide Mixed, WellSeparated, Flatten, Load, Delivered;
    LoadAnnounces(e, s);
    var a := Load(e, s).s.g.a;
    AllRangesRegular(a.mods);
    WritableXorExecutable(e, AllRanges(a.mods) + [TlsRange(a)]);
  }

  /** The descriptor maps its virtual page to where the platform says that page is. */
  predicate Mapped(e: Env, d: Descriptor) {
    if e.os.Uefi? then d.phys == d.virt else d.phys == e.phys(d.virt)
  }

  lemma AnnouncementMapped(e: Env, a: Assets, d: Descriptor)
    requires d in Announcement(e, a)
    ensures Mapped(e, d)
  {
    var ranges := AllRanges(a.mods) + [TlsRange(a)];
    InFlatten(e, ranges, d);
    var r :| r in ranges && d in PagesOf(e, r);
    var i :| 0 <= i < |PagesOf(e, r)| && PagesOf(e, r)[i] == d;
    assert d == PageAt(e, r, i);
  }

  lemma LoadAtOnce(e: Env, s: State)
    requires s.g.status != Unloaded || s.g.a.mods == [] || Prepare(e, s).ret != Success
    ensures Load(e, s).s.m.delivered == s.m.delivered
  {
    hide Prepare, AnnounceAll, FreeAll, Holdings;
    PrepareDeliversNothing(e, s);
    FreeAllFrame(Prepare(e, s).s.m, Holdings(Prepare(e, s).s.g.a), Driver);
  }

  /** Every descriptor any load delivers, complete or not, maps its page correctly. */
  lemma DeliveredAreMapped(e: Env, s: State, d: Descriptor)
    requires d in Delivered(s, Load(e, s).s)
    ensures Mapped(e, d)
  {
    hide Load, Prepare, Announcement, Mapped;
    if s.g.status == Unloaded && s.g.a.mods != [] && Prepare(e, s).ret == Success {
      LoadDelivers(e, s);
      var announced := Announcement(e, Prepare(e, s).s.g.a);
      assert Delivered(s, Load(e, s).s) <= announced;
      var i :| 0 <= i < |Delivered(s, Load(e, s).s)| && Delivered(s, Load(e, s).s)[i] == d;
      assert announced[i] == d;
      AnnouncementMapped(e, Prepare(e, s).s.g.a, d);
    } else {
      LoadAtOnce(e, s);
    }
  }

  /** A page of one of the ranges a load announces is delivered. */
  lemma RangeIsDelivered(e: Env, s: State, r: Range, q: nat)
    requires s.g.status == Unloaded && Load(e, s).ret == Success
    requires r in AllRanges(Load(e, s).s.g.a.mods) || r == TlsRange(Load(e, s).s.g.a)
    requires Announces(PagesOf(e, r), q, r.access)
    ensures Announces(Delivered(s, Load(e, s).s), q, r.access)
  {
    hide PagesOf, Flatten, Load, Delivered;
    LoadAnnounces(e, s);
    var a := Load(e, s).s.g.a;
    var ranges := AllRanges(a.mods) + [TlsRange(a)];
    var d :| d in PagesOf(e, r) && d.access == r.access && Floor(d.virt, MAX_PAGE_SIZE) == q;
    InFlatten(e, ranges, d);
    assert r in ranges;
  }

  lemma {:induction false} RangeOfSegment(mods: seq<Binary>, b: Binary, seg: Segment)
    requires b in mods && seg in b.segs
    ensures SegRange(b, seg) in AllRanges(mods)
    decreases mods
  {
    hide SegRange;
    if b == mods[0] {
      var i :| 0 <= i < |b.segs| && b.segs[i] == seg;
      assert ModuleRanges(b)[i] == SegRange(b, seg);
    } else {
      RangeOfSegment(mods[1..], b, seg);
    }
  }

  /** After a successful load every byte of every segment of every module lies on a page that was
      delivered with the segment's permission. */
  lemma LoadedSegmentsAreDelivered(e: Env, s: State, b: Binary, seg: Segment, x: nat)
    requires s.g.status == Unloaded && Load(e, s).ret == Success
    requires b in Load(e, s).s.g.a.mods && seg in b.segs
    requires b.exec + seg.offset <= x < b.exec + seg.offset + seg.memsz
    ensures Announces(Delivered(s, Load(e, s).s), PageOf(x), AccessOf(seg))
  {
    hide Load, Delivered, PagesOf, Announces;
    SegmentIsCovered(e, b, seg, x);
    RangeOfSegment(Load(e, s).s.g.a.mods, b, seg);
    RangeIsDelivered(e, s, SegRange(b, seg), PageOf(x));
  }

  // ---- The page loops end --------------------------------------------------------------------

  /** The loop `for (; lo <= hi; lo += P)` on unsigned 64-bit words ends exactly when one page
      beyond hi does not wrap. */
  lemma PageLoopEnds(lo: nat, hi: nat)
    requires lo <= hi < U64 && lo % MAX_PAGE_SIZE == hi % MAX_PAGE_SIZE
    ensures (exists k: nat :: Wrap(lo + k * MAX_PAGE_SIZE) > hi) <==> hi + MAX_PAGE_SIZE < U64
  {
    hide Wrap;
    if hi + MAX_PAGE_SIZE < U64 {
      var k := StepsBeyond(lo, hi);
      assert Wrap(lo + k * MAX_PAGE_SIZE) > hi;
    } else {
      forall k: nat
        ensures Wrap(lo + k * MAX_PAGE_SIZE) <= hi
      {
        var z := WrapKeepsOffset(lo, k);
        Decompose(hi);
        NoneAbove(z, hi / MAX_PAGE_SIZE, lo % MAX_PAGE_SIZE);
      }
    }
  }

  lemma Decompose(x: nat)
    ensures x == x / MAX_PAGE_SIZE * MAX_PAGE_SIZE + x % MAX_PAGE_SIZE
  {
  }

  lemma StepsBeyond(lo: nat, hi: nat) returns (k: nat)
    requires lo <= hi && lo % MAX_PAGE_SIZE == hi % MAX_PAGE_SIZE
    ensures lo + k * MAX_PAGE_SIZE == hi + MAX_PAGE_SIZE
  {
    FloorOrdered(lo, hi);
    FloorAligned(lo);
    FloorAligned(hi);
    MultipleGap(PageOf(lo), PageOf(hi));
    k := (PageOf(hi) - PageOf(lo)) / MAX_PAGE_SIZE + 1;
  }

  /** Wrapping around keeps the offset within a page. */
  lemma WrapKeepsOffset(lo: nat, k: nat) returns (z: int)
    ensures Wrap(lo + k * MAX_PAGE_SIZE) == z * MAX_PAGE_SIZE + lo % MAX_PAGE_SIZE
  {
    hide Wrap;
    PagesFillU64();
    Decompose(lo);
    z := WrapMoved(lo, k, lo / MAX_PAGE_SIZE, lo % MAX_PAGE_SIZE);
  }

  lemma WrapMoved(lo: nat, k: nat, q: nat, r: nat) returns (z: int)
    requires lo == q * MAX_PAGE_SIZE + r && U64 % MAX_PAGE_SIZE == 0
    ensures Wrap(lo + k * MAX_PAGE_SIZE) == z * MAX_PAGE_SIZE + r
  {
    hide Wrap;
    Distribute(q, k, MAX_PAGE_SIZE);
    z := WrapBy(lo + k * MAX_PAGE_SIZE, q + k, r);
  }

  lemma Distribute(a: int, b: int, p: int)
    ensures (a + b) * p == a * p + b * p
  {
  }

  lemma WrapBy(x: nat, c: nat, r: nat) returns (z: int)
    requires x == c * MAX_PAGE_SIZE + r && U64 % MAX_PAGE_SIZE == 0
    ensures Wrap(x) == z * MAX_PAGE_SIZE + r
  {
    var b, q := U64 / MAX_PAGE_SIZE, x / U64;
    z := c - q * b;
    assert U64 == b * MAX_PAGE_SIZE;
    Subtract(c, b, q, r, MAX_PAGE_SIZE);
  }

  lemma Subtract(c: int, b: int, q: int, r: int, p: int)
    ensures c * p + r - q * (b * p) == (c - q * b) * p + r
  {
    assert q * (b * p) == q * b * p;
  }

  lemma NoneAbove(a: int, b: int, r: int)
    requires a * MAX_PAGE_SIZE + r < U64 <= b * MAX_PAGE_SIZE + r + MAX_PAGE_SIZE
    ensures a * MAX_PAGE_SIZE + r <= b * MAX_PAGE_SIZE + r
  {
    if a > b {
      NextMultiple(a, b, MAX_PAGE_SIZE);
    } else {
      NextMultiple(b + 1, a, MAX_PAGE_SIZE);
      Distribute(b, 1, MAX_PAGE_SIZE);
    }
  }
}
