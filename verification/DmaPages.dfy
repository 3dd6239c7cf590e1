/** The DMA page cache of module/freebsd_kern_bus.c: segments are turned into an array of page
  addresses, and an offset into the buffer is turned back into a physical address.  The page
  size may be any positive number; masking with it is written as the remainder. */
module DmaPages {
  import opened Basics

  const U32: nat := 0x1_0000_0000

  type PageSize = n: nat | n > 0 witness 4096     // USB_PAGE_SIZE, the machine's page size

  datatype Seg = Seg(addr: nat, len: nat)

  datatype Page = Page(physaddr: nat, buffer: nat)

  /** struct usbd_page_search */
  datatype Search = Search(buffer: nat, physaddr: nat, length: nat)

  // ---------------------------------------------------------------- what the bytes' addresses are

  /** Where segment k starts in the buffer; for k == |segs| the size of the buffer. */
  function Start(segs: seq<Seg>, k: nat): nat
    requires k <= |segs|
  {
    if k == 0 then 0 else segs[0].len + Start(segs[1..], k - 1)
  }

  function Total(segs: seq<Seg>): nat {
    Start(segs, |segs|)
  }

  /** The physical address of byte o of the buffer. */
  function PhysOf(segs: seq<Seg>, o: nat): nat
    requires o < Total(segs)
  {
    if o < segs[0].len then segs[0].addr + o else PhysOf(segs[1..], o - segs[0].len)
  }

  /** No segment crosses a page; only the first may start, and only the last may end, inside one. */
  ghost predicate PageWise(p: PageSize, segs: seq<Seg>) {
    && |segs| > 0
    && (forall k :: 0 <= k < |segs| ==> segs[k].len > 0 && segs[k].addr % p + segs[k].len <= p)
    && (forall k :: 0 < k < |segs| ==> segs[k].addr % p == 0)
    && (forall k :: 0 <= k < |segs| - 1 ==> segs[k].addr % p + segs[k].len == p)
  }

  // ---------------------------------------------------------------- the page cache

  /** The start of the page of an address. */
  function PageBase(p: PageSize, a: nat): nat {
    a - a % p
  }

  /** usbd_get_page on the fields of a page cache; all offsets are 32 bits wide. */
  function Lookup(p: PageSize, pages: seq<Page>, off: nat, multi: bool, buffer: Option<nat>, o: nat): Search
    requires |pages| > 0 && (multi ==> (o + off) % U32 / p < |pages|)
  {
    var x := (o + off) % U32;
    var page, y := if multi then pages[x / p] else pages[0], if multi then x % p else x;
    Search(if buffer.Some? then buffer.value + o else page.buffer + y,
           page.physaddr + y,
           if multi then p - y else U32 - 1)
  }

  /** struct usbd_page_cache, with the pages in the caller's array. */
  class PageCache {
    const page: PageSize
    var pages: array?<Page>
    var buffer: Option<nat>
    var offsetBuf: nat
    var offsetEnd: nat
    var multi: bool
    var dmaError: bool

    constructor (page: PageSize, pages: array?<Page>, buffer: Option<nat>, size: nat, multi: bool)
      ensures this.page == page && this.pages == pages && this.buffer == buffer && this.multi == multi
      ensures offsetBuf == 0 && offsetEnd == size
    {
      this.page, this.pages, this.buffer, this.multi := page, pages, buffer, multi;
      offsetBuf, offsetEnd, dmaError := 0, size, false;
    }

    /** usbd_pc_common_mem_cb */
    method Load(segs: seq<Seg>, error: bool)
      requires pages != null && 0 < |segs| <= pages.Length
      modifies this`offsetBuf, this`offsetEnd, this`dmaError, pages
      ensures dmaError == error
      ensures error ==> pages[..] == old(pages[..]) && offsetBuf == old(offsetBuf) && offsetEnd == old(offsetEnd)
      ensures !error ==> Filled(page, pages[..], offsetBuf, segs) && offsetEnd == (old(offsetEnd) + offsetBuf) % U32
      ensures forall k :: 0 <= k < pages.Length ==> pages[k].buffer == old(pages[k].buffer)
      ensures forall k :: |segs| <= k < pages.Length ==> pages[k] == old(pages[k])
    {
      if !error {
        offsetBuf := segs[0].addr % page;
        offsetEnd := (offsetEnd + offsetBuf) % U32;
        FillPages(segs);
      }
      dmaError := error;
    }

    method FillPages(segs: seq<Seg>)
      requires pages != null && 0 < |segs| <= pages.Length
      modifies pages
      ensures forall k :: 0 <= k < |segs| ==> pages[k] == old(pages[k]).(physaddr := PageBase(page, segs[k].addr))
      ensures forall k :: |segs| <= k < pages.Length ==> pages[k] == old(pages[k])
    {
      var k := 0;
      while k < |segs|
        invariant 0 <= k <= |segs|
        invariant forall j :: 0 <= j < k ==> pages[j] == old(pages[j]).(physaddr := PageBase(page, segs[j].addr))
        invariant forall j :: k <= j < pages.Length ==> pages[j] == old(pages[j])
      {
        pages[k] := pages[k].(physaddr := PageBase(page, segs[k].addr));
        k := k + 1;
      }
    }

    /** usbd_get_page; with nothing loaded the access is plain programmed I/O. */
    method GetPage(o: nat, ghost segs: seq<Seg>) returns (r: Search)
      requires pages == null ==> buffer.Some?
      requires pages != null ==> pages.Length > 0 && (multi ==> (o + offsetBuf) % U32 / page < pages.Length)
      ensures buffer.Some? ==> r.buffer == buffer.value + o
      ensures pages == null ==> r.physaddr == 0 && r.length == U32 - 1
      ensures pages != null && Mapped(page, pages[..], offsetBuf, multi, segs, o) ==> AddressOf(segs, o, r)
    {
      r := Find(o);
      if pages != null { LookupMapped(page, pages[..], offsetBuf, multi, buffer, segs, o); }
    }

    method Find(o: nat) returns (r: Search)
      requires pages == null ==> buffer.Some?
      requires pages != null ==> pages.Length > 0 && (multi ==> (o + offsetBuf) % U32 / page < pages.Length)
      ensures pages != null ==> r == Lookup(page, pages[..], offsetBuf, multi, buffer, o)
      ensures pages == null ==> r == Search(buffer.value + o, 0, U32 - 1)
    {
      if pages == null { return Search(buffer.value + o, 0, U32 - 1); }
      var at, x := 0, (o + offsetBuf) % U32;
      if multi { at, x := x / page, x % page; }
      r := Search(if buffer.Some? then buffer.value + o else pages[at].buffer + x,
                  pages[at].physaddr + x,
                  if multi then page - x else U32 - 1);
    }
  }

  /** The pages are those of the segments. */
  ghost predicate Filled(p: PageSize, pages: seq<Page>, off: nat, segs: seq<Seg>) {
    && 0 < |segs| <= |pages| && off == segs[0].addr % p
    && (forall k :: 0 <= k < |segs| ==> pages[k].physaddr == PageBase(p, segs[k].addr))
  }

  // ---------------------------------------------------------------- segments and offsets

  lemma {:induction false} StartNext(segs: seq<Seg>, k: nat)
    requires k < |segs|
    ensures Start(segs, k + 1) == Start(segs, k) + segs[k].len
  {
    if k > 0 { StartNext(segs[1..], k - 1); }
  }

  lemma {:induction false} PhysIn(segs: seq<Seg>, k: nat, o: nat)
    requires k < |segs| && Start(segs, k) <= o < Start(segs, k + 1) && o < Total(segs)
    ensures PhysOf(segs, o) == segs[k].addr + (o - Start(segs, k))
  {
    StartNext(segs, k);
    if k > 0 { PhysIn(segs[1..], k - 1, o - segs[0].len); }
  }

  lemma {:induction false} SegmentOf(segs: seq<Seg>, o: nat) returns (k: nat)
    requires o < Total(segs)
    ensures k < |segs| && Start(segs, k) <= o < Start(segs, k + 1)
  {
    if o < segs[0].len {
      k := 0;
    } else {
      k := SegmentOf(segs[1..], o - segs[0].len);
      k := k + 1;
    }
  }

  lemma {:induction false} StartOrder(segs: seq<Seg>, j: nat, k: nat)
    requires j <= k <= |segs|
    ensures Start(segs, j) <= Start(segs, k)
    decreases k - j
  {
    if j < k {
      StartNext(segs, k - 1);
      StartOrder(segs, j, k - 1);
    }
  }

  lemma {:induction false} Apart(q: nat, k: nat, p: PageSize)
    requires q < k
    ensures q * p + p <= k * p
  {
    assert (k - q) * p >= p by { assert k - q >= 1; }
  }

  lemma {:induction false} OneQuotient(q: nat, r: nat, k: nat, y: nat, p: PageSize)
    requires q * p + r == k * p + y && r < p && y < p
    ensures q == k && r == y
  {
    if q < k { Apart(q, k, p); } else if k < q { Apart(k, q, p); }
  }

  lemma {:induction false} Quotient(x: nat, p: PageSize, k: nat, y: nat)
    requires x == k * p + y && y < p
    ensures x / p == k && x % p == y
  {
    OneQuotient(x / p, x % p, k, y, p);
  }

  lemma {:induction false} NextMultiple(k: nat, p: PageSize)
    ensures (k + 1) * p == k * p + p
  {
  }

  /** Counted from the start of the first page, segment k starts k pages on. */
  lemma {:induction false} PageStart(p: PageSize, segs: seq<Seg>, k: nat)
    requires PageWise(p, segs) && k < |segs|
    ensures segs[0].addr % p + Start(segs, k) == k * p + if k == 0 then segs[0].addr % p else 0
    ensures segs[0].addr % p + Start(segs, k + 1) <= k * p + p
  {
    StartNext(segs, k);
    if k > 0 {
      PageStart(p, segs, k - 1);
      StartNext(segs, k - 1);
      NextMultiple(k - 1, p);
    }
  }

  /** Byte o lies on page k, exactly if segment k holds it. */
  lemma {:induction false} PageOf(p: PageSize, segs: seq<Seg>, k: nat, o: nat)
    requires PageWise(p, segs) && k < |segs| && Start(segs, k) <= o < Start(segs, k + 1)
    ensures (o + segs[0].addr % p) / p == k
    ensures (o + segs[0].addr % p) % p == segs[k].addr % p + (o - Start(segs, k))
  {
    StartNext(segs, k);
    PageStart(p, segs, k);
    Quotient(o + segs[0].addr % p, p, k, segs[k].addr % p + (o - Start(segs, k)));
  }

  // ---------------------------------------------------------------- usbd_get_page

  /** The look-up of a byte of segment k. */
  lemma {:induction false} LookupIn(p: PageSize, pages: seq<Page>, off: nat, buffer: Option<nat>, segs: seq<Seg>,
      k: nat, o: nat)
    requires PageWise(p, segs) && Filled(p, pages, off, segs) && k < |segs| && o + off < U32
    requires Start(segs, k) <= o < Start(segs, k + 1)
    ensures (o + off) % U32 / p == k
    ensures var r := Lookup(p, pages, off, true, buffer, o);
      && r.physaddr == segs[k].addr + (o - Start(segs, k)) && 0 < r.length <= p
      && o + r.length >= Start(segs, k + 1) && (k + 1 < |segs| ==> o + r.length == Start(segs, k + 1))
  {
    StartNext(segs, k);
    PageOf(p, segs, k, o);
    assert (o + off) % U32 == o + off;
    assert pages[k].physaddr == PageBase(p, segs[k].addr);
  }

  /** For every byte of the buffer the look-up gives that byte's address and never leaves the
    pages of the segments; the length it gives reaches to the end of the segment (beyond the
    buffer only in the last one), and that far the addresses are consecutive. */
  lemma {:induction false} LookupIsRight(p: PageSize, pages: seq<Page>, off: nat, buffer: Option<nat>,
      segs: seq<Seg>, o: nat) returns (k: nat)
    requires PageWise(p, segs) && Filled(p, pages, off, segs) && o < Total(segs) && o + off < U32
    ensures k < |segs| && (o + off) % U32 / p == k && Start(segs, k) <= o < Start(segs, k + 1)
    ensures var r := Lookup(p, pages, off, true, buffer, o);
      && r.physaddr == PhysOf(segs, o) && 0 < r.length <= p
      && o + r.length >= Start(segs, k + 1) && (k + 1 < |segs| ==> o + r.length == Start(segs, k + 1))
      && (forall x :: o <= x < o + r.length && x < Total(segs) ==> PhysOf(segs, x) == r.physaddr + (x - o))
  {
    k := SegmentOf(segs, o);
    LookupIn(p, pages, off, buffer, segs, k, o);
    PhysIn(segs, k, o);
    StartNext(segs, k);
    var r := Lookup(p, pages, off, true, buffer, o);
    forall x | o <= x < o + r.length && x < Total(segs) ensures PhysOf(segs, x) == r.physaddr + (x - o) {
      PhysIn(segs, k, x);
    }
  }

  /** A mapping of one segment has consecutive addresses throughout. */
  lemma {:induction false} SingleSegment(p: PageSize, pages: seq<Page>, off: nat, buffer: Option<nat>,
      segs: seq<Seg>, o: nat)
    requires |segs| == 1 && Filled(p, pages, off, segs) && o < Total(segs) && o + off < U32
    ensures AddressOf(segs, o, Lookup(p, pages, off, false, buffer, o))
  {
    StartNext(segs, 0);
  }

  /** Byte o of the buffer with segments segs was loaded into the pages, one page at a time or as one segment. */
  ghost predicate Mapped(p: PageSize, pages: seq<Page>, off: nat, multi: bool, segs: seq<Seg>, o: nat) {
    Filled(p, pages, off, segs) && o < Total(segs) && o + off < U32 && if multi then PageWise(p, segs) else |segs| == 1
  }

  /** r gives the physical address of byte o, and a length up to which the addresses are consecutive. */
  ghost predicate AddressOf(segs: seq<Seg>, o: nat, r: Search) {
    && o < Total(segs) && r.physaddr == PhysOf(segs, o) && r.length > 0
    && (forall x :: o <= x < o + r.length && x < Total(segs) ==> PhysOf(segs, x) == r.physaddr + (x - o))
  }

  lemma {:induction false} LookupMapped(p: PageSize, pages: seq<Page>, off: nat, multi: bool, buffer: Option<nat>,
      segs: seq<Seg>, o: nat)
    requires |pages| > 0 && (multi ==> (o + off) % U32 / p < |pages|)
    ensures Mapped(p, pages, off, multi, segs, o) ==> AddressOf(segs, o, Lookup(p, pages, off, multi, buffer, o))
  {
    if Mapped(p, pages, off, multi, segs, o) {
      if multi {
        var k := LookupIsRight(p, pages, off, buffer, segs, o);
      } else {
        SingleSegment(p, pages, off, buffer, segs, o);
      }
    }
  }

  /** o' is the offset that a walk reaches from o, stepping by the length of the look-up. */
  ghost predicate Steps(p: PageSize, pages: seq<Page>, off: nat, buffer: Option<nat>, o: nat, o': nat) {
    && |pages| > 0 && (o + off) % U32 / p < |pages|
    && o' == o + Lookup(p, pages, off, true, buffer, o).length
  }

  /** The offsets visited by a walk through the buffer. */
  ghost predicate Walk(p: PageSize, pages: seq<Page>, off: nat, buffer: Option<nat>, size: nat, os: seq<nat>) {
    && |os| > 0 && os[0] == 0 && (forall i :: 0 <= i < |os| ==> os[i] < size)
    && (forall i :: 0 < i < |os| ==> Steps(p, pages, off, buffer, os[i - 1], os[i]))
  }

  lemma {:induction false} StartInside(segs: seq<Seg>, k: nat)
    requires k < |segs| && forall j :: 0 <= j < |segs| ==> segs[j].len > 0
    ensures Start(segs, k) < Start(segs, k + 1) <= Total(segs)
    ensures k + 1 < |segs| ==> Start(segs, k + 1) < Total(segs)
  {
    StartNext(segs, k);
    StartOrder(segs, k + 1, |segs|);
    if k + 1 < |segs| {
      StartNext(segs, k + 1);
      StartOrder(segs, k + 2, |segs|);
    }
  }

  /** A look-up at the first byte of segment k reaches the first byte of the next one. */
  lemma {:induction false} StepFromStart(p: PageSize, pages: seq<Page>, off: nat, buffer: Option<nat>,
      segs: seq<Seg>, k: nat, o: nat)
    requires PageWise(p, segs) && Filled(p, pages, off, segs) && Total(segs) + off <= U32 && k < |segs|
    requires o == Start(segs, k)
    ensures o < Total(segs) && (o + off) % U32 / p == k
    ensures var r := Lookup(p, pages, off, true, buffer, o);
      && r.physaddr == segs[k].addr
      && (if k + 1 < |segs| then o + r.length == Start(segs, k + 1) < Total(segs) else o + r.length >= Total(segs))
  {
    StartNext(segs, k);
    StartInside(segs, k);
    LookupIn(p, pages, off, buffer, segs, k, o);
  }

  /** The walk visits the segments one by one, each at its first byte, and can end only with the last. */
  lemma {:induction false} WalkVisitsSegments(p: PageSize, pages: seq<Page>, off: nat, buffer: Option<nat>,
      segs: seq<Seg>, os: seq<nat>, i: nat)
    requires PageWise(p, segs) && Filled(p, pages, off, segs) && Total(segs) + off <= U32
    requires Walk(p, pages, off, buffer, Total(segs), os) && i < |os|
    ensures i < |segs| && os[i] == Start(segs, i) && (os[i] + off) % U32 / p == i
    ensures Lookup(p, pages, off, true, buffer, os[i]).physaddr == segs[i].addr
    ensures os[i] + Lookup(p, pages, off, true, buffer, os[i]).length >= Total(segs) <==> i + 1 == |segs|
  {
    if i > 0 {
      WalkVisitsSegments(p, pages, off, buffer, segs, os, i - 1);
      assert Steps(p, pages, off, buffer, os[i - 1], os[i]);
      StepFromStart(p, pages, off, buffer, segs, i - 1, os[i - 1]);
    }
    StepFromStart(p, pages, off, buffer, segs, i, os[i]);
  }

  /** The number of segments for which usbd_dma_tag_create makes room. */
  function RoomFor(p: PageSize, size: nat, align: nat): nat {
    if align == 1 then 2 + size / p else 1
  }

  /** A page-wise buffer never needs more segments than that. */
  lemma {:induction false} EnoughRoom(p: PageSize, segs: seq<Seg>)
    requires PageWise(p, segs)
    ensures |segs| <= RoomFor(p, Total(segs), 1)
  {
    var n := |segs|;
    if n >= 2 {
      PageStart(p, segs, n - 1);
      StartNext(segs, n - 1);
      NextMultiple(n - 2, p);
      AtLeast(Total(segs), p, n - 2);
    }
  }

  lemma {:induction false} AtLeast(size: nat, p: PageSize, k: nat)
    requires size > k * p
    ensures size / p >= k
  {
    var q, r := size / p, size % p;
    assert size == q * p + r;
    if q < k { Apart(q, k, p); }
  }

  /** And two bytes across a page boundary need all of it. */
  lemma {:induction false} RoomIsNeeded(p: PageSize)
    requires p > 2
    ensures PageWise(p, [Seg(p - 1, 1), Seg(0, 1)]) && RoomFor(p, Total([Seg(p - 1, 1), Seg(0, 1)]), 1) == 2
  {
    var segs := [Seg(p - 1, 1), Seg(0, 1)];
    StartNext(segs, 0);
    StartNext(segs, 1);
    Quotient(p - 1, p, 0, p - 1);
    Quotient(0, p, 0, 0);
    Quotient(2, p, 0, 2);
  }

  /** With distinct pages the look-up is right for the whole buffer if and only if the buffer, counted
    from the start of its first page, stays within 32 bits. */
  lemma {:induction false} RightUpTo32Bits(p: PageSize, pages: seq<Page>, off: nat, buffer: Option<nat>, segs: seq<Seg>)
    requires PageWise(p, segs) && Filled(p, pages, off, segs) && p <= U32
    requires forall j, k :: 0 <= j < k < |segs| ==> pages[j].physaddr != pages[k].physaddr
    ensures Total(segs) + off <= U32 <==>
      forall o :: 0 <= o < Total(segs) ==> LooksUp(p, pages, off, buffer, segs, o)
  {
    if Total(segs) + off <= U32 {
      forall o | 0 <= o < Total(segs) ensures LooksUp(p, pages, off, buffer, segs, o) {
        var k := LookupIsRight(p, pages, off, buffer, segs, o);
      }
    } else {
      WrapsToFirstPage(p, pages, off, buffer, segs);
    }
  }

  /** The first offset that does not fit is taken for the start of the first page. */
  lemma {:induction false} WrapsToFirstPage(p: PageSize, pages: seq<Page>, off: nat, buffer: Option<nat>,
      segs: seq<Seg>)
    requires PageWise(p, segs) && Filled(p, pages, off, segs) && p <= U32 && Total(segs) + off > U32
    requires forall j, k :: 0 <= j < k < |segs| ==> pages[j].physaddr != pages[k].physaddr
    ensures off < U32 && !LooksUp(p, pages, off, buffer, segs, U32 - off)
  {
    var o := U32 - off;
    var k := SegmentOf(segs, o);
    PhysIn(segs, k, o);
    PageOf(p, segs, k, o);
    FirstPage(p, pages, off, buffer, o);
    PageStart(p, segs, 0);
    assert k != 0;
    OtherPage(p, segs, k, o);
  }

  lemma {:induction false} FirstPage(p: PageSize, pages: seq<Page>, off: nat, buffer: Option<nat>, o: nat)
    requires |pages| > 0 && o + off == U32
    ensures (o + off) % U32 / p == 0 && Lookup(p, pages, off, true, buffer, o).physaddr == pages[0].physaddr
  {
    Quotient(0, p, 0, 0);
  }

  /** A byte of another page has another address than the start of the first page. */
  lemma {:induction false} OtherPage(p: PageSize, segs: seq<Seg>, k: nat, o: nat)
    requires PageWise(p, segs) && k < |segs| && Start(segs, k) <= o < Start(segs, k + 1)
    requires segs[0].addr - segs[0].addr % p != segs[k].addr - segs[k].addr % p
    ensures segs[0].addr - segs[0].addr % p != segs[k].addr + (o - Start(segs, k))
  {
    StartNext(segs, k);
    Bases(p, segs[0].addr, segs[k].addr, o - Start(segs, k));
  }

  lemma {:induction false} Bases(p: PageSize, a: nat, b: nat, y: nat)
    requires b % p + y < p && a - a % p != b - b % p
    ensures a - a % p != b + y
  {
    var qa, qb, r := a / p, b / p, b % p;
    assert a == qa * p + a % p && b == qb * p + r;
    if qa * p == qb * p + (r + y) { OneQuotient(qa, 0, qb, r + y, p); }
  }

  ghost predicate LooksUp(p: PageSize, pages: seq<Page>, off: nat, buffer: Option<nat>, segs: seq<Seg>, o: nat)
    requires o < Total(segs) && |pages| > 0
  {
    (o + off) % U32 / p < |pages| && Lookup(p, pages, off, true, buffer, o).physaddr == PhysOf(segs, o)
  }
}
