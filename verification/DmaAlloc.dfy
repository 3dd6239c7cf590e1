/** usbd_pc_alloc_mem: the alignment loop in 32-bit arithmetic, the tag table, and the order in
  which resources are taken and given back. */
module DmaAlloc {
  import opened Basics
  import opened DmaPages

  // ---------------------------------------------------------------- the alignment loop

  /** a doubled k times, as a number. */
  function Twice(a: nat, k: nat): nat {
    if k == 0 then a else 2 * Twice(a, k - 1)
  }

  /** 2 * a in an uint32_t. */
  function Double32(a: nat): (r: nat)
    requires a < U32
    ensures r < U32
  {
    if 2 * a < U32 then 2 * a else 2 * a - U32
  }

  /** a doubled k times in 32 bits. */
  function Wrapped(a: nat, k: nat): (r: nat)
    requires a < U32
    ensures r < U32
  {
    if k == 0 then a else Double32(Wrapped(a, k - 1))
  }

  /** What was lost on the way, in multiples of 2^32. */
  ghost function Lost(a: nat, k: nat): nat
    requires a < U32
  {
    if k == 0 then 0 else 2 * Lost(a, k - 1) + if 2 * Wrapped(a, k - 1) < U32 then 0 else 1
  }

  /** The loop doubles k times: every value before was too small, and it ends with one that is large
    enough, or gives up at zero. */
  ghost predicate Doubling(size: nat, align: nat, r: Option<nat>, k: nat)
    requires align < U32
  {
    if align == 1 then r == Some(1) && k == 0
    else
      && (forall j :: 0 <= j < k ==> Wrapped(align, j) < size && (j > 0 ==> Wrapped(align, j) != 0))
      && match r
         case Some(a) => a == Wrapped(align, k) && a >= size && (k > 0 ==> a != 0)
         case None => k > 0 && Wrapped(align, k) == 0
  }

  method FitAlign(size: nat, align: nat) returns (r: Option<nat>)
    requires size < U32 && align < U32
    ensures exists k :: 0 <= k <= 32 && Doubling(size, align, r, k)
  {
    var a := align;
    ghost var k := 0;
    if align != 1 {
      while a < size
        invariant k <= 32 && a == Wrapped(align, k)
        invariant forall j :: 0 <= j < k ==> Wrapped(align, j) < size
        invariant forall j :: 0 < j <= k ==> Wrapped(align, j) != 0
        decreases 32 - k
      {
        GoneAfter32(align, k);
        a := Double32(a);
        k := k + 1;
        if a == 0 {
          assert Doubling(size, align, None, k);
          return None;
        }
      }
    }
    r := Some(a);
    assert Doubling(size, align, r, k);
  }

  lemma {:induction false} TwiceAgain(a: nat, k: nat, n: nat)
    ensures Twice(Twice(a, k), n) == Twice(a, k + n)
    decreases n
  {
    if n > 0 { TwiceAgain(a, k, n - 1); }
  }

  lemma {:induction false} Twice8(a: nat)
    ensures Twice(a, 8) == 256 * a
  {
    assert Twice(a, 1) == 2 * a;
    assert Twice(a, 2) == 4 * a;
    assert Twice(a, 3) == 8 * a;
    assert Twice(a, 4) == 16 * a;
    assert Twice(a, 5) == 32 * a;
    assert Twice(a, 6) == 64 * a;
    assert Twice(a, 7) == 128 * a;
  }

  lemma {:induction false} Twice32(a: nat)
    ensures Twice(a, 16) == 0x1_0000 * a && Twice(a, 24) == 0x100_0000 * a && Twice(a, 32) == U32 * a
  {
    Twice8(a);
    Twice8(Twice(a, 8));
    TwiceAgain(a, 8, 8);
    Twice8(Twice(a, 16));
    TwiceAgain(a, 16, 8);
    Twice8(Twice(a, 24));
    TwiceAgain(a, 24, 8);
  }

  lemma {:induction false} WrappedIsTwice(a: nat, k: nat)
    requires a < U32
    ensures Twice(a, k) == Lost(a, k) * U32 + Wrapped(a, k)
    ensures Twice(a, k) < U32 ==> Wrapped(a, k) == Twice(a, k)
  {
    if k > 0 { WrappedIsTwice(a, k - 1); }
  }

  /** After 32 doublings every bit is gone, so the loop stops by then. */
  lemma {:induction false} GoneAfter32(a: nat, k: nat)
    requires a < U32 && k <= 32 && (k > 0 ==> Wrapped(a, k) != 0)
    ensures k < 32
  {
    Twice32(a);
    WrappedIsTwice(a, 32);
    NoRest(a, Lost(a, 32), Wrapped(a, 32));
  }

  lemma {:induction false} NoRest(m: nat, l: nat, w: nat)
    requires U32 * m == l * U32 + w && w < U32
    ensures w == 0
  {
  }

  lemma {:induction false} TwiceGrows(a: nat, j: nat, k: nat)
    requires j <= k
    ensures Twice(a, j) <= Twice(a, k)
    ensures a > 0 && j < k ==> 2 * Twice(a, j) <= Twice(a, k) && Twice(a, j) > 0
    decreases k - j
  {
    if j < k {
      TwiceGrows(a, j, k - 1);
      if j == k - 1 { Positive(a, j); }
    }
  }

  lemma {:induction false} Positive(a: nat, j: nat)
    ensures a > 0 ==> Twice(a, j) > 0
  {
    if j > 0 { Positive(a, j - 1); }
  }

  /** As long as the true value fits 32 bits nothing is lost, and the loop stops at the first
    value that is large enough. */
  lemma {:induction false} StopsAtFirst(size: nat, align: nat, r: Option<nat>, k: nat, n: nat)
    requires 0 < align < U32 && align != 1 && Doubling(size, align, r, k)
    requires size <= Twice(align, n) < U32 && forall j :: 0 <= j < n ==> Twice(align, j) < size
    ensures k == n && r == Some(Twice(align, n))
  {
    Positive(align, k);
    WrappedIsTwice(align, k);
    if n < k {
      WrappedIsTwice(align, n);
    } else if k < n {
      TwiceGrows(align, k, n);
    }
  }

  /** The least doubling that is large enough. */
  lemma {:induction false} LeastDoubling(size: nat, align: nat, n: nat) returns (m: nat)
    requires size <= Twice(align, n)
    ensures m <= n && size <= Twice(align, m) && forall j :: 0 <= j < m ==> Twice(align, j) < size
  {
    if j :| 0 <= j < n && size <= Twice(align, j) { m := LeastDoubling(size, align, j); } else { m := n; }
  }

  /** The alignment that results is a true doubling of the one asked for if and only if some
    doubling is large enough and fits 32 bits; it is then the least one. */
  lemma {:induction false} TrueAlignmentIff(size: nat, align: nat, r: Option<nat>, k: nat)
    requires size < U32 && 0 < align < U32 && align != 1 && Doubling(size, align, r, k)
    ensures (exists n :: r == Some(Twice(align, n))) <==> exists n :: size <= Twice(align, n) < U32
    ensures (exists n :: r == Some(Twice(align, n))) ==> r == Some(Twice(align, k)) && forall j :: 0 <= j < k ==>
      Twice(align, j) < size
  {
    WrappedIsTwice(align, k);
    if n :| r == Some(Twice(align, n)) {
      assert size <= Twice(align, n) < U32;
    }
    if n :| size <= Twice(align, n) < U32 {
      var m := LeastDoubling(size, align, n);
      TwiceGrows(align, m, n);
      StopsAtFirst(size, align, r, k, m);
    }
  }

  /** Up to 2^31 the request always succeeds. */
  lemma {:induction false} FitsUpTo31Bits(size: nat, align: nat, r: Option<nat>, k: nat)
    requires size <= 0x8000_0000 && 0 < align < U32 && align != 1 && Doubling(size, align, r, k)
    ensures r == Some(Twice(align, k)) && size <= Twice(align, k) < U32 && forall j :: 0 <= j < k ==>
      Twice(align, j) < size
  {
    Twice32(align);
    var m := LeastDoubling(size, align, 32);
    if m > 0 { assert Twice(align, m - 1) < size; }
    StopsAtFirst(size, align, r, k, m);
  }

  /** The k-th doubling of 2^e in 32 bits. */
  lemma {:induction false} PowerWrapped(e: nat, k: nat)
    requires e < 32
    ensures 0 < Twice(1, e) <= 0x8000_0000
    ensures Wrapped(Twice(1, e), k) == if e + k < 32 then Twice(1, e + k) else 0
    decreases k
  {
    Halfway();
    Positive(1, e);
    TwiceGrows(1, e, 31);
    if k > 0 {
      PowerWrapped(e, k - 1);
      if e + k < 32 { TwiceGrows(1, e + k, 31); }
    }
  }

  lemma {:induction false} Halfway()
    ensures Twice(1, 31) == 0x8000_0000 && Twice(1, 32) == U32
  {
    Twice32(1);
    assert Twice(1, 32) == 2 * Twice(1, 31);
  }

  /** For a power of two the loop gives up exactly when the size needs more than 31 bits. */
  lemma {:induction false} PowerOfTwoFailsIff(size: nat, e: nat, r: Option<nat>, k: nat)
    requires 0 < e < 32 && Twice(1, e) < size < U32 && Doubling(size, Twice(1, e), r, k)
    ensures r.None? <==> size > 0x8000_0000
  {
    PowerWrapped(e, k);
    Halfway();
    TwiceGrows(1, 0, e);
    if e + k < 32 {
      TwiceGrows(1, e + k, 31);
      Positive(1, e + k);
    }
    if size <= 0x8000_0000 { FitsUpTo31Bits(size, Twice(1, e), r, k); }
  }

  /** Otherwise the loop may succeed with a value that wrapped: asked for a multiple of 39 for
    0x9C000001 bytes it settles for 0xE0000000, which is none. */
  lemma {:induction false} WrappedAlignmentAccepted()
    ensures exists n :: Doubling(0x9C00_0001, 39, Some(0xE000_0000), n) && 0xE000_0000 % 39 != 0
  {
    TwiceTo26(39);
    AcceptsWrapped(39, 26);
  }

  lemma {:induction false} TwiceTo26(a: nat)
    ensures Twice(a, 26) == 0x400_0000 * a
  {
    Twice32(a);
    assert Twice(a, 25) == 2 * Twice(a, 24);
    assert Twice(a, 26) == 2 * Twice(a, 25);
  }

  /** Three doublings after 0x9C000000 the loop is content. */
  lemma {:induction false} AcceptsWrapped(align: nat, n: nat)
    requires 1 < align < U32 && Twice(align, n) == 0x9C00_0000
    ensures Doubling(0x9C00_0001, align, Some(0xE000_0000), n + 3)
  {
    LastDoublings(align, n);
    forall j | 0 <= j < n + 3 ensures 0 < Wrapped(align, j) < 0x9C00_0001 {
      if j <= n { StillSmall(align, 0x9C00_0001, n, j); }
    }
  }

  lemma {:induction false} LastDoublings(align: nat, n: nat)
    requires align < U32 && Twice(align, n) == 0x9C00_0000
    ensures Wrapped(align, n + 1) == 0x3800_0000 && Wrapped(align, n + 2) == 0x7000_0000
    ensures Wrapped(align, n + 3) == 0xE000_0000
  {
    WrappedIsTwice(align, n);
    assert Wrapped(align, n + 1) == Double32(Wrapped(align, n));
    assert Wrapped(align, n + 2) == Double32(Wrapped(align, n + 1));
    assert Wrapped(align, n + 3) == Double32(Wrapped(align, n + 2));
  }

  lemma {:induction false} StillSmall(align: nat, size: nat, n: nat, j: nat)
    requires 0 < align < U32 && Twice(align, n) < size < U32 && j <= n
    ensures 0 < Wrapped(align, j) < size
  {
    TwiceGrows(align, j, n);
    Positive(align, j);
    WrappedIsTwice(align, j);
  }

  // ---------------------------------------------------------------- the tag table

  /** struct usbd_dma_tag; align == 0 marks an unused one. */
  datatype Tag = Tag(align: nat, size: nat, segs: nat)

  predicate Matches(t: Tag, size: nat, align: nat) {
    t.align == align && t.size == size
  }

  /** The used tags come first, no two for the same request, each with room for its segments. */
  ghost predicate TableOk(p: PageSize, ts: seq<Tag>) {
    && (forall i, j :: 0 <= i < j < |ts| && ts[j].align != 0 ==>
         ts[i].align != 0 && !Matches(ts[i], ts[j].size, ts[j].align))
    && (forall i :: 0 <= i < |ts| && ts[i].align != 0 ==> ts[i].segs == RoomFor(p, ts[i].size, ts[i].align))
  }

  /** usbd_dma_tag_find; `memory` says whether a segment array can be allocated. */
  /** No tag of that size and alignment, and none can be made. */
  ghost predicate NoTag(tags: seq<Tag>, size: nat, align: nat, memory: bool) {
    && (forall i :: 0 <= i < |tags| ==> !Matches(tags[i], size, align))
    && (memory ==> forall i :: 0 <= i < |tags| ==> tags[i].align != 0)
  }

  method TagFind(p: PageSize, tags: array<Tag>, size: nat, align: nat, memory: bool) returns (r: Option<nat>)
    requires size > 0 && align > 0 && TableOk(p, tags[..])
    modifies tags
    ensures TableOk(p, tags[..])
    ensures r.Some? ==> r.value < tags.Length && Matches(tags[r.value], size, align)
    ensures (exists i :: 0 <= i < tags.Length && Matches(old(tags[i]), size, align)) ==>
      r.Some? && tags[..] == old(tags[..])
    ensures r.None? <==> NoTag(old(tags[..]), size, align, memory)
    ensures forall i :: 0 <= i < tags.Length && (old(tags[i].align) != 0 || r != Some(i)) ==> tags[i] == old(tags[i])
  {
    var i := 0;
    while i < tags.Length
      invariant 0 <= i <= tags.Length && tags[..] == old(tags[..])
      invariant forall j :: 0 <= j < i ==> tags[j].align != 0 && !Matches(tags[j], size, align)
    {
      if tags[i].align == 0 {
        if !memory { return None; }
        tags[i] := Tag(align, size, RoomFor(p, size, align));
        return Some(i);
      }
      if Matches(tags[i], size, align) { return Some(i); }
      i := i + 1;
    }
    r := None;
  }

  // ---------------------------------------------------------------- taking and giving back

  datatype Resource = Memory | Mapping | DmaMap | Load | SegCopy

  /** What must be held as long as r is; the copied segment list is only a copy. */
  function Needs(r: Resource): set<Resource> {
    match r
    case Mapping => {Memory}
    case Load => {Mapping, DmaMap}
    case _ => {}
  }

  const ALL: set<Resource> := {Memory, Mapping, DmaMap, Load, SegCopy}

  /** A page cache and what has been taken for it: nothing is taken twice or too early, and nothing is
    given back that is not held or is still needed. */
  class Buffer {
    const pc: PageCache
    var held: set<Resource>
    var tag: Option<nat>

    constructor (pc: PageCache)
      ensures this.pc == pc && held == {}
    {
      this.pc := pc;
      held, tag := {}, None;
    }

    method Take(r: Resource)
      requires r !in held && Needs(r) <= held
      modifies this`held
      ensures held == old(held) + {r}
    {
      held := held + {r};
    }

    method Give(r: Resource)
      requires r in held && forall x :: x in held ==> r !in Needs(x)
      modifies this`held
      ensures held == old(held) - {r}
    {
      held := held - {r};
    }

    /** usbd_pc_alloc_mem; fails(r) tells whether taking r fails.  The DMA code maps the buffer at ptr in the
      segments segs, as
      many at most as the caller's array pg has pages. */
    method AllocMem(pg: array<Page>, size: nat, align: nat, tags: array<Tag>, memory: bool, fails: Resource -> bool,
        ptr: nat, segs: seq<Seg>)
      returns (failed: bool)
      requires 0 < size < U32 && 0 < align < U32 && TableOk(pc.page, tags[..]) && held == {} && 0 < |segs| <= pg.Length
      modifies this, pc, pg, tags
      ensures TableOk(pc.page, tags[..])
      ensures held == if failed then {} else ALL
      ensures failed ==>
        tag.None? && pc.buffer.None? && pc.pages == null && pc.offsetBuf == 0 &&
        pc.offsetEnd == 0 && pg[..] == old(pg[..])
      ensures !failed ==> tag.Some? && tag.value < tags.Length && tags[tag.value].size == size
      ensures !failed ==> (if pc.multi then align == 1 && tags[tag.value].align == 1 else tags[tag.value].align >= size)
      ensures !failed ==> pc.buffer == Some(ptr) && pc.pages == pg && Filled(pc.page, pg[..], pc.offsetBuf, segs)
      ensures !failed ==> pc.offsetEnd == (size + pc.offsetBuf) % U32
      // it fails exactly if a call fails, or the alignment cannot be doubled to fit, or there is no tag for it
      ensures !failed <==>
        && !fails(Memory) && !fails(Mapping) && !fails(DmaMap) && !fails(Load) && !fails(SegCopy)
        && exists a, k :: Doubling(size, align, Some(a), k) && !NoTag(old(tags[..]), size, a, memory)
      ensures !failed ==> exists k :: Doubling(size, align, Some(tags[tag.value].align), k)
    {
      var fit := FitAlign(size, align);
      if fit.Some? {
        tag := TagFind(pc.page, tags, size, fit.value, memory);
        if tag.Some? {
          failed := TakeAll(fails);
          if !failed {
            FillCache(pg, size, fit.value == 1, ptr, segs);
            return;
          }
        }
      }
      pc.buffer, pc.pages, pc.offsetBuf, pc.offsetEnd := None, null, 0, 0;
      tag := None;
      failed := true;
    }

    /** The page cache is set up and loaded. */
    method FillCache(pg: array<Page>, size: nat, multi: bool, ptr: nat, segs: seq<Seg>)
      requires 0 < |segs| <= pg.Length
      modifies pc, pg
      ensures pc.buffer == Some(ptr) && pc.pages == pg && pc.multi == multi
      ensures Filled(pc.page, pg[..], pc.offsetBuf, segs) && pc.offsetEnd == (size + pc.offsetBuf) % U32
    {
      pc.buffer, pc.pages, pc.offsetBuf, pc.offsetEnd, pc.multi := Some(ptr), pg, 0, size, multi;
      pc.Load(segs, false);
    }

    /** The chain of calls in usbd_pc_alloc_mem with its labels done_4 to done_0. */
    method TakeAll(fails: Resource -> bool) returns (failed: bool)
      requires held == {}
      modifies this`held
      ensures held == if failed then {} else ALL
      ensures failed == (fails(Memory) || fails(Mapping) || fails(DmaMap) || fails(Load) || fails(SegCopy))
    {
      if fails(Memory) { return true; }
      Take(Memory);
      if fails(Mapping) {
        Give(Memory);
        return true;
      }
      Take(Mapping);
      if fails(DmaMap) {
        Give(Mapping);
        Give(Memory);
        return true;
      }
      Take(DmaMap);
      if fails(Load) {
        Give(DmaMap);
        Give(Mapping);
        Give(Memory);
        return true;
      }
      Take(Load);
      if fails(SegCopy) {
        Give(Load);
        Give(DmaMap);
        Give(Mapping);
        Give(Memory);
        return true;
      }
      Take(SegCopy);
      failed := false;
    }

    /** usbd_pc_free_mem */
    method FreeMem()
      requires pc.buffer.Some? ==> held == ALL
      modifies this`held, pc`buffer
      ensures pc.buffer.None? && held == if old(pc.buffer).Some? then {} else old(held)
    {
      if pc.buffer.Some? {
        Give(Load);
        Give(DmaMap);
        Give(Mapping);
        Give(Memory);
        Give(SegCopy);
        pc.buffer := None;
      }
    }
  }
}
