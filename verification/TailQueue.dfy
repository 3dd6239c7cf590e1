/** The TAILQ macros of src.port/bsd_module_queue.h on the heap they work on.

  A link holds the address of a cell: the first cell of a head, or the next cell of an element.
  Because a head and an element entry have the same layout, a link can also be read as if it
  pointed to a head; TAILQ_LAST and TAILQ_PREV depend on that. */
module TailQueue {
  import opened Basics

  /** struct type **: NULL, &head->tqh_first, or &elm->field.tqe_next. */
  datatype Link = Null | FirstCell(h: Head) | NextCell(e: Elem)

  class Elem {
    var next: Elem?    // tqe_next
    var prev: Link     // tqe_prev
  }

  class Head {
    var first: Elem?   // tqh_first
    var last: Link     // tqh_last
  }

  /** The objects a link points into. */
  function Cell(l: Link): set<object> {
    match l
    case Null => {}
    case FirstCell(h) => {h}
    case NextCell(e) => {e}
  }

  /** `*link` */
  function Deref(l: Link): Elem?
    requires !l.Null?
    reads Cell(l)
  {
    match l
    case FirstCell(h) => h.first
    case NextCell(e) => e.next
  }

  /** `((struct headname *)link)->tqh_last`: the second word behind the cell. */
  function SecondWord(l: Link): Link
    requires !l.Null?
    reads Cell(l)
  {
    match l
    case FirstCell(h) => h.last
    case NextCell(e) => e.prev
  }

  /** `*link = v` */
  method Assign(l: Link, v: Elem?)
    requires !l.Null?
    modifies Cell(l)
    ensures l.FirstCell? ==> l.h.first == v && l.h.last == old(l.h.last)
    ensures l.NextCell? ==> l.e.next == v && l.e.prev == old(l.e.prev)
  {
    match l
    case FirstCell(h) => h.first := v;
    case NextCell(e) => e.next := v;
  }

  function At(s: seq<Elem>, i: int): Elem? {
    if 0 <= i < |s| then s[i] else null
  }

  /** The link to the cell that holds position i of the queue: of the head or of the element before. */
  function LinkTo(h: Head, s: seq<Elem>, i: nat): Link
    requires i <= |s|
  {
    if i == 0 then FirstCell(h) else NextCell(s[i - 1])
  }

  /** The entry of the i-th element is linked to its neighbours. */
  ghost predicate Entry(h: Head, s: seq<Elem>, i: nat)
    requires i < |s|
    reads h, s
  {
    s[i].next == At(s, i + 1) && s[i].prev == LinkTo(h, s, i)
  }

  /** The head h and the elements of s, in this order, form a well-formed tail queue. */
  ghost predicate IsQueue(h: Head, s: seq<Elem>)
    reads h, s
  {
    && Distinct(s)
    && h.first == At(s, 0)
    && h.last == LinkTo(h, s, |s|)
    && (forall i {:trigger Entry(h, s, i)} :: 0 <= i < |s| ==> Entry(h, s, i))
  }

  /** TAILQ_INIT */
  method Init(h: Head)
    modifies h
    ensures IsQueue(h, [])
  {
    h.first := null;
    h.last := FirstCell(h);
  }

  /** TAILQ_EMPTY and TAILQ_FIRST */
  lemma {:induction false} FirstElement(h: Head, s: seq<Elem>)
    requires IsQueue(h, s)
    ensures h.first == null <==> s == []
    ensures s != [] ==> h.first == s[0]
  {}

  /** TAILQ_LAST: the double dereference yields the last element, or NULL on an empty queue. */
  method Last(h: Head, ghost s: seq<Elem>) returns (r: Elem?)
    requires IsQueue(h, s)
    ensures r == At(s, |s| - 1)
  {
    assert s != [] ==> Entry(h, s, |s| - 1);
    assert |s| > 1 ==> Entry(h, s, |s| - 2);
    r := Deref(SecondWord(h.last));
  }

  /** TAILQ_PREV: the element before, or NULL for the first. */
  method Prev(x: Elem, ghost h: Head, ghost s: seq<Elem>, ghost k: nat) returns (r: Elem?)
    requires IsQueue(h, s) && k < |s| && s[k] == x
    ensures r == At(s, k - 1)
  {
    assert Entry(h, s, k);
    assert k > 0 ==> Entry(h, s, k - 1);
    assert k > 1 ==> Entry(h, s, k - 2);
    assert Entry(h, s, |s| - 1);
    r := Deref(SecondWord(x.prev));
  }

  /** The elements of s next to position k, whose entries an update there may touch. */
  function Around(s: seq<Elem>, k: nat): set<object>
    requires k <= |s|
  {
    (if k > 0 then {s[k - 1]} else {}) + (if k < |s| then {s[k]} else {})
  }

  /** The entry of s[i] once x has been put in front of position k. */
  ghost predicate EntryAround(h: Head, s: seq<Elem>, k: nat, x: Elem, i: nat)
    requires k <= |s| && i < |s|
    reads h, s
  {
    && s[i].next == (if i + 1 == k then x else At(s, i + 1))
    && s[i].prev == (if i == k then NextCell(x) else LinkTo(h, s, i))
  }

  /** x has been linked in front of position k: what every insertion has to achieve. */
  ghost predicate Linked(h: Head, s: seq<Elem>, k: nat, x: Elem)
    requires k <= |s|
    reads h, s, x
  {
    && h.first == (if k == 0 then x else At(s, 0))
    && h.last == (if k == |s| then NextCell(x) else LinkTo(h, s, |s|))
    && x.next == At(s, k) && x.prev == LinkTo(h, s, k)
    && (forall i {:trigger EntryAround(h, s, k, x, i)} :: 0 <= i < |s| ==> EntryAround(h, s, k, x, i))
  }

  lemma {:induction false} DistinctInsert(s: seq<Elem>, k: nat, x: Elem)
    requires Distinct(s) && x !in s && k <= |s|
    ensures Distinct(s[..k] + [x] + s[k..])
  {
    var r := s[..k] + [x] + s[k..];
    forall i, j | 0 <= i < j < |r| ensures r[i] != r[j] {
      assert r[i] == if i < k then s[i] else if i == k then x else s[i - 1];
      assert r[j] == if j < k then s[j] else if j == k then x else s[j - 1];
    }
  }

  lemma {:induction false} LinkedIsQueue(h: Head, s: seq<Elem>, k: nat, x: Elem)
    requires Distinct(s) && x !in s && k <= |s| && Linked(h, s, k, x)
    ensures IsQueue(h, s[..k] + [x] + s[k..])
  {
    var r := s[..k] + [x] + s[k..];
    DistinctInsert(s, k, x);
    forall i | 0 <= i < |r| ensures Entry(h, r, i) {
      if i < k { assert EntryAround(h, s, k, x, i); assert r[i] == s[i]; }
      if i > k { assert EntryAround(h, s, k, x, i - 1); assert r[i] == s[i - 1]; }
    }
  }

  /** TAILQ_INSERT_HEAD */
  method InsertHead(h: Head, x: Elem, ghost s: seq<Elem>)
    requires IsQueue(h, s) && x !in s
    modifies h, x, Around(s, 0)
    ensures IsQueue(h, [x] + s)
  {
    assert forall i :: 0 <= i < |s| ==> Entry(h, s, i);
    x.next := h.first;
    if x.next != null { h.first.prev := NextCell(x); } else { h.last := NextCell(x); }
    h.first := x;
    x.prev := FirstCell(h);
    forall i | 0 <= i < |s| ensures EntryAround(h, s, 0, x, i) { assert old(Entry(h, s, i)); }
    LinkedIsQueue(h, s, 0, x);
    assert s[..0] + [x] + s[0..] == [x] + s;
  }

  /** TAILQ_INSERT_TAIL */
  method InsertTail(h: Head, x: Elem, ghost s: seq<Elem>)
    requires IsQueue(h, s) && x !in s
    modifies h, x, Around(s, |s|)
    ensures IsQueue(h, s + [x])
  {
    x.next := null;
    x.prev := h.last;
    Assign(h.last, x);
    h.last := NextCell(x);
    forall i | 0 <= i < |s| ensures EntryAround(h, s, |s|, x, i) { assert old(Entry(h, s, i)); }
    LinkedIsQueue(h, s, |s|, x);
    assert s[..|s|] + [x] + s[|s|..] == s + [x];
  }

  /** TAILQ_INSERT_AFTER */
  method InsertAfter(h: Head, y: Elem, x: Elem, ghost s: seq<Elem>, ghost k: nat)
    requires IsQueue(h, s) && k < |s| && s[k] == y && x !in s
    modifies h, x, Around(s, k + 1)
    ensures IsQueue(h, s[..k + 1] + [x] + s[k + 1..])
  {
    assert Entry(h, s, k);
    x.next := y.next;
    if x.next != null { x.next.prev := NextCell(x); } else { h.last := NextCell(x); }
    y.next := x;
    x.prev := NextCell(y);
    ghost var j := k + 1;
    forall i | 0 <= i < |s| ensures EntryAround(h, s, j, x, i) { assert old(Entry(h, s, i)); }
    LinkedIsQueue(h, s, j, x);
  }

  /** TAILQ_INSERT_BEFORE: the head is reached only through the link of y. */
  method InsertBefore(y: Elem, x: Elem, ghost h: Head, ghost s: seq<Elem>, ghost k: nat)
    requires IsQueue(h, s) && k < |s| && s[k] == y && x !in s
    modifies h, x, Around(s, k)
    ensures IsQueue(h, s[..k] + [x] + s[k..])
  {
    assert Entry(h, s, k);
    x.prev := y.prev;
    x.next := y;
    Assign(y.prev, x);
    y.prev := NextCell(x);
    forall i | 0 <= i < |s| ensures EntryAround(h, s, k, x, i) { assert old(Entry(h, s, i)); }
    LinkedIsQueue(h, s, k, x);
  }

  lemma {:induction false} DistinctRemove(s: seq<Elem>, k: nat)
    requires Distinct(s) && k < |s|
    ensures Distinct(s[..k] + s[k + 1..])
  {
    var r := s[..k] + s[k + 1..];
    forall i, j | 0 <= i < j < |r| ensures r[i] != r[j] {
      assert r[i] == if i < k then s[i] else s[i + 1];
      assert r[j] == if j < k then s[j] else s[j + 1];
    }
  }

  /** TAILQ_REMOVE */
  method Remove(h: Head, x: Elem, ghost s: seq<Elem>, ghost k: nat)
    requires IsQueue(h, s) && k < |s| && s[k] == x
    modifies h, Around(s, k), Around(s, k + 1)
    ensures IsQueue(h, s[..k] + s[k + 1..])
  {
    assert Entry(h, s, k);
    if x.next != null { x.next.prev := x.prev; } else { h.last := x.prev; }
    Assign(x.prev, x.next);
    ghost var r := s[..k] + s[k + 1..];
    DistinctRemove(s, k);
    forall i | 0 <= i < |r| ensures Entry(h, r, i) {
      if i < k { assert old(Entry(h, s, i)); assert r[i] == s[i]; }
      else { assert old(Entry(h, s, i + 1)); assert r[i] == s[i + 1]; }
    }
  }

  lemma {:induction false} DistinctConcat(s1: seq<Elem>, s2: seq<Elem>)
    requires Distinct(s1) && Distinct(s2) && forall i, j :: 0 <= i < |s1| && 0 <= j < |s2| ==> s1[i] != s2[j]
    ensures Distinct(s1 + s2)
  {}

  /** TAILQ_CONCAT: everything moves to the end of the first queue, the second becomes empty. */
  method Concat(h1: Head, h2: Head, ghost s1: seq<Elem>, ghost s2: seq<Elem>)
    requires IsQueue(h1, s1) && IsQueue(h2, s2) && h1 != h2
    requires forall i, j :: 0 <= i < |s1| && 0 <= j < |s2| ==> s1[i] != s2[j]
    modifies h1, h2, Around(s1, |s1|), Around(s2, 0)
    ensures IsQueue(h1, s1 + s2) && IsQueue(h2, [])
  {
    if h2.first != null {
      Assign(h1.last, h2.first);
      h2.first.prev := h1.last;
      h1.last := h2.last;
      Init(h2);
    }
    ghost var r := s1 + s2;
    DistinctConcat(s1, s2);
    forall i | 0 <= i < |r| ensures Entry(h1, r, i) {
      if i < |s1| { assert old(Entry(h1, s1, i)); assert r[i] == s1[i]; }
      else { assert old(Entry(h2, s2, i - |s1|)); assert r[i] == s2[i - |s1|]; }
    }
  }
}
