/** The SYSINIT engine and the module loader of module/freebsd_i4b_mod.c.

  do_sysinit sorts its table without storing anything: three nested loops search for the next
  level and the next order while they call. */
module Sysinit {
  import opened Basics

  type U32 = x: nat | x < 0x1_0000_0000

  const MAX: U32 := 0xffff_ffff
  const SI_SUB_DRIVERS: U32 := 0x310_0000

  /** struct sysinit; which function is called is identified by the position in the table. */
  datatype Entry = Entry(subsystem: U32, order: U32)

  predicate InRange(table: seq<Entry>, lo: U32, hi: U32, k: nat) {
    k < |table| && lo <= table[k].subsystem <= hi
  }

  /** Entry a is to be called before entry b: by subsystem, then order, then table position. */
  predicate Before(table: seq<Entry>, a: nat, b: nat)
    requires a < |table| && b < |table|
  {
    || table[a].subsystem < table[b].subsystem
    || (table[a].subsystem == table[b].subsystem &&
        (table[a].order < table[b].order || (table[a].order == table[b].order && a < b)))
  }

  ghost predicate Ascending(table: seq<Entry>, calls: seq<nat>) {
    && (forall i :: 0 <= i < |calls| ==> calls[i] < |table|)
    && (forall i, j :: 0 <= i < j < |calls| ==> Before(table, calls[i], calls[j]))
  }

  /** `calls` is the stable sort of the entries whose subsystem lies in [lo, hi], each once. */
  ghost predicate IsStableSort(table: seq<Entry>, lo: U32, hi: U32, calls: seq<nat>) {
    && Ascending(table, calls)
    && (forall k :: k in calls <==> InRange(table, lo, hi, k))
  }

  /** What has been called when the engine stands at (level, order) and entry i. */
  ghost predicate Done(table: seq<Entry>, lo: U32, level: U32, order: U32, i: nat, k: nat) {
    && k < |table| && lo <= table[k].subsystem
    && (|| table[k].subsystem < level
        || (table[k].subsystem == level &&
            (table[k].order < order || (table[k].order == order && k < i))))
  }

  ghost predicate Progress(table: seq<Entry>, lo: U32, level: U32, order: U32, i: nat, calls: seq<nat>) {
    && Ascending(table, calls)
    && (forall k :: k in calls <==> Done(table, lo, level, order, i, k))
  }

  /** No subsystem lies strictly between level and next, among the first n entries. */
  ghost predicate NoLevelBetween(table: seq<Entry>, level: U32, next: U32, n: nat) {
    forall k :: 0 <= k < n <= |table| ==> table[k].subsystem <= level || next <= table[k].subsystem
  }

  ghost predicate NoOrderBetween(table: seq<Entry>, order: U32, next: U32, n: nat) {
    forall k :: 0 <= k < n <= |table| ==> table[k].order <= order || next <= table[k].order
  }

  lemma {:induction false} CallNext(table: seq<Entry>, lo: U32, level: U32, order: U32, i: nat, calls: seq<nat>)
    requires Progress(table, lo, level, order, i, calls) && i < |table| && lo <= level
    ensures Progress(table, lo, level, order, i + 1,
              if table[i].subsystem == level && table[i].order == order then calls + [i] else calls)
  {
    if table[i].subsystem == level && table[i].order == order {
      var more := calls + [i];
      forall a, b | 0 <= a < b < |more| ensures Before(table, more[a], more[b]) {
        if b == |calls| { assert more[a] in calls; }
      }
      forall k ensures k in more <==> Done(table, lo, level, order, i + 1, k) {
        assert k in more <==> k in calls || k == i;
      }
    }
  }

  /** One pass over the table at (level, order): call what matches, look for the next level
    and the next order. */
  method Pass(table: seq<Entry>, ghost lo: U32, level: U32, last: U32, order: U32, levelNext0: U32, calls0: seq<nat>)
    returns (calls: seq<nat>, levelNext: U32, orderNext: U32)
    requires lo <= level <= last && Progress(table, lo, level, order, 0, calls0)
    requires level < last ==> level < levelNext0 <= last
    ensures Progress(table, lo, level, order, |table|, calls)
    ensures level < last ==> level < levelNext <= last
    ensures NoLevelBetween(table, level, levelNext, |table|) || level == last
    ensures order < MAX ==> order < orderNext <= MAX && NoOrderBetween(table, order, orderNext, |table|)
  {
    calls, levelNext, orderNext := calls0, levelNext0, MAX;
    var i := 0;
    while i < |table|
      invariant 0 <= i <= |table|
      invariant Progress(table, lo, level, order, i, calls)
      invariant level < last ==> level < levelNext <= last && NoLevelBetween(table, level, levelNext, i)
      invariant order < MAX ==> order < orderNext <= MAX && NoOrderBetween(table, order, orderNext, i)
    {
      var temp1, temp2 := table[i].subsystem, table[i].order;
      CallNext(table, lo, level, order, i, calls);
      if temp1 == level && temp2 == order { calls := calls + [i]; }
      if temp1 > level && temp1 < levelNext { levelNext := temp1; }
      if temp2 > order && temp2 < orderNext { orderNext := temp2; }
      i := i + 1;
    }
  }

  /** Standing after the last entry at one order is standing before the first at the next. */
  lemma {:induction false} NextOrder(table: seq<Entry>, lo: U32, level: U32, order: U32, next: U32, calls: seq<nat>)
    requires Progress(table, lo, level, order, |table|, calls) && order < next
    requires NoOrderBetween(table, order, next, |table|)
    ensures Progress(table, lo, level, next, 0, calls)
  {
    forall k ensures Done(table, lo, level, order, |table|, k) <==> Done(table, lo, level, next, 0, k) {}
  }

  lemma {:induction false} NextLevel(table: seq<Entry>, lo: U32, level: U32, next: U32, calls: seq<nat>)
    requires Progress(table, lo, level, MAX, |table|, calls) && level < next
    requires NoLevelBetween(table, level, next, |table|)
    ensures Progress(table, lo, next, 0, 0, calls)
  {
    forall k ensures Done(table, lo, level, MAX, |table|, k) <==> Done(table, lo, next, 0, 0, k) {}
  }

  /** All orders of one level. */
  method Level(table: seq<Entry>, ghost lo: U32, level: U32, last: U32, calls0: seq<nat>)
    returns (calls: seq<nat>, levelNext: U32)
    requires lo <= level <= last && Progress(table, lo, level, 0, 0, calls0)
    ensures Progress(table, lo, level, MAX, |table|, calls)
    ensures level < last ==> level < levelNext <= last && NoLevelBetween(table, level, levelNext, |table|)
  {
    calls, levelNext := calls0, last;
    var order: U32 := 0;
    while true
      invariant Progress(table, lo, level, order, 0, calls)
      invariant level < last ==> level < levelNext <= last
      decreases MAX - order
    {
      var orderNext;
      calls, levelNext, orderNext := Pass(table, lo, level, last, order, levelNext, calls);
      if order == MAX { break; }
      NextOrder(table, lo, level, order, orderNext, calls);
      order := orderNext;
    }
  }

  function EffectiveLast(first: U32, last: U32): U32 { if last < first then first else last }

  /** do_sysinit: the call trace is the stable sort of the selected entries. */
  method DoSysinit(table: seq<Entry>, first: U32, last0: U32) returns (calls: seq<nat>)
    ensures IsStableSort(table, first, EffectiveLast(first, last0), calls)
    // in full: the calls are of the entries in the range, by subsystem, then order, then position in the table
    ensures forall k: nat :: k in calls <==>
      k < |table| && first <= table[k].subsystem && (table[k].subsystem <= last0 || table[k].subsystem == first)
    ensures forall i, j :: 0 <= i < j < |calls| ==>
      var a, b := table[calls[i]], table[calls[j]];
      || a.subsystem < b.subsystem || (a.subsystem == b.subsystem && a.order < b.order)
      || (a == b && calls[i] < calls[j])
  {
    var last := if last0 < first then first else last0;
    var level := first;
    calls := [];
    while true
      invariant first <= level <= last && Progress(table, first, level, 0, 0, calls)
      decreases last - level
    {
      var levelNext;
      calls, levelNext := Level(table, first, level, last, calls);
      if level == last { break; }
      NextLevel(table, first, level, levelNext, calls);
      level := levelNext;
    }
    forall k ensures Done(table, first, last, MAX, |table|, k) <==> InRange(table, first, last, k) {}
  }

  // ---------------------------------------------------------------- the sort is unique

  lemma {:induction false} LeastFirst(table: seq<Entry>, calls: seq<nat>, k: nat)
    requires Ascending(table, calls) && k in calls
    ensures calls != [] && (k == calls[0] || Before(table, calls[0], k))
  {
    var i :| 0 <= i < |calls| && calls[i] == k;
  }

  /** The rest of an ascending sequence lacks exactly its first element. */
  lemma {:induction false} RestElements(table: seq<Entry>, calls: seq<nat>, k: nat)
    requires Ascending(table, calls) && calls != []
    ensures k in calls[1..] <==> k in calls && k != calls[0]
  {
    assert calls == [calls[0]] + calls[1..];
    if k in calls[1..] {
      var i :| 0 <= i < |calls[1..]| && calls[1..][i] == k;
      assert Before(table, calls[0], calls[i + 1]);
    }
  }

  lemma {:induction false} HasElement(calls: seq<nat>)
    ensures calls == [] || exists k :: k in calls
  {
    if calls != [] { assert calls[0] in calls; }
  }

  lemma {:induction false} AscendingUnique(table: seq<Entry>, a: seq<nat>, b: seq<nat>)
    requires Ascending(table, a) && Ascending(table, b) && forall k :: k in a <==> k in b
    ensures a == b
    decreases |a|
  {
    HasElement(b);
    if a != [] {
      assert a[0] in b;
      assert b[0] in a;
      LeastFirst(table, a, b[0]);
      LeastFirst(table, b, a[0]);
      forall k ensures k in a[1..] <==> k in b[1..] {
        RestElements(table, a, k);
        RestElements(table, b, k);
      }
      AscendingUnique(table, a[1..], b[1..]);
      assert a == [a[0]] + a[1..] && b == [b[0]] + b[1..];
    }
  }

  // ---------------------------------------------------------------- a reference sort

  /** Insert k after every entry that must not come later than it. */
  function Insert(table: seq<Entry>, sorted: seq<nat>, k: nat): (r: seq<nat>)
    requires k < |table| && forall i :: 0 <= i < |sorted| ==> sorted[i] < |table|
    ensures forall x :: x in r <==> x in sorted || x == k
  {
    assert sorted != [] ==> sorted == [sorted[0]] + sorted[1..];
    if sorted == [] || Before(table, k, sorted[0]) then [k] + sorted
    else [sorted[0]] + Insert(table, sorted[1..], k)
  }

  /** Insertion sort of the selected ones among the first n entries. */
  function SortSelected(table: seq<Entry>, lo: U32, hi: U32, n: nat): (calls: seq<nat>)
    requires n <= |table|
    ensures forall k: nat :: k in calls <==> k < n && InRange(table, lo, hi, k)
  {
    if n == 0 then []
    else
      var rest := SortSelected(table, lo, hi, n - 1);
      assert forall i :: 0 <= i < |rest| ==> rest[i] in rest;
      if InRange(table, lo, hi, n - 1) then Insert(table, rest, n - 1) else rest
  }

  lemma {:induction false} InsertAscending(table: seq<Entry>, sorted: seq<nat>, k: nat)
    requires Ascending(table, sorted) && k < |table| && k !in sorted
    ensures Ascending(table, Insert(table, sorted, k))
    decreases |sorted|
  {
    var r := Insert(table, sorted, k);
    if sorted != [] && !Before(table, k, sorted[0]) {
      InsertAscending(table, sorted[1..], k);
      forall j | 0 < j < |r| ensures Before(table, r[0], r[j]) {
        assert r[j] == Insert(table, sorted[1..], k)[j - 1];
        assert r[j] in Insert(table, sorted[1..], k);
        if r[j] != k {
          var i :| 0 <= i < |sorted[1..]| && sorted[1..][i] == r[j];
          assert Before(table, sorted[0], sorted[i + 1]);
        }
      }
    } else if sorted != [] {
      forall j | 0 < j < |r| ensures Before(table, r[0], r[j]) {
        assert r[j] == sorted[j - 1];
        assert j > 1 ==> Before(table, sorted[0], sorted[j - 1]);
      }
    }
  }

  lemma {:induction false} SortSelectedAscending(table: seq<Entry>, lo: U32, hi: U32, n: nat)
    requires n <= |table|
    ensures Ascending(table, SortSelected(table, lo, hi, n))
  {
    if n > 0 {
      SortSelectedAscending(table, lo, hi, n - 1);
      if InRange(table, lo, hi, n - 1) {
        InsertAscending(table, SortSelected(table, lo, hi, n - 1), n - 1);
      }
    }
  }

  /** The triple loop computes what an insertion sort of the selected entries computes. */
  lemma {:induction false} StableSortIsSort(table: seq<Entry>, lo: U32, hi: U32, calls: seq<nat>)
    ensures IsStableSort(table, lo, hi, calls) <==> calls == SortSelected(table, lo, hi, |table|)
  {
    SortSelectedAscending(table, lo, hi, |table|);
    if IsStableSort(table, lo, hi, calls) {
      AscendingUnique(table, calls, SortSelected(table, lo, hi, |table|));
    }
  }

  /** Running [a, m] and then [m + 1, b] calls what running [a, b] calls, in the same order. */
  lemma {:induction false} SplitRange(table: seq<Entry>, a: U32, m: U32, b: U32, first: seq<nat>, second: seq<nat>)
    requires a <= m < b && IsStableSort(table, a, m, first) && IsStableSort(table, m + 1, b, second)
    ensures IsStableSort(table, a, b, first + second)
  {
    var all := first + second;
    forall i, j | 0 <= i < j < |all| ensures Before(table, all[i], all[j]) {
      if i < |first| <= j {
        assert all[i] in first && all[j] in second;
      }
    }
    forall k ensures k in all <==> InRange(table, a, b, k) {
      assert k in all <==> k in first || k in second;
    }
  }

  // ---------------------------------------------------------------- module loaders

  /** struct bsd_module_data: the callback, if any. */
  type Module = Option<nat>

  /** Module k is the first in the table with its callback. */
  predicate FirstUse(mods: seq<Module>, k: nat) {
    k < |mods| && mods[k].Some? && forall j :: 0 <= j < k ==> mods[j] != mods[k]
  }

  ghost predicate Increasing(calls: seq<nat>) {
    forall i, j :: 0 <= i < j < |calls| ==> calls[i] < calls[j]
  }

  /** The calls made when every module below `upto` has been looked at without an error. */
  ghost predicate Called(mods: seq<Module>, upto: nat, calls: seq<nat>) {
    && Increasing(calls)
    && (forall k: nat :: k in calls <==> k < upto && FirstUse(mods, k))
  }

  lemma {:induction false} CalledNext(mods: seq<Module>, i: nat, calls: seq<nat>)
    requires Called(mods, i, calls) && FirstUse(mods, i)
    ensures Called(mods, i + 1, calls + [i]) && (calls + [i])[..|calls|] == calls
    ensures forall k: nat :: k in calls + [i] <==> k in calls || k == i
  {
    assert forall j :: 0 <= j < |calls| ==> calls[j] in calls;
  }

  lemma {:induction false} CalledSame(mods: seq<Module>, i: nat, calls: seq<nat>)
    requires Called(mods, i, calls) && !FirstUse(mods, i)
    ensures Called(mods, i + 1, calls)
  {}

  /** do_module: each distinct callback once, in table order, up to and including the first
    that reports an error.  `status(k)` is what the callback of module k returns. */
  method DoModule(mods: seq<Module>, status: nat -> int) returns (calls: seq<nat>, error: int)
    ensures error == 0 ==> Called(mods, |mods|, calls) && forall k :: k in calls ==> status(k) == 0
    ensures error != 0 ==>
      && calls != [] && status(calls[|calls| - 1]) == error
      && Called(mods, calls[|calls| - 1] + 1, calls)
      && forall k :: k in calls[..|calls| - 1] ==> status(k) == 0
  {
    calls, error := [], 0;
    var root: seq<nat> := [];
    var i := 0;
    while i < |mods|
      invariant 0 <= i <= |mods| && error == 0
      invariant Called(mods, i, calls) && (forall k :: k in calls ==> status(k) == 0)
      invariant forall c :: c in root <==> exists k :: 0 <= k < i && mods[k] == Some(c)
    {
      if mods[i].Some? && mods[i].value !in root {
        assert FirstUse(mods, i);
        CalledNext(mods, i, calls);
        calls := calls + [i];
        root := [mods[i].value] + root;
        error := status(i);
        if error != 0 { return; }
      } else {
        CalledSame(mods, i, calls);
      }
      i := i + 1;
    }
  }

  // ---------------------------------------------------------------- load

  datatype Kind = Init | Load | Uninit

  datatype Event = Call(kind: Kind, k: nat) | ScanPci

  function Events(kind: Kind, calls: seq<nat>): (r: seq<Event>)
    ensures |r| == |calls| && forall i :: 0 <= i < |r| ==> r[i] == Call(kind, calls[i])
  {
    seq(|calls|, i requires 0 <= i < |calls| => Call(kind, calls[i]))
  }

  /** The trace of a load with its three parts. */
  ghost predicate Loaded(inits: seq<Entry>, uninits: seq<Entry>, mods: seq<Module>, status: nat -> int,
                         trace: seq<Event>, error: int, early: seq<nat>, loads: seq<nat>, late: seq<nat>) {
    && IsStableSort(inits, 0, SI_SUB_DRIVERS, early)
    && (if error == 0 then
          && trace == Events(Init, early) + Events(Load, loads) + [ScanPci] + Events(Init, late)
          && Called(mods, |mods|, loads) && (forall k :: k in loads ==> status(k) == 0)
          && IsStableSort(inits, 0, MAX, early + late)
        else
          && trace == Events(Init, early) + Events(Load, loads) + Events(Uninit, late)
          && loads != [] && status(loads[|loads| - 1]) == error && Called(mods, loads[|loads| - 1] + 1, loads)
          && IsStableSort(uninits, 0, MAX, late))
  }

  /** load: initializers up to SI_SUB_DRIVERS, module loaders, then either the PCI scan and the
    remaining initializers or, after a failed loader, every uninitializer. */
  method LoadModule(inits: seq<Entry>, uninits: seq<Entry>, mods: seq<Module>, status: nat -> int)
    returns (trace: seq<Event>, error: int)
    ensures exists early, loads, late :: Loaded(inits, uninits, mods, status, trace, error, early, loads, late)
  {
    var early := DoSysinit(inits, 0, SI_SUB_DRIVERS);
    trace := Events(Init, early);
    var loads;
    loads, error := DoModule(mods, status);
    trace := trace + Events(Load, loads);
    if error != 0 {
      var undo := DoSysinit(uninits, 0, MAX);
      trace := trace + Events(Uninit, undo);
      assert Loaded(inits, uninits, mods, status, trace, error, early, loads, undo);
      return;
    }
    trace := trace + [ScanPci];
    var late := DoSysinit(inits, SI_SUB_DRIVERS + 1, MAX);
    SplitRange(inits, 0, SI_SUB_DRIVERS, MAX, early, late);
    trace := trace + Events(Init, late);
    assert Loaded(inits, uninits, mods, status, trace, error, early, loads, late);
  }
}
