/** device_delete_child: recursive deletion in post-order with early failure. */
module DeviceDelete {
  import opened Basics
  import opened DeviceTree

  /** The shape of the devices below one device. */
  datatype Tree = Node(dev: Dev, kids: seq<Tree>)

  /** The children lists of s, from t.dev down, have the shape t. */
  ghost predicate Represents(s: State, t: Tree)
    decreases t
  {
    && t.dev in s.devs
    && s.devs[t.dev].children == Roots(t.kids)
    && (forall i :: 0 <= i < |t.kids| ==> Represents(s, t.kids[i]))
  }

  function Roots(ts: seq<Tree>): (r: seq<Dev>)
    ensures |r| == |ts| && forall i :: 0 <= i < |r| ==> r[i] == ts[i].dev
  {
    if ts == [] then [] else [ts[0].dev] + Roots(ts[1..])
  }

  /** Children before parents, in list order. */
  function PostOrder(t: Tree): seq<Dev>
    decreases t, 1
  {
    PostOrders(t.kids) + [t.dev]
  }

  function PostOrders(ts: seq<Tree>): seq<Dev>
    decreases ts, 0
  {
    if ts == [] then [] else PostOrder(ts[0]) + PostOrders(ts[1..])
  }

  function Elements(ds: seq<Dev>): set<Dev> {
    set d | d in ds
  }

  // ---------------------------------------------------------------- what deletion does

  ghost predicate SlotAfter(s: State, r: State, gone: set<Dev>, c: Class, n: nat) {
    SlotAt(r, c, n) == if SlotAt(s, c, n).Some? && SlotAt(s, c, n).value in gone then None else SlotAt(s, c, n)
  }

  ghost predicate DevAfter(s: State, r: State, gone: set<Dev>, d: Dev) {
    d in s.devs && d in r.devs && r.devs[d] == s.devs[d].(children := Without(s.devs[d].children, gone))
  }

  ghost predicate FreedAfter(s: State, r: State, gone: set<Dev>, a: nat) {
    r.freed[a] == s.freed[a] + if OwnedIn(s, gone, a) then 1 else 0
  }

  /** r is s without the devices in `gone`: they are off every children list, out of every slot
    and their lazily allocated softcs are freed; all else is unchanged. */
  ghost predicate Removed(s: State, r: State, gone: set<Dev>) {
    && r.mods == s.mods && r.next == s.next && r.allocs == s.allocs
    && r.devs.Keys == s.devs.Keys - gone && r.classes.Keys == s.classes.Keys
    && (forall c :: c in s.classes ==> |r.classes[c]| == |s.classes[c]|)
    && (forall d {:trigger DevAfter(s, r, gone, d)} :: d in r.devs ==> DevAfter(s, r, gone, d))
    && (forall c, n {:trigger SlotAfter(s, r, gone, c, n)} :: SlotAfter(s, r, gone, c, n))
    && (forall a {:trigger FreedAfter(s, r, gone, a)} :: FreedAfter(s, r, gone, a))
  }

  /** Softc number a belongs to a device in `gone`. */
  ghost predicate OwnedIn(s: State, gone: set<Dev>, a: nat) {
    exists d :: d in gone && d in s.devs && s.devs[d].sc.isAlloc && s.devs[d].sc.ptr == Some(a)
  }

  /** The last part of device_delete_child: leave the slot, the parent's list, and memory. */
  function Drop(s: State, p: Option<Dev>, d: Dev): State
    requires d in s.devs && (p.Some? ==> p.value in s.devs && p.value != d)
  {
    var u := DeleteSlot(s, d);
    var v := if p.Some? then Put(u, p.value, u.devs[p.value].(children := Without(u.devs[p.value].children, {d})))
      else u;
    v.(devs := v.devs - {d})
  }

  /** Every device is on at most one children list. */
  ghost predicate Family(s: State) {
    forall p, q, d :: p in s.devs && q in s.devs && d in s.devs[p].children && d in s.devs[q].children ==> p == q
  }

  /** p is the device on whose list d is, None if it is on no list. */
  ghost predicate ListedBy(s: State, p: Option<Dev>, d: Dev) {
    && (p.Some? ==> p.value in s.devs && d in s.devs[p.value].children)
    && (forall q :: q in s.devs && d in s.devs[q].children ==> p == Some(q))
  }

  // ---------------------------------------------------------------- sequences and sets

  lemma {:induction false} WithoutUnion(ds: seq<Dev>, a: set<Dev>, b: set<Dev>)
    ensures Without(Without(ds, a), b) == Without(ds, a + b)
  {
    if ds != [] {
      WithoutUnion(ds[1..], a, b);
      if ds[0] !in a {
        assert ([ds[0]] + Without(ds[1..], a))[1..] == Without(ds[1..], a);
      }
    }
  }

  lemma {:induction false} WithoutNone(ds: seq<Dev>, a: set<Dev>)
    requires forall d :: d in ds ==> d !in a
    ensures Without(ds, a) == ds
  {
    if ds != [] {
      assert ds == [ds[0]] + ds[1..];
      WithoutNone(ds[1..], a);
    }
  }

  lemma {:induction false} PostOrdersSplit(ts: seq<Tree>, j: nat)
    requires j <= |ts|
    ensures PostOrders(ts) == PostOrders(ts[..j]) + PostOrders(ts[j..])
    decreases j
  {
    if j > 0 {
      PostOrdersSplit(ts[1..], j - 1);
      assert ts[1..][..j - 1] == ts[..j][1..] && ts[1..][j - 1..] == ts[j..];
      assert ts[..j][0] == ts[0];
    }
  }

  lemma {:induction false} PostOrdersNext(ts: seq<Tree>, j: nat)
    requires j < |ts|
    ensures PostOrders(ts[..j + 1]) == PostOrders(ts[..j]) + PostOrder(ts[j])
    ensures PostOrders(ts[j..]) == PostOrder(ts[j]) + PostOrders(ts[j + 1..])
  {
    PostOrdersSplit(ts[..j + 1], j);
    assert ts[..j + 1][..j] == ts[..j] && ts[..j + 1][j..] == [ts[j]];
    assert PostOrders([ts[j]]) == PostOrder(ts[j]) + PostOrders([]);
    assert ts[j..][0] == ts[j] && ts[j..][1..] == ts[j + 1..];
  }

  /** Every kid and everything below it is among the elements of the forest. */
  lemma {:induction false} KidElements(ts: seq<Tree>, i: nat)
    requires i < |ts|
    ensures forall d :: d in PostOrder(ts[i]) ==> d in PostOrders(ts)
    ensures ts[i].dev in PostOrder(ts[i])
  {
    PostOrdersSplit(ts, i);
    PostOrdersNext(ts, i);
    assert PostOrder(ts[i])[|PostOrder(ts[i])| - 1] == ts[i].dev;
  }

  // ---------------------------------------------------------------- composing deletions

  lemma {:induction false} RemovedNothing(s: State)
    ensures Removed(s, s, {})
  {
    forall d | d in s.devs ensures DevAfter(s, s, {}, d) {
      WithoutNone(s.devs[d].children, {});
    }
  }

  lemma {:induction false} RemovedInTurn(s: State, u: State, r: State, a: set<Dev>, b: set<Dev>)
    requires LedgerOk(s) && Removed(s, u, a) && Removed(u, r, b) && b <= u.devs.Keys
    ensures Removed(s, r, a + b)
  {
    forall d | d in r.devs ensures DevAfter(s, r, a + b, d) {
      assert DevAfter(s, u, a, d) && DevAfter(u, r, b, d);
      WithoutUnion(s.devs[d].children, a, b);
    }
    forall c, n ensures SlotAfter(s, r, a + b, c, n) {
      assert SlotAfter(s, u, a, c, n) && SlotAfter(u, r, b, c, n);
    }
    forall x ensures FreedAfter(s, r, a + b, x) {
      assert FreedAfter(s, u, a, x) && FreedAfter(u, r, b, x);
      OwnedSplit(s, u, a, b, x);
    }
  }

  lemma {:induction false} OwnedSplit(s: State, u: State, a: set<Dev>, b: set<Dev>, x: nat)
    requires LedgerOk(s) && Removed(s, u, a) && b <= u.devs.Keys
    ensures OwnedIn(s, a + b, x) <==> OwnedIn(s, a, x) || OwnedIn(u, b, x)
    ensures !(OwnedIn(s, a, x) && OwnedIn(u, b, x))
  {
    forall d | d in b ensures d in s.devs && d in u.devs && u.devs[d].sc == s.devs[d].sc && d !in a {
      assert DevAfter(s, u, a, d);
    }
    if OwnedIn(u, b, x) {
      var d :| d in b && d in u.devs && u.devs[d].sc.isAlloc && u.devs[d].sc.ptr == Some(x);
      assert d in a + b && d in s.devs && s.devs[d].sc.isAlloc && s.devs[d].sc.ptr == Some(x);
    }
    if OwnedIn(s, a, x) {
      var d :| d in a && d in s.devs && s.devs[d].sc.isAlloc && s.devs[d].sc.ptr == Some(x);
      assert d in a + b;
    }
    if OwnedIn(s, a + b, x) {
      var d :| d in a + b && d in s.devs && s.devs[d].sc.isAlloc && s.devs[d].sc.ptr == Some(x);
      assert d in b ==> u.devs[d].sc == s.devs[d].sc;
    }
  }

  lemma {:induction false} RemovedKeepsInv(s: State, r: State, gone: set<Dev>)
    requires Inv(s) && Family(s) && Removed(s, r, gone)
    ensures Inv(r) && Family(r)
  {
    forall d | d in r.devs ensures DevOk(r, d) {
      assert DevOk(s, d) && DevAfter(s, r, gone, d);
      var o := s.devs[d];
      if o.mod.Some? {
        assert SlotAfter(s, r, gone, ClassOf(s, o.mod.value).value, o.unit);
      }
      if o.sc.isAlloc { assert FreedAfter(s, r, gone, o.sc.ptr.value); }
      if o.sc.isAlloc && OwnedIn(s, gone, o.sc.ptr.value) {
        var e :| e in gone && e in s.devs && s.devs[e].sc.isAlloc && s.devs[e].sc.ptr == Some(o.sc.ptr.value);
        assert SameSoftc(s.devs[d].sc, s.devs[e].sc);
      }
    }
    forall c, n ensures SlotOk(r, c, n) {
      assert SlotOk(s, c, n) && SlotAfter(s, r, gone, c, n);
      if SlotAt(r, c, n).Some? { assert DevAfter(s, r, gone, SlotAt(r, c, n).value); }
    }
    forall d | d in r.devs ensures d in s.devs && r.devs[d].sc == s.devs[d].sc { assert DevAfter(s, r, gone, d); }
    forall p, q, d | p in r.devs && q in r.devs && d in r.devs[p].children && d in r.devs[q].children ensures p == q {
      assert DevAfter(s, r, gone, p) && DevAfter(s, r, gone, q);
    }
    forall a: nat ensures r.freed[a] <= 1 && (a in r.freed ==> a < r.allocs) {
      assert FreedAfter(s, r, gone, a);
      if OwnedIn(s, gone, a) {
        var e :| e in gone && e in s.devs && s.devs[e].sc.isAlloc && s.devs[e].sc.ptr == Some(a);
        assert DevOk(s, e);
      }
    }
  }

  lemma {:induction false} RepresentsKept(s: State, r: State, t: Tree, gone: set<Dev>)
    requires Represents(s, t) && Removed(s, r, gone) && forall d :: d in PostOrder(t) ==> d !in gone
    ensures Represents(r, t)
    decreases t
  {
    assert PostOrder(t)[|PostOrder(t)| - 1] == t.dev;
    forall i | 0 <= i < |t.kids| ensures Represents(r, t.kids[i]) && t.kids[i].dev !in gone {
      KidElements(t.kids, i);
      assert forall d :: d in PostOrders(t.kids) ==> d in PostOrder(t);
      RepresentsKept(s, r, t.kids[i], gone);
    }
    forall d | d in Roots(t.kids) ensures d !in gone {
      var i :| 0 <= i < |Roots(t.kids)| && Roots(t.kids)[i] == d;
      assert t.kids[i].dev == d;
    }
    WithoutNone(s.devs[t.dev].children, gone);
    assert DevAfter(s, r, gone, t.dev);
  }

  // ---------------------------------------------------------------- deleting one leaf

  /** Leaving the parent's list and memory does not touch slots. */
  lemma {:induction false} DropFrame(u: State, p: Option<Dev>, d: Dev)
    requires d in u.devs && (p.Some? ==> p.value in u.devs && p.value != d)
    ensures var r := Drop(u, p, d); var v := DeleteSlot(u, d);
      && r.mods == u.mods && r.next == u.next && r.allocs == u.allocs && r.freed == u.freed && r.classes == v.classes
      && r.devs.Keys == u.devs.Keys - {d}
      && (forall e :: e in r.devs ==>
            r.devs[e] == if p == Some(e) then u.devs[e].(children := Without(u.devs[e].children, {d})) else u.devs[e])
  {}

  lemma {:induction false} LeafSlots(s: State, p: Option<Dev>, d: Dev, c: Class, n: nat)
    requires Inv(s) && d in s.devs && d in Detach(s, d).devs
    requires p.Some? ==> p.value in Detach(s, d).devs && p.value != d
    ensures SlotAfter(s, Drop(Detach(s, d), p, d), {d}, c, n)
  {
    DropSlots(s, d);
    DropFrame(Detach(s, d), p, d);
    assert SlotAfter(s, DeleteSlot(Detach(s, d), d), {d}, c, n);
  }

  /** The slot part of device_detach and the one of device_delete_child together clear the
    slot of d, whichever of the two does it; nothing else is disturbed. */
  lemma {:induction false} LeafEffect(s: State, p: Option<Dev>, d: Dev)
    requires Inv(s) && d in s.devs && ListedBy(s, p, d) && p != Some(d)
    ensures d in Detach(s, d).devs && (p.Some? ==> p.value in Detach(s, d).devs)
    ensures Removed(s, Drop(Detach(s, d), p, d), {d})
  {
    assert DevOk(s, d);
    var u := Detach(s, d);
    DetachFrame(s, d);
    DropFrame(u, p, d);
    DropSlots(s, d);
    var r := Drop(u, p, d);
    assert r.classes == DeleteSlot(u, d).classes;
    forall e | e in r.devs ensures DevAfter(s, r, {d}, e) {
      if p != Some(e) { WithoutNone(s.devs[e].children, {d}); }
    }
    forall c, n ensures SlotAfter(s, r, {d}, c, n) { LeafSlots(s, p, d, c, n); }
    forall a: nat ensures FreedAfter(s, r, {d}, a) { LeafFreed(s, r, d, a); }
  }

  lemma {:induction false} LeafFreed(s: State, r: State, d: Dev, a: nat)
    requires d in s.devs && (s.devs[d].sc.isAlloc ==> s.devs[d].sc.ptr.Some?)
    requires r.freed == if s.devs[d].sc.isAlloc then s.freed + multiset{s.devs[d].sc.ptr.value} else s.freed
    ensures FreedAfter(s, r, {d}, a)
  {
    assert OwnedIn(s, {d}, a) <==> s.devs[d].sc.isAlloc && s.devs[d].sc.ptr == Some(a);
  }

  lemma {:induction false} DetachFrame(s: State, d: Dev)
    requires d in s.devs && (s.devs[d].sc.isAlloc ==> s.devs[d].mod.Some? && s.devs[d].sc.ptr.Some?)
    ensures var u := Detach(s, d);
      && u.mods == s.mods && u.next == s.next && u.allocs == s.allocs && u.devs.Keys == s.devs.Keys
      && (forall e :: e in s.devs && e != d ==> u.devs[e] == s.devs[e])
      && u.freed == (if s.devs[d].sc.isAlloc then s.freed + multiset{s.devs[d].sc.ptr.value} else s.freed)
      && (u.devs[d].mod == s.devs[d].mod || u.devs[d].mod.None?) && u.devs[d].unit == s.devs[d].unit
  {}

  /** The slots after detaching and deleting d. */
  lemma {:induction false} DropSlots(s: State, d: Dev)
    requires Inv(s) && d in s.devs
    ensures var r := DeleteSlot(Detach(s, d), d);
      && r.classes.Keys == s.classes.Keys && (forall c :: c in s.classes ==> |r.classes[c]| == |s.classes[c]|)
      && (forall c, n :: SlotAfter(s, r, {d}, c, n))
  {
    assert DevOk(s, d);
    var r := DeleteSlot(Detach(s, d), d);
    DroppedClasses(s, d);
    forall c, n ensures SlotAfter(s, r, {d}, c, n) { assert SlotOk(s, c, n); }
  }

  lemma {:induction false} DroppedClasses(s: State, d: Dev)
    requires d in s.devs && DevOk(s, d)
    ensures var r, o := DeleteSlot(Detach(s, d), d), s.devs[d];
      if o.mod.None? then r.classes == s.classes
      else
        var c := ClassOf(s, o.mod.value);
        && c.Some? && c.value in s.classes && o.unit < |s.classes[c.value]|
        && r.classes == s.classes[c.value := s.classes[c.value][o.unit := None]]
  {}

  // ---------------------------------------------------------------- the recursion

  /** What is left of the children list when the j-th kid and all below it are gone. */
  lemma {:induction false} ShorterList(s: State, r: State, t: Tree, j: nat)
    requires t.dev in s.devs && j < |t.kids| && s.devs[t.dev].children == Roots(t.kids[j..])
    requires Distinct(PostOrder(t)) && Removed(s, r, Elements(PostOrder(t.kids[j])))
    ensures t.dev in r.devs && r.devs[t.dev].children == Roots(t.kids[j + 1..])
    ensures forall i :: j < i < |t.kids| ==> forall d :: d in PostOrder(t.kids[i]) ==>
      d !in Elements(PostOrder(t.kids[j]))
  {
    var gone := Elements(PostOrder(t.kids[j]));
    KidElements(t.kids, j);
    SelfApart(t, j);
    forall i, d | j < i < |t.kids| && d in PostOrder(t.kids[i]) ensures d !in gone { KidsApart(t, j, i, d); }
    var rest := Roots(t.kids[j + 1..]);
    assert Roots(t.kids[j..]) == [t.kids[j].dev] + rest;
    forall d | d in rest ensures d !in gone {
      var i :| 0 <= i < |rest| && rest[i] == d;
      assert t.kids[j + 1..][i] == t.kids[j + 1 + i];
      KidElements(t.kids, j + 1 + i);
    }
    WithoutNone(rest, gone);
    assert DevAfter(s, r, gone, t.dev);
    assert ([t.kids[j].dev] + rest)[1..] == rest;
  }

  /** The device itself is not among the elements below its kids. */
  lemma {:induction false} SelfApart(t: Tree, j: nat)
    requires Distinct(PostOrder(t)) && j < |t.kids|
    ensures t.dev !in PostOrder(t.kids[j])
  {
    KidElements(t.kids, j);
    var all := PostOrder(t);
    assert all[|all| - 1] == t.dev;
    forall d | d in PostOrders(t.kids) ensures d != t.dev {
      var i :| 0 <= i < |PostOrders(t.kids)| && PostOrders(t.kids)[i] == d;
      assert all[i] == d;
    }
  }

  lemma {:induction false} KidsApart(t: Tree, j: nat, i: nat, d: Dev)
    requires Distinct(PostOrder(t)) && j < i < |t.kids| && d in PostOrder(t.kids[i])
    ensures d !in PostOrder(t.kids[j])
  {
    PostOrdersSplit(t.kids, i);
    PostOrdersNext(t.kids, i);
    assert t.kids[..i][j] == t.kids[j];
    KidElements(t.kids[..i], j);
    var front, back := PostOrders(t.kids[..i]), PostOrders(t.kids[i..]);
    assert d in back;
    var b :| 0 <= b < |back| && back[b] == d;
    forall e | e in PostOrder(t.kids[j]) ensures e != d {
      assert e in front;
      var a :| 0 <= a < |front| && front[a] == e;
      assert PostOrder(t)[a] == e && PostOrder(t)[|front| + b] == d;
    }
  }

  lemma {:induction false} KidDistinct(t: Tree, j: nat)
    requires Distinct(PostOrder(t)) && j < |t.kids|
    ensures Distinct(PostOrder(t.kids[j]))
  {
    PostOrdersSplit(t.kids, j);
    PostOrdersNext(t.kids, j);
    var front, k := PostOrders(t.kids[..j]), PostOrder(t.kids[j]);
    forall a, b | 0 <= a < b < |k| ensures k[a] != k[b] {
      assert PostOrder(t)[|front| + a] == k[a] && PostOrder(t)[|front| + b] == k[b];
    }
  }

  /** `gone` is an initial part of the post-order, and all of it detached without error. */
  ghost predicate Progress(s: State, t: Tree, gone: seq<Dev>, fail: Dev -> int) {
    && |gone| <= |PostOrder(t)| && gone == PostOrder(t)[..|gone|]
    && (forall i :: 0 <= i < |gone| ==> gone[i] in s.devs && DetachError(s, gone[i], fail) == 0)
  }

  /** The result of device_delete_child on the tree t. */
  ghost predicate Outcome(s: State, r: State, t: Tree, fail: Dev -> int, error: int, gone: seq<Dev>) {
    && Progress(s, t, gone, fail)
    && Removed(s, r, Elements(gone))
    && (if error == 0 then gone == PostOrder(t)
        else
          && |gone| < |PostOrder(t)| && PostOrder(t)[|gone|] in s.devs
          && DetachError(s, PostOrder(t)[|gone|], fail) == error)
  }

  /** The first j kids of t, and all below them, are gone. */
  ghost predicate Deleting(s: State, u: State, t: Tree, j: nat, fail: Dev -> int, gone: seq<Dev>) {
    && j <= |t.kids| && Inv(s) && Inv(u) && Family(u) && Represents(s, t) && Distinct(PostOrder(t))
    && gone == PostOrders(t.kids[..j]) && Progress(s, t, gone, fail) && Removed(s, u, Elements(gone))
    && t.dev in u.devs && u.devs[t.dev].children == Roots(t.kids[j..])
    && (forall i :: j <= i < |t.kids| ==> Represents(u, t.kids[i]))
  }

  lemma {:induction false} KidReady(s: State, u: State, t: Tree, j: nat, fail: Dev -> int, gone: seq<Dev>)
    requires Deleting(s, u, t, j, fail, gone) && u.devs[t.dev].children != []
    ensures j < |t.kids| && Represents(u, t.kids[j]) && u.devs[t.dev].children[0] == t.kids[j].dev
    ensures Distinct(PostOrder(t.kids[j])) && ListedBy(u, Some(t.dev), t.kids[j].dev) && t.dev !in PostOrder(t.kids[j])
  {
    assert t.kids[j..][0] == t.kids[j];
    KidDistinct(t, j);
    SelfApart(t, j);
    assert u.devs[t.dev].children[0] in u.devs[t.dev].children;
  }

  /** Where the elements below the j-th kid stand in the post-order of t. */
  lemma {:induction false} KidPosition(t: Tree, j: nat, gone: seq<Dev>, more: seq<Dev>)
    requires j < |t.kids| && gone == PostOrders(t.kids[..j])
    requires |more| <= |PostOrder(t.kids[j])| && more == PostOrder(t.kids[j])[..|more|]
    ensures |gone + more| < |PostOrder(t)| && gone + more == PostOrder(t)[..|gone + more|]
    ensures |more| < |PostOrder(t.kids[j])| ==> PostOrder(t)[|gone + more|] == PostOrder(t.kids[j])[|more|]
    ensures more == PostOrder(t.kids[j]) ==> gone + more == PostOrders(t.kids[..j + 1])
    ensures Elements(gone + more) == Elements(gone) + Elements(more)
  {
    PostOrdersSplit(t.kids, j);
    PostOrdersNext(t.kids, j);
    assert PostOrder(t) == gone + PostOrder(t.kids[j]) + (PostOrders(t.kids[j + 1..]) + [t.dev]);
  }

  /** Detaching gives the same answer before and after unrelated deletions. */
  lemma {:induction false} SameErrors(s: State, u: State, gone: set<Dev>, ds: seq<Dev>, fail: Dev -> int)
    requires Removed(s, u, gone) && forall i :: 0 <= i < |ds| ==> ds[i] in u.devs
    ensures forall i :: 0 <= i < |ds| ==> ds[i] in s.devs && DetachError(s, ds[i], fail) == DetachError(u, ds[i], fail)
  {
    forall i | 0 <= i < |ds| ensures ds[i] in s.devs && DetachError(s, ds[i], fail) == DetachError(u, ds[i], fail) {
      assert DevAfter(s, u, gone, ds[i]);
    }
  }

  lemma {:induction false} MoreProgress(s: State, u: State, t: Tree, j: nat, fail: Dev -> int, gone: seq<Dev>,
      more: seq<Dev>)
    requires j < |t.kids| && gone == PostOrders(t.kids[..j]) && Progress(s, t, gone, fail)
    requires Removed(s, u, Elements(gone)) && Progress(u, t.kids[j], more, fail)
    ensures Progress(s, t, gone + more, fail)
  {
    KidPosition(t, j, gone, more);
    SameErrors(s, u, Elements(gone), more, fail);
  }

  lemma {:induction false} KidGone(s: State, u: State, r: State, t: Tree, j: nat, fail: Dev -> int, gone: seq<Dev>)
    requires Deleting(s, u, t, j, fail, gone) && j < |t.kids| && Inv(r) && Family(r)
    requires Outcome(u, r, t.kids[j], fail, 0, PostOrder(t.kids[j]))
    requires Removed(s, r, Elements(gone + PostOrder(t.kids[j])))
    ensures Deleting(s, r, t, j + 1, fail, gone + PostOrder(t.kids[j]))
  {
    var more := PostOrder(t.kids[j]);
    KidPosition(t, j, gone, more);
    MoreProgress(s, u, t, j, fail, gone, more);
    ShorterList(u, r, t, j);
    forall i | j + 1 <= i < |t.kids| ensures Represents(r, t.kids[i]) {
      RepresentsKept(u, r, t.kids[i], Elements(more));
    }
  }

  /** After the j-th kid: either everything below it is gone too, or the deletion stopped. */
  lemma {:induction false} KidDone(s: State, u: State, r: State, t: Tree, j: nat, fail: Dev -> int, error: int,
      gone: seq<Dev>, more: seq<Dev>)
    requires Deleting(s, u, t, j, fail, gone) && j < |t.kids| && Inv(r) && Family(r)
    requires Outcome(u, r, t.kids[j], fail, error, more)
    ensures error == 0 ==> Deleting(s, r, t, j + 1, fail, gone + more)
    ensures error != 0 ==> Outcome(s, r, t, fail, error, gone + more)
  {
    KidPosition(t, j, gone, more);
    RemovedInTurn(s, u, r, Elements(gone), Elements(more));
    if error == 0 {
      KidGone(s, u, r, t, j, fail, gone);
    } else {
      MoreProgress(s, u, t, j, fail, gone, more);
      var x := PostOrder(t.kids[j])[|more|];
      assert DevAfter(s, u, Elements(gone), x);
      assert PostOrder(t)[|gone + more|] == x;
    }
  }

  lemma {:induction false} StillListed(s: State, u: State, p: Option<Dev>, d: Dev, gone: set<Dev>)
    requires Removed(s, u, gone) && ListedBy(s, p, d) && d !in gone && (p.Some? ==> p.value !in gone)
    ensures ListedBy(u, p, d)
  {
    forall q | q in u.devs && d in u.devs[q].children ensures p == Some(q) { assert DevAfter(s, u, gone, q); }
    if p.Some? { assert DevAfter(s, u, gone, p.value); }
  }

  /** With the children list empty, d itself is next in post-order. */
  lemma {:induction false} LastReady(s: State, u: State, t: Tree, p: Option<Dev>, j: nat, fail: Dev -> int,
      gone: seq<Dev>)
    requires Deleting(s, u, t, j, fail, gone) && u.devs[t.dev].children == []
    requires ListedBy(s, p, t.dev) && (p.Some? ==> p.value !in PostOrder(t))
    ensures t.dev in Detach(u, t.dev).devs && (p.Some? ==> p.value != t.dev && p.value in Detach(u, t.dev).devs)
    ensures var e := DetachError(u, t.dev, fail);
      if e != 0 then Outcome(s, u, t, fail, e, gone)
      else
        var r := Drop(Detach(u, t.dev), p, t.dev);
        Inv(r) && Family(r) && Outcome(s, r, t, fail, 0, gone + [t.dev])
  {
    var all := PostOrder(t);
    assert t.kids[..j] == t.kids;
    assert all == gone + [t.dev];
    assert all[|all| - 1] == t.dev;
    assert t.dev !in gone by {
      forall i | 0 <= i < |gone| ensures gone[i] != t.dev { assert all[i] == gone[i]; }
    }
    SameErrors(s, u, Elements(gone), [t.dev], fail);
    assert [t.dev][0] == t.dev;
    assert p.Some? ==> p.value !in gone by { assert forall d :: d in gone ==> d in all; }
    StillListed(s, u, p, t.dev, Elements(gone));
    LeafEffect(u, p, t.dev);
    if DetachError(u, t.dev, fail) == 0 {
      LastGone(s, u, Drop(Detach(u, t.dev), p, t.dev), t, fail, gone);
    }
  }

  lemma {:induction false} LastGone(s: State, u: State, r: State, t: Tree, fail: Dev -> int, gone: seq<Dev>)
    requires Inv(s) && Inv(u) && Family(u) && Removed(s, u, Elements(gone)) && Removed(u, r, {t.dev}) && t.dev in u.devs
    requires Progress(s, t, gone, fail) && PostOrder(t) == gone + [t.dev] && t.dev in s.devs
    requires DetachError(s, t.dev, fail) == 0
    ensures Inv(r) && Family(r) && Outcome(s, r, t, fail, 0, gone + [t.dev])
  {
    RemovedKeepsInv(u, r, {t.dev});
    RemovedInTurn(s, u, r, Elements(gone), {t.dev});
    assert Elements(gone + [t.dev]) == Elements(gone) + {t.dev};
  }

  // ---------------------------------------------------------------- leaving a slot

  /** devclass_delete_device: afterwards no slot names the device, and every other slot is as before. */
  lemma {:induction false} SlotLeft(s: State, d: Dev)
    requires Inv(s) && d in s.devs
    ensures var u := DeleteSlot(s, d);
      && u.devs == s.devs[d := s.devs[d].(mod := None)] && u.classes.Keys == s.classes.Keys
      && (forall c :: c in s.classes ==> |u.classes[c]| == |s.classes[c]|)
      && (forall c, n :: SlotAfter(s, u, {d}, c, n) && !Holds(u, d, c, n))
  {
    assert DevOk(s, d);
    var o, u := s.devs[d], DeleteSlot(s, d);
    if o.mod.Some? {
      var c0 := ClassOf(s, o.mod.value).value;
      assert u.classes == s.classes[c0 := s.classes[c0][o.unit := None]];
    }
    forall c, n ensures SlotAfter(s, u, {d}, c, n) && !Holds(u, d, c, n) { assert SlotOk(s, c, n); }
  }

  /** device_detach keeps the tables well-formed. */
  lemma {:induction false} DetachedFreed(s: State, u: State, d: Dev)
    requires Inv(s) && d in s.devs && u.allocs == s.allocs && (s.devs[d].sc.isAlloc ==> s.devs[d].sc.ptr.Some?)
    requires u.freed == if s.devs[d].sc.isAlloc then s.freed + multiset{s.devs[d].sc.ptr.value} else s.freed
    ensures forall a: nat :: u.freed[a] <= 1 && (a in u.freed ==> a < u.allocs)
  {
    assert DevOk(s, d);
    forall a: nat ensures u.freed[a] <= 1 && (a in u.freed ==> a < u.allocs) { assert a in s.freed ==> a < s.allocs; }
  }

  lemma {:induction false} DetachInv(s: State, d: Dev)
    requires Inv(s) && d in s.devs
    ensures Inv(Detach(s, d))
  {
    assert DevOk(s, d);
    var u := Detach(s, d);
    DetachFrame(s, d);
    DetachSlots(s, d);
    forall e | e in u.devs ensures DevOk(u, e) { DetachedOk(s, d, e); }
    forall c, n ensures SlotOk(u, c, n) { assert SlotOk(s, c, n); }
    DetachedFreed(s, u, d);
    forall x, y | x in u.devs && y in u.devs && SameSoftc(u.devs[x].sc, u.devs[y].sc) ensures x == y {
      assert SameSoftc(s.devs[x].sc, s.devs[y].sc);
    }
  }

  lemma {:induction false} DetachSlots(s: State, d: Dev)
    requires Inv(s) && d in s.devs
    ensures var u := Detach(s, d);
      && u.classes.Keys == s.classes.Keys && (forall c :: c in s.classes ==> |u.classes[c]| == |s.classes[c]|)
      && (forall c, n :: SlotAt(u, c, n) == if SlotAt(s, c, n) == Some(d) &&
           !s.devs[d].fixedClass then None else SlotAt(s, c, n))
  {
    assert DevOk(s, d);
    var o, u := s.devs[d], Detach(s, d);
    if o.mod.Some? && !o.fixedClass {
      var c0 := ClassOf(s, o.mod.value).value;
      assert u.classes == s.classes[c0 := s.classes[c0][o.unit := None]];
    }
    forall c, n
      ensures SlotAt(u, c, n) == if SlotAt(s, c, n) == Some(d) && !o.fixedClass then None else SlotAt(s, c, n)
    {
      assert SlotOk(s, c, n);
    }
  }

  lemma {:induction false} DetachedOk(s: State, d: Dev, e: Dev)
    requires Inv(s) && d in s.devs && e in s.devs && e in Detach(s, d).devs
    ensures DevOk(Detach(s, d), e)
  {
    assert DevOk(s, d) && DevOk(s, e);
    DetachFrame(s, d);
    DetachSlots(s, d);
    if e != d && s.devs[e].sc.isAlloc { assert SameSoftc(s.devs[d].sc, s.devs[e].sc) ==> d == e; }
  }
}
