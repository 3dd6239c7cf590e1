/** Creating devices: units, fixed classes, and ordered children lists.  In every state built by
  adding, deleting and probing, the devices form a forest, so that deletion applies to any device. */
module DeviceForest {
  import opened Basics
  import opened DeviceTree
  import opened DeviceDelete
  import opened DeviceProbe

  // ---------------------------------------------------------------- the forest

  /** The list of p holds existing, younger, distinct devices in ascending order. */
  ghost predicate ListOk(s: State, p: Dev)
    requires p in s.devs
  {
    var ds := s.devs[p].children;
    && (forall i :: 0 <= i < |ds| ==> ds[i] in s.devs && p < ds[i] < s.next)
    && (forall i, j :: 0 <= i < j < |ds| ==> ds[i] != ds[j] && s.devs[ds[i]].order <= s.devs[ds[j]].order)
  }

  ghost predicate Forest(s: State) {
    && Family(s)
    && (forall p {:trigger ListOk(s, p)} :: p in s.devs ==> ListOk(s, p))
  }

  /** The tree below d. */
  ghost function TreeOf(s: State, d: Dev): (t: Tree)
    requires Forest(s) && d in s.devs && d < s.next
    ensures t.dev == d
    decreases s.next - d
  {
    assert ListOk(s, d);
    var ds := s.devs[d].children;
    Node(d, seq(|ds|, i requires 0 <= i < |ds| => TreeOf(s, ds[i])))
  }

  lemma {:induction false} TreeRepresents(s: State, d: Dev)
    requires Forest(s) && d in s.devs && d < s.next
    ensures Represents(s, TreeOf(s, d))
    decreases s.next - d
  {
    var t := TreeOf(s, d);
    var ds := s.devs[d].children;
    assert ListOk(s, d);
    forall i | 0 <= i < |ds| ensures Represents(s, t.kids[i]) { TreeRepresents(s, ds[i]); }
    assert Roots(t.kids) == ds;
  }

  /** Everything below a forest of trees is below one of them. */
  lemma {:induction false} InSomeKid(ts: seq<Tree>, x: Dev) returns (i: nat)
    requires x in PostOrders(ts)
    ensures i < |ts| && x in PostOrder(ts[i])
  {
    if x in PostOrder(ts[0]) {
      i := 0;
    } else {
      i := InSomeKid(ts[1..], x);
      i := i + 1;
    }
  }

  /** What is below d is younger, and its parent is below d too. */
  lemma {:induction false} Below(s: State, d: Dev, x: Dev)
    requires Forest(s) && d in s.devs && d < s.next && x in PostOrder(TreeOf(s, d))
    ensures d <= x && x in s.devs
    ensures x != d ==> exists p :: p in s.devs && x in s.devs[p].children && p < x && p in PostOrder(TreeOf(s, d))
    decreases s.next - d
  {
    var t := TreeOf(s, d);
    var ds := s.devs[d].children;
    assert ListOk(s, d);
    if x != d {
      var i := InSomeKid(t.kids, x);
      Below(s, ds[i], x);
      KidElements(t.kids, i);
      assert forall y :: y in PostOrders(t.kids) ==> y in PostOrder(t);
      assert PostOrder(t)[|PostOrder(t)| - 1] == d;
      if x == ds[i] {
        assert d in s.devs && x in s.devs[d].children && d < x && d in PostOrder(t);
      }
    }
  }

  /** Two children of one device have nothing below them in common. */
  lemma {:induction false} SiblingsApart(s: State, p: Dev, a: Dev, b: Dev, x: Dev)
    requires Forest(s) && p in s.devs && a in s.devs[p].children && b in s.devs[p].children && a != b
    requires a in s.devs && b in s.devs && a < s.next && b < s.next
    requires x in PostOrder(TreeOf(s, a)) && x in PostOrder(TreeOf(s, b))
    ensures false
    decreases x
  {
    assert ListOk(s, p);
    Below(s, a, x);
    Below(s, b, x);
    if x == a {
      Below(s, b, p);
    } else if x == b {
      Below(s, a, p);
    } else {
      var q :| q in s.devs && x in s.devs[q].children && q < x && q in PostOrder(TreeOf(s, a));
      SiblingsApart(s, p, a, b, q);
    }
  }

  lemma {:induction false} ForestDistinct(ts: seq<Tree>)
    requires forall i :: 0 <= i < |ts| ==> Distinct(PostOrder(ts[i]))
    requires forall i, j, x :: 0 <= i < j < |ts| && x in PostOrder(ts[i]) ==> x !in PostOrder(ts[j])
    ensures Distinct(PostOrders(ts))
  {
    if ts != [] {
      var rest := ts[1..];
      ForestDistinct(rest);
      var a, b := PostOrder(ts[0]), PostOrders(rest);
      forall x | x in b ensures x !in a {
        var i := InSomeKid(rest, x);
        assert rest[i] == ts[i + 1];
      }
      forall i, j | 0 <= i < j < |a + b| ensures (a + b)[i] != (a + b)[j] {
        if i < |a| <= j { assert a[i] in a && b[j - |a|] in b; }
      }
    }
  }

  lemma {:induction false} TreeDistinct(s: State, d: Dev)
    requires Forest(s) && d in s.devs && d < s.next
    ensures Distinct(PostOrder(TreeOf(s, d)))
    decreases s.next - d
  {
    var t := TreeOf(s, d);
    var ds := s.devs[d].children;
    assert ListOk(s, d);
    forall i | 0 <= i < |ds| ensures Distinct(PostOrder(t.kids[i])) { TreeDistinct(s, ds[i]); }
    forall i, j, x | 0 <= i < j < |ds| && x in PostOrder(t.kids[i]) ensures x !in PostOrder(t.kids[j]) {
      if x in PostOrder(t.kids[j]) { SiblingsApart(s, d, ds[i], ds[j], x); }
    }
    ForestDistinct(t.kids);
    forall x | x in PostOrders(t.kids) ensures x != d {
      var i := InSomeKid(t.kids, x);
      Below(s, ds[i], x);
    }
    var front := PostOrders(t.kids);
    forall i, j | 0 <= i < j < |front + [d]| ensures (front + [d])[i] != (front + [d])[j] {
      assert front[i] in front;
    }
  }

  /** In a forest any device can be handed to device_delete_child together with its parent. */
  lemma {:induction false} DeletionApplies(s: State, p: Option<Dev>, d: Dev)
    requires Inv(s) && Forest(s) && d in s.devs && ListedBy(s, p, d)
    ensures d < s.next && TreeOf(s, d).dev == d && Represents(s, TreeOf(s, d)) && Distinct(PostOrder(TreeOf(s, d)))
    ensures p.Some? ==> p.value !in PostOrder(TreeOf(s, d))
  {
    assert DevOk(s, d);
    TreeRepresents(s, d);
    TreeDistinct(s, d);
    if p.Some? {
      assert ListOk(s, p.value);
      if p.value in PostOrder(TreeOf(s, d)) { Below(s, d, p.value); }
    }
  }

  // ---------------------------------------------------------------- what keeps it a forest

  /** Two places of the shorter list are two places, in the same order, of the longer one. */
  lemma {:induction false} WithoutPlaces(ds: seq<Dev>, gone: set<Dev>, i: nat, j: nat) returns (a: nat, b: nat)
    requires i < j < |Without(ds, gone)|
    ensures a < b < |ds| && Without(ds, gone)[i] == ds[a] && Without(ds, gone)[j] == ds[b]
  {
    var w := Without(ds[1..], gone);
    if ds[0] in gone {
      a, b := WithoutPlaces(ds[1..], gone, i, j);
      a, b := a + 1, b + 1;
    } else if i > 0 {
      a, b := WithoutPlaces(ds[1..], gone, i - 1, j - 1);
      a, b := a + 1, b + 1;
    } else {
      assert w[j - 1] in w;
      assert w[j - 1] in ds[1..];
      a := 0;
      b :| 1 <= b < |ds| && ds[b] == w[j - 1];
    }
  }

  lemma {:induction false} RemovedKeepsForest(s: State, r: State, gone: set<Dev>)
    requires Inv(s) && Forest(s) && Removed(s, r, gone)
    ensures Forest(r)
  {
    RemovedKeepsInv(s, r, gone);
    forall p | p in r.devs ensures ListOk(r, p) {
      RemovedKeepsList(s, r, gone, p);
    }
  }

  lemma {:induction false} RemovedKeepsList(s: State, r: State, gone: set<Dev>, p: Dev)
    requires Forest(s) && Removed(s, r, gone) && p in r.devs
    ensures ListOk(r, p)
  {
    assert DevAfter(s, r, gone, p) && ListOk(s, p);
    var ds: seq<Dev>, w: seq<Dev> := s.devs[p].children, r.devs[p].children;
    forall i | 0 <= i < |w| ensures w[i] in r.devs && p < w[i] < r.next && r.devs[w[i]].order == s.devs[w[i]].order {
      assert w[i] in w;
      assert w[i] in ds && w[i] !in gone;
      assert DevAfter(s, r, gone, w[i]);
    }
    forall i, j | 0 <= i < j < |w| ensures w[i] != w[j] && r.devs[w[i]].order <= r.devs[w[j]].order {
      var a, b := WithoutPlaces(ds, gone, i, j);
    }
  }

  lemma {:induction false} ProbeKeepsForest(s: State, u: State, d: Dev)
    requires Forest(s) && OnlyDevice(s, u, d)
    ensures Forest(u)
  {
    forall e | e in s.devs ensures u.devs[e].children == s.devs[e].children && u.devs[e].order == s.devs[e].order {}
    forall p | p in u.devs ensures ListOk(u, p) { assert ListOk(s, p); }
  }

  // ---------------------------------------------------------------- make_device

  /** The new device before it has a class; the unit is kept in 16 bits. */
  function Blank(unit: int): Device {
    Device(0, [], None, if unit == -1 then 0 else unit % 0x10000, unit != -1, false, false, NOSOFTC)
  }

  predicate Named(m: Module, name: string) {
    m.name == Some(name) && m.cls.Some?
  }

  /** The entry that devclass_find_create picks: the first of that name that has a class. */
  ghost predicate Picked(mods: seq<Module>, name: string, i: Option<nat>) {
    match i
    case None => forall k :: 0 <= k < |mods| ==> !Named(mods[k], name)
    case Some(n) => n < |mods| && Named(mods[n], name) && forall k :: 0 <= k < n ==> !Named(mods[k], name)
  }

  /** u has the tables of s, with some classes created, plus perhaps one slot for d. */
  ghost predicate SlotsKept(s: State, u: State, d: Dev, at: Option<(Class, nat)>) {
    && u.mods == s.mods && u.allocs == s.allocs && u.freed == s.freed
    && (forall c :: c in u.classes ==> |u.classes[c]| == MAXUNIT)
    && (forall c, n {:trigger SlotKept(s, u, d, at, c, n)} :: SlotKept(s, u, d, at, c, n))
  }

  /** What make_device promises: a fresh device, in the slot of its class if it is given one, or
    none at all and every slot as before. */
  ghost predicate Made(s: State, u: State, name: Option<string>, unit: int, memory: bool, r: Option<Dev>) {
    if !memory then r.None? && u.devs == s.devs && u.next == s.next && SlotsKept(s, u, s.next, None)
    else match name
      case None =>
        r == Some(s.next) && u == Put(s, s.next, Blank(unit)).(next := s.next + 1)
      case Some(nm) =>
        exists i :: Picked(s.mods, nm, i) && MadeOfClass(s, u, i, unit, r)
  }

  ghost predicate MadeOfClass(s: State, u: State, i: Option<nat>, unit: int, r: Option<Dev>) {
    if i.None? || i.value >= |s.mods| || s.mods[i.value].cls.None? ||
      UnitFor(s, s.mods[i.value].cls.value, Blank(unit), None)
    then r.None? && u.devs == s.devs && u.next == s.next && SlotsKept(s, u, s.next, None)
    else r == Some(s.next) && exists n :: Registered(s, u, i.value, unit, n)
  }

  /** The new device s.next holds unit n of module i. */
  ghost predicate Registered(s: State, u: State, i: nat, unit: int, n: nat) {
    && i < |s.mods| && s.mods[i].cls.Some? && UnitFor(s, s.mods[i].cls.value, Blank(unit), Some(n))
    && u.devs == s.devs[s.next := Blank(unit).(mod := Some(i), unit := n, fixedClass := true)]
    && u.next == s.next + 1
    && SlotsKept(s, u, s.next, Some((s.mods[i].cls.value, n)))
  }

  lemma {:induction false} FreshDevice(s: State)
    requires Inv(s)
    ensures s.next !in s.devs
  {
    assert s.next in s.devs ==> DevOk(s, s.next);
  }

  /** Nothing but slots can tell s from u: the devices of s are still well-formed. */
  lemma {:induction false} OldDevicesOk(s: State, u: State, at: Option<(Class, nat)>, e: Dev)
    requires Inv(s) && SlotsKept(s, u, s.next, at) && e in s.devs && e in u.devs && u.devs[e] == s.devs[e]
    requires s.next <= u.next
    requires at.Some? ==> SlotAt(s, at.value.0, at.value.1).None?
    ensures DevOk(u, e)
  {
    assert DevOk(s, e);
    if s.devs[e].mod.Some? {
      assert SlotKept(s, u, s.next, at, ClassOf(s, s.devs[e].mod.value).value, s.devs[e].unit);
    }
  }

  lemma {:induction false} NothingMadeInv(s: State, u: State)
    requires Inv(s) && u.devs == s.devs && u.next == s.next && SlotsKept(s, u, s.next, None)
    ensures Inv(u)
  {
    forall e | e in u.devs ensures DevOk(u, e) { OldDevicesOk(s, u, None, e); }
    forall c, n ensures SlotOk(u, c, n) { assert SlotOk(s, c, n) && SlotKept(s, u, s.next, None, c, n); }
  }

  lemma {:induction false} RegisteredInv(s: State, u: State, i: nat, unit: int, n: nat)
    requires Inv(s) && Registered(s, u, i, unit, n)
    ensures Inv(u)
  {
    FreshDevice(s);
    var at := Some((s.mods[i].cls.value, n));
    assert SlotKept(s, u, s.next, at, at.value.0, n);
    forall e | e in u.devs ensures DevOk(u, e) {
      if e != s.next { OldDevicesOk(s, u, at, e); }
    }
    forall c, m ensures SlotOk(u, c, m) { assert SlotOk(s, c, m) && SlotKept(s, u, s.next, at, c, m); }
  }

  lemma {:induction false} BlankInv(s: State, unit: int)
    requires Inv(s)
    ensures Inv(Put(s, s.next, Blank(unit)).(next := s.next + 1))
  {
    FreshDevice(s);
    var u := Put(s, s.next, Blank(unit)).(next := s.next + 1);
    forall e | e in u.devs ensures DevOk(u, e) { assert e != s.next ==> DevOk(s, e); }
    forall c, n ensures SlotOk(u, c, n) { assert SlotOk(s, c, n); }
  }

  lemma {:induction false} MadeKeepsInv(s: State, u: State, name: Option<string>, unit: int, memory: bool,
      r: Option<Dev>)
    requires Inv(s) && Made(s, u, name, unit, memory, r)
    ensures Inv(u)
    ensures r.Some? ==>
      r.value == s.next && u.next == s.next + 1 && s.next !in s.devs &&
      u.devs.Keys == s.devs.Keys + {s.next} && u.devs[s.next].children == []
    ensures r.None? ==> u.devs == s.devs && u.next == s.next
    ensures forall e :: e in s.devs ==> e in u.devs && u.devs[e] == s.devs[e]
  {
    FreshDevice(s);
    if !memory {
      NothingMadeInv(s, u);
    } else if name.None? {
      BlankInv(s, unit);
    } else {
      var i :| Picked(s.mods, name.value, i) && MadeOfClass(s, u, i, unit, r);
      if r.None? {
        NothingMadeInv(s, u);
      } else {
        var n :| Registered(s, u, i.value, unit, n);
        RegisteredInv(s, u, i.value, unit, n);
      }
    }
  }

  // ---------------------------------------------------------------- device_add_child_ordered

  /** Where a child of that order goes: after every child of a smaller or the same order. */
  ghost predicate PlaceFor(s: State, ds: seq<Dev>, order: int, k: nat) {
    && k <= |ds| && (forall i :: 0 <= i < |ds| ==> ds[i] in s.devs)
    && (forall i :: 0 <= i < k ==> s.devs[ds[i]].order <= order)
    && (k < |ds| ==> s.devs[ds[k]].order > order)
  }

  /** u, in which c was just made, with c put on the list of p. */
  ghost predicate ChildListed(u: State, r: State, p: Dev, c: Dev, order: int, k: nat) {
    && p in u.devs && c in u.devs && p != c
    && var ds := u.devs[p].children;
      && PlaceFor(u, ds, order, k)
      && r == u.(devs := u.devs[c := u.devs[c].(order := order)][p := u.devs[p].(children := ds[..k] + [c] + ds[k..])])
  }

  lemma {:induction false} ListedKeepsInv(u: State, r: State, p: Dev, c: Dev, order: int, k: nat)
    requires Inv(u) && ChildListed(u, r, p, c, order, k)
    ensures Inv(r)
  {
    forall e | e in r.devs ensures DevOk(r, e) { assert DevOk(u, e); }
    forall x, n ensures SlotOk(r, x, n) { assert SlotOk(u, x, n); }
    forall x, y | x in r.devs && y in r.devs && SameSoftc(r.devs[x].sc, r.devs[y].sc) ensures x == y {
      assert SameSoftc(u.devs[x].sc, u.devs[y].sc);
    }
  }

  /** The new child stands behind its equals, so the list stays in ascending order. */
  lemma {:induction false} ListedKeepsOrder(s: State, u: State, r: State, p: Dev, c: Dev, order: int, k: nat)
    requires Forest(s) && p in s.devs && p < c && c !in s.devs && c < r.next && s.next <= r.next
    requires forall e :: e in s.devs ==> e in u.devs && u.devs[e] == s.devs[e]
    requires ChildListed(u, r, p, c, order, k)
    ensures ListOk(r, p)
  {
    assert ListOk(s, p);
    var ds := s.devs[p].children;
    var w: seq<Dev> := r.devs[p].children;
    forall i | 0 <= i < |w| ensures w[i] in r.devs && p < w[i] < r.next {
      assert w[i] == c || w[i] == ds[if i < k then i else i - 1];
    }
    forall i | 0 <= i < |ds| ensures ds[i] in r.devs && ds[i] != c && r.devs[ds[i]].order == s.devs[ds[i]].order {}
    assert forall i :: k <= i < |ds| ==> s.devs[ds[k]].order <= s.devs[ds[i]].order;
    assert r.devs[c].order == order && Sorted(r, ds);
    InsertedIsSorted(r, ds, c, k);
  }

  /** Distinct devices in the order of their order values. */
  ghost predicate Sorted(r: State, ds: seq<Dev>) {
    && (forall i :: 0 <= i < |ds| ==> ds[i] in r.devs)
    && (forall i, j :: 0 <= i < j < |ds| ==> ds[i] != ds[j] && r.devs[ds[i]].order <= r.devs[ds[j]].order)
  }

  lemma {:induction false} InsertedIsSorted(r: State, ds: seq<Dev>, c: Dev, k: nat)
    requires Sorted(r, ds) && c in r.devs && c !in ds && k <= |ds|
    requires forall i :: 0 <= i < k ==> r.devs[ds[i]].order <= r.devs[c].order
    requires forall i :: k <= i < |ds| ==> r.devs[c].order <= r.devs[ds[i]].order
    ensures Sorted(r, ds[..k] + [c] + ds[k..])
  {
    var w := ds[..k] + [c] + ds[k..];
    assert forall i :: 0 <= i < |w| ==> w[i] == if i < k then ds[i] else if i == k then c else ds[i - 1];
  }

  lemma {:induction false} ChildOnOneList(s: State, u: State, r: State, p: Dev, c: Dev, order: int, k: nat)
    requires Forest(s) && p in s.devs && c == s.next
    requires u.devs.Keys == s.devs.Keys + {c} && u.devs[c].children == []
    requires forall e :: e in s.devs ==> u.devs[e] == s.devs[e]
    requires ChildListed(u, r, p, c, order, k)
    ensures Family(r)
  {
    forall e | e in s.devs ensures c !in s.devs[e].children { assert ListOk(s, e); }
    var ds := s.devs[p].children;
    assert forall x :: x in r.devs[p].children <==> x == c || x in ds by {
      assert ds == ds[..k] + ds[k..];
    }
    forall e | e in r.devs && e != p ensures r.devs[e].children == if e == c then [] else s.devs[e].children {}
  }

  lemma {:induction false} OtherLists(s: State, u: State, r: State, p: Dev, c: Dev, order: int, k: nat, e: Dev)
    requires Forest(s) && c !in s.devs && s.next <= r.next && e in s.devs && e != p && e != c
    requires forall e :: e in s.devs ==> e in u.devs && u.devs[e] == s.devs[e]
    requires ChildListed(u, r, p, c, order, k)
    ensures ListOk(r, e)
  {
    assert ListOk(s, e);
    var ds := s.devs[e].children;
    forall i | 0 <= i < |ds| ensures ds[i] in r.devs && r.devs[ds[i]].order == s.devs[ds[i]].order {}
  }

  lemma {:induction false} ChildKeepsForest(s: State, u: State, r: State, p: Dev, c: Dev, order: int, k: nat)
    requires Inv(s) && Forest(s) && p in s.devs && c == s.next && u.next == s.next + 1
    requires u.devs.Keys == s.devs.Keys + {c} && u.devs[c].children == []
    requires forall e :: e in s.devs ==> u.devs[e] == s.devs[e]
    requires ChildListed(u, r, p, c, order, k)
    ensures Forest(r)
  {
    FreshDevice(s);
    assert DevOk(s, p);
    ChildOnOneList(s, u, r, p, c, order, k);
    forall e | e in r.devs ensures ListOk(r, e) {
      if e == p {
        ListedKeepsOrder(s, u, r, p, c, order, k);
      } else if e != c {
        OtherLists(s, u, r, p, c, order, k, e);
      }
    }
  }
}
