/** The device table as the source keeps it: a fixed array of slots, a cursor and counters that
  devfs_create, devfs_populate and destroy_devl update in place. */
module DevConf {
  import opened Basics
  import opened DevTable
  import DevTableSafety

  /** The first slot devfs_create looks at. */
  function Start(cursor: int, n: nat): (i: int)
    requires n > 3
    ensures 3 <= i < n
  {
    if cursor < 3 || cursor >= n then 3 else cursor
  }

  predicate Occupied(inot: seq<Option<Dev>>, lo: int, hi: int) {
    forall p :: 0 <= lo <= p < hi <= |inot| ==> inot[p].Some?
  }

  /** `slot` is the first free slot met going up from the cursor and around past the end. */
  ghost predicate FirstFree(inot: seq<Option<Dev>>, cursor: int, slot: Option<nat>)
    requires |inot| > 3
  {
    && ValidSlot(inot, slot)
    && (slot.Some? ==>
          var from := Start(cursor, |inot|);
          if from <= slot.value then Occupied(inot, from, slot.value)
          else Occupied(inot, from, |inot|) && Occupied(inot, 3, slot.value))
  }

  class Devices {
    const inot: array<Option<Dev>>
    var cursor: int
    var gen: nat
    var devs: map<Dev, Cdev>
    var next: Dev
    var mounts: map<Mnt, Mount>
    var held: multiset<Dev>
    var dying: map<Tid, seq<Dev>>

    ghost function View(): State
      reads this, inot
    {
      State(inot[..], gen, devs, next, mounts, held, dying)
    }

    constructor (n: nat)
      requires n > 3
      ensures DevTableSafety.Init(View()) && inot.Length == n && fresh(inot)
    {
      inot := new Option<Dev>[n](_ => None);
      cursor, gen, devs, next, mounts, held, dying := 0, 0, map[], 0, map[], multiset{}, map[];
    }

    /** devfs_create. */
    method DevfsCreate(d: Dev) returns (ghost slot: Option<nat>)
      requires inot.Length > 3 && d in devs
      modifies this, inot
      ensures FirstFree(old(inot[..]), old(cursor), slot)
      ensures slot.None? ==> View() == old(View())
      ensures slot.Some? ==> cursor == slot.value
      ensures slot.Some? ==>
        View() == old(View()).(inot := old(inot[..])[slot.value := Some(d)], gen := old(gen) + 1,
                               devs := old(devs)[d := old(devs)[d].(inode := slot.value)])
    {
      var n := inot.Length;
      var i := cursor;
      var j := n;
      ghost var from := Start(cursor, n);
      ghost var wrapped := false;
      slot := None;
      while j > 0
        invariant inot[..] == old(inot[..]) && View() == old(View()) && 0 <= j <= n
        invariant j == n ==> i == old(cursor) && !wrapped
        invariant
          || j == n
          || Occupied(inot[..], 3, n)
          || (!wrapped && from <= i <= n && n - j == i - from && Occupied(inot[..], from, i))
          || (wrapped && 3 <= i <= from && n - j == n - from + i - 3 &&
                Occupied(inot[..], from, n) && Occupied(inot[..], 3, i))
      {
        j := j - 1;
        if i < 3 || i >= n {
          wrapped := i >= n && j + 1 < n;
          i := 3;
        }
        if inot[i].None? {
          devs := devs[d := devs[d].(inode := i)];
          inot[i] := Some(d);
          gen := gen + 1;
          slot := Some(i);
          break;
        }
        i := i + 1;
        if wrapped && i > from { assert Occupied(inot[..], 3, n); }
      }
      cursor := i;
    }

    /** allocdev and make_dev. */
    method MakeDev(name: string) returns (d: Dev, ghost slot: Option<nat>)
      requires Inv(View())
      modifies this, inot
      ensures FirstFree(old(inot[..]), old(cursor), slot) && d == old(next)
      ensures View() == DevTable.MakeDev(old(View()), name, slot) && Inv(View())
      ensures devs.Keys == old(devs.Keys) + {d} && d !in old(devs)
      ensures devs[d].name == if |name| <= 63 then name else name[..63]
      ensures devs[d].live && devs[d].refs == 1 && !devs[d].alias && devs[d].children == []
      ensures forall x :: x in old(devs) ==> devs[x] == old(devs)[x]
      ensures mounts == old(mounts) && held == old(held) && dying == old(dying)
    {
      ghost var s := View();
      d := next;
      devs := devs[d := Cdev(Fit(name), 1, true, 0, false, 0, [], None)];
      next := next + 1;
      slot := DevfsCreate(d);
      DevTableSafety.StepKeepsInv(s, Make(name, slot));
      assert View() == DevTable.MakeDev(s, name, slot);
      MakesOne(s, name, slot);
    }

    /** allocdev and make_dev_alias. */
    method MakeDevAlias(p: Dev, name: string) returns (d: Dev, ghost slot: Option<nat>)
      requires Inv(View()) && p in devs && devs[p].live
      modifies this, inot
      ensures FirstFree(old(inot[..]), old(cursor), slot) && d == old(next)
      ensures View() == DevTable.MakeAlias(old(View()), p, name, slot) && Inv(View())
      ensures devs.Keys == old(devs.Keys) + {d} && d !in old(devs)
      ensures devs[d].name == if |name| <= 63 then name else name[..63]
      ensures devs[d].live && devs[d].refs == 1 && devs[d].alias && devs[d].parent == p && devs[d].children == []
      ensures devs[p] == old(devs)[p].(children := [d] + old(devs)[p].children)
      ensures forall x :: x in old(devs) && x != p ==> devs[x] == old(devs)[x]
      ensures mounts == old(mounts) && held == old(held) && dying == old(dying)
    {
      ghost var s := View();
      assert Placed(s, p);
      d := next;
      devs := devs[d := Cdev(Fit(name), 1, true, 0, true, p, [], None)];
      devs := devs[p := devs[p].(children := [d] + devs[p].children)];
      next := next + 1;
      slot := DevfsCreate(d);
      assert View().devs == DevTable.MakeAlias(s, p, name, slot).devs;
      DevTableSafety.StepKeepsInv(s, Alias(p, name, slot));
      assert View() == DevTable.MakeAlias(s, p, name, slot);
      MakesAlias(s, p, name, slot);
    }

    /** dev_ref_cdevsw: a reference is taken only on a live device. */
    method RefCdevsw(d: Dev) returns (live: bool)
      requires d in devs
      modifies this
      ensures live == old(devs)[d].live
      ensures View() == if live then Adjust(old(View()), d, 1) else old(View())
    {
      live := devs[d].live;
      if live { devs := devs[d := devs[d].(refs := devs[d].refs + 1)]; }
    }

    /** dev_rel. */
    method Rel(d: Dev)
      requires d in devs && devs[d].inode < inot.Length
      modifies this, inot
      ensures View() == DevRel(old(View()), d)
    {
      devs := devs[d := devs[d].(refs := devs[d].refs - 1)];
      if devs[d].refs == 0 {
        var i := devs[d].inode;
        if i != 0 { inot[i] := None; }
        devs := devs - {d};
      }
    }

    /** One pass through the loop of devfs_populate. */
    method PopulateAt(m: Mnt, i: nat)
      requires m in mounts && i < inot.Length && i < |mounts[m].dirent| && mounts[m].scan == Some(i)
      requires inot[i].Some? ==> inot[i].value in devs && devs[inot[i].value].inode == i && devs[inot[i].value].refs > 0
      modifies this, inot
      ensures View() == PopulateSlot(old(View()), m, i)
    {
      ghost var s := View();
      var slot := inot[i];
      if slot.Some? {
        var d := slot.value;
        var live := RefCdevsw(d);
        var entry := mounts[m].dirent[i];
        if !live {
          if entry.Some? {
            mounts := mounts[m := mounts[m].(dirent := mounts[m].dirent[i := None])];
            Rel(d);
          }
        } else if entry.Some? {
          Rel(d);
          assert devs == s.devs;
        } else {
          mounts := mounts[m := mounts[m].(dirent := mounts[m].dirent[i := Some(d)])];
        }
      }
      mounts := mounts[m := mounts[m].(scan := Some(i + 1))];
    }

    /** The loop of devfs_populate over all slots. */
    method PopulateAll(m: Mnt)
      requires Inv(View()) && m in mounts && mounts[m].scan == Some(0)
      modifies this, inot
      ensures Inv(View()) && Undisturbed(old(View()), View(), m)
      ensures mounts[m].scan == Some(inot.Length) && mounts[m].gen == old(mounts[m].gen)
    {
      ghost var s := View();
      var i := 0;
      while i != inot.Length
        invariant 0 <= i <= inot.Length && Inv(View()) && Undisturbed(s, View(), m)
        invariant mounts[m].scan == Some(i) && mounts[m].gen == old(mounts[m].gen)
      {
        ghost var u := View();
        SlotReady(u, m, i);
        PopulateAt(m, i);
        SlotDone(s, u, m, i);
        i := i + 1;
      }
    }

    /** devfs_populate with nobody else at work. */
    method Populate(m: Mnt)
      requires Inv(View()) && m in mounts && mounts[m].scan.None?
      modifies this, inot
      ensures Inv(View()) && InSync(View(), m) && Undisturbed(old(View()), View(), m)
    {
      ghost var s := View();
      PopulateBegins(s, m);
      if mounts[m].gen == gen { return; }
      mounts := mounts[m := mounts[m].(gen := gen, scan := Some(0))];
      PopulateAll(m);
      PopulateEnds(View(), m);
      mounts := mounts[m := mounts[m].(scan := None)];
    }

    /** destroy_devl, lines 356-366. */
    method KillDev(t: Tid, d: Dev)
      requires d in devs
      modifies this
      ensures View() == Kill(old(View()), t, d)
    {
      gen := gen + 1;
      var c := devs[d];
      if c.alias && c.parent in devs {
        devs := devs[c.parent := devs[c.parent].(children := Without(devs[c.parent].children, {d}))];
      }
      var stack := if t in dying then dying[t] else [];
      devs := devs[d := devs[d].(live := false, alias := false, frame := Some(Frame(t, |stack|)))];
      dying := dying[t := stack + [d]];
    }

    /** destroy_devl, lines 372-374. */
    method ReleaseDev(t: Tid, d: Dev)
      requires d in devs && devs[d].inode < inot.Length && t in dying && dying[t] != [] && dying[t][|dying[t]| - 1] == d
      modifies this, inot
      ensures View() == DevRel(Pop(old(View()), t), d)
    {
      dying := dying[t := dying[t][..|dying[t]| - 1]];
      devs := devs[d := devs[d].(frame := None)];
      Rel(d);
    }

    /** destroy_devl with nobody else at work: kill the device, then its children one by one,
      then drop the creation reference. */
    method DestroyDevl(t: Tid, d: Dev)
      requires Inv(View()) && d in devs && devs[d].live
      modifies this, inot
      ensures Inv(View()) && Destroyed(old(View()), View(), d)
      decreases Living(View())
    {
      ghost var s := View();
      KillBegins(s, t, d);
      KillDev(t, d);
      while devs[d].children != []
        invariant Inv(View()) && Destroying(s, View(), t, d) && Living(View()) < Living(s)
        decreases Living(View())
      {
        ghost var u := View();
        ChildReady(u, d);
        DestroyDevl(t, devs[d].children[0]);
        ChildDone(s, u, View(), t, d);
      }
      DestroyEnds(s, View(), t, d);
      ReleaseDev(t, d);
    }
  }

  lemma {:induction false} NewIsNew(s: State)
    requires Inv(s)
    ensures s.next !in s.devs
  {
    forall d | d in s.devs ensures d != s.next { assert Placed(s, d); }
  }

  /** What the two functions do to the table of devices. */
  lemma {:induction false} MakesOne(s: State, name: string, slot: Option<nat>)
    requires Inv(s) && ValidSlot(s.inot, slot)
    ensures var u, d := DevTable.MakeDev(s, name, slot), s.next;
      && d !in s.devs && u.devs.Keys == s.devs.Keys + {d} && u.devs[d].name == Fit(name) && u.devs[d].live
      && u.devs[d].refs == 1 && !u.devs[d].alias && u.devs[d].children == []
      && forall x :: x in s.devs ==> u.devs[x] == s.devs[x]
  {
    NewIsNew(s);
  }

  lemma {:induction false} MakesAlias(s: State, p: Dev, name: string, slot: Option<nat>)
    requires Inv(s) && ValidSlot(s.inot, slot) && p in s.devs
    ensures var u, d := DevTable.MakeAlias(s, p, name, slot), s.next;
      && d !in s.devs && u.devs.Keys == s.devs.Keys + {d} && u.devs[d].name == Fit(name) && u.devs[d].live
      && u.devs[d].refs == 1 && u.devs[d].alias && u.devs[d].parent == p && u.devs[d].children == []
      && u.devs[p] == s.devs[p].(children := [d] + s.devs[p].children)
      && forall x :: x in s.devs && x != p ==> u.devs[x] == s.devs[x]
  {
    NewIsNew(s);
  }

  // ---------------------------------------------------------------- populate

  /** Only mount m and reference counts differ, and no live device is gone. */
  ghost predicate Undisturbed(s: State, r: State, m: Mnt) {
    && r.gen == s.gen && |r.inot| == |s.inot| && r.mounts.Keys == s.mounts.Keys && m in s.mounts
    && (forall k :: k in s.mounts && k != m ==> r.mounts[k] == s.mounts[k])
    && (forall d :: d in s.devs && s.devs[d].live ==> d in r.devs && r.devs[d] == s.devs[d].(refs := r.devs[d].refs))
  }

  lemma {:induction false} UndisturbedThen(s: State, u: State, r: State, m: Mnt)
    requires Undisturbed(s, u, m) && Undisturbed(u, r, m)
    ensures Undisturbed(s, r, m)
  {}

  /** Mount m shows exactly the live devices of the table. */
  ghost predicate InSync(s: State, m: Mnt) {
    && m in s.mounts && s.mounts[m].scan.None? && s.mounts[m].gen == s.gen && |s.mounts[m].dirent| == |s.inot|
    && forall i :: 0 <= i < |s.inot| ==> (s.mounts[m].dirent[i].Some? <==> LiveSlot(s, i))
  }

  lemma {:induction false} PopulateBegins(s: State, m: Mnt)
    requires Inv(s) && m in s.mounts && s.mounts[m].scan.None?
    ensures if s.mounts[m].gen == s.gen then InSync(s, m)
            else Inv(s.(mounts := s.mounts[m := s.mounts[m].(gen := s.gen, scan := Some(0))]))
  {
    assert MountOk(s, m);
    DevTableSafety.StepKeepsInv(s, PopBegin(m));
  }

  lemma {:induction false} PopulateEnds(s: State, m: Mnt)
    requires Inv(s) && m in s.mounts && s.mounts[m].scan == Some(|s.inot|) && s.mounts[m].gen == s.gen
    ensures var r := s.(mounts := s.mounts[m := s.mounts[m].(scan := None)]); Inv(r) && InSync(r, m)
  {
    DevTableSafety.StepKeepsInv(s, PopEnd(m));
    assert MountOk(Apply(s, PopEnd(m)), m);
  }

  lemma {:induction false} SlotReady(u: State, m: Mnt, i: nat)
    requires Inv(u) && m in u.mounts && u.mounts[m].scan == Some(i) && i < |u.inot|
    ensures Enabled(u, PopSlot(m)) && Inv(PopulateSlot(u, m, i))
    ensures u.inot[i].Some? ==> u.devs[u.inot[i].value].refs > 0
  {
    assert MountOk(u, m) && SlotOk(u, i);
    if u.inot[i].Some? { assert Counted(u, u.inot[i].value, None); }
    DevTableSafety.StepKeepsInv(u, PopSlot(m));
  }

  /** Work on one slot leaves live devices alone, up to their reference counts. */
  lemma {:induction false} SlotDone(s: State, u: State, m: Mnt, i: nat)
    requires Undisturbed(s, u, m) && Enabled(u, PopSlot(m)) && u.mounts[m].scan == Some(i)
    ensures var r := PopulateSlot(u, m, i);
      Undisturbed(s, r, m) && r.mounts[m].gen == u.mounts[m].gen && r.mounts[m].scan == Some(i + 1)
  {
    var r := PopulateSlot(u, m, i);
    assert forall d :: d in u.devs && u.devs[d].live ==> d in r.devs && r.devs[d] == u.devs[d].(refs := r.devs[d].refs);
  }

  // ---------------------------------------------------------------- destroy

  /** x is root or an alias below it. */
  predicate Below(s: State, root: Dev, x: Dev)
    decreases x
  {
    x == root ||
    (x in s.devs && s.devs[x].alias && s.devs[x].parent < x && Below(s, root, s.devs[x].parent))
  }

  /** x is dead and lost exactly one reference; it is freed if that was the last. */
  ghost predicate Gone(s: State, r: State, x: Dev)
    requires x in s.devs
  {
    if s.devs[x].refs == 1 then x !in r.devs
    else
      && x in r.devs && r.devs[x].refs == s.devs[x].refs - 1 && r.devs[x].inode == s.devs[x].inode
      && !r.devs[x].live && !r.devs[x].alias && r.devs[x].frame.None? && r.devs[x].children == []
  }

  /** x is as it was, except that a parent has lost root from its children list. */
  ghost predicate Spared(s: State, r: State, root: Dev, x: Dev)
    requires x in s.devs
  {
    x in r.devs &&
    r.devs[x] == s.devs[x].(children :=
      if root in s.devs && s.devs[root].alias && s.devs[root].parent == x then Without(s.devs[x].children, {root})
      else s.devs[x].children)
  }

  ghost predicate SameRest(s: State, r: State) {
    r.mounts == s.mounts && r.held == s.held && r.next == s.next && r.devs.Keys <= s.devs.Keys && |r.inot| == |s.inot|
  }

  /** What destroy_devl(root) does: root and every alias below it is gone, all else is spared. */
  ghost predicate Destroyed(s: State, r: State, root: Dev) {
    && SameRest(s, r) && s.gen < r.gen
    && (forall u :: Stack(r, u) == Stack(s, u))
    && (forall x {:trigger Below(s, root, x)} :: x in s.devs ==>
         if Below(s, root, x) then Gone(s, r, x) else Spared(s, r, root, x))
  }

  /** Half way through: each alias below root is either gone or not yet touched. */
  ghost predicate Destroying(s: State, r: State, t: Tid, root: Dev) {
    && SameRest(s, r) && s.gen < r.gen
    && (forall u :: Stack(r, u) == if u == t then Stack(s, t) + [root] else Stack(s, u))
    && t in r.dying && root in s.devs && root in r.devs
    && r.devs[root] == s.devs[root].(live := false, alias := false, frame := Some(Frame(t, |Stack(s, t)|)),
                                     children := r.devs[root].children)
    && (forall x {:trigger Below(s, root, x)} :: x in s.devs && x != root ==>
          if Below(s, root, x) then Gone(s, r, x) || (x in r.devs && r.devs[x] == s.devs[x])
          else Spared(s, r, root, x))
  }

  lemma {:induction false} KillBegins(s: State, t: Tid, d: Dev)
    requires Inv(s) && d in s.devs && s.devs[d].live
    ensures Inv(Kill(s, t, d)) && Destroying(s, Kill(s, t, d), t, d) && Living(Kill(s, t, d)) < Living(s)
  {
    DevTableSafety.KillKeepsInv(s, t, d);
    var r := Kill(s, t, d);
    assert Related(s, d);
    assert d in Living(s) && d !in Living(r);
    forall x | x in s.devs && x != d
      ensures if Below(s, d, x) then r.devs[x] == s.devs[x] else Spared(s, r, d, x)
    {
      if s.devs[d].alias && s.devs[d].parent == x && Below(s, d, x) { BelowIsLater(s, d, x); }
    }
  }

  lemma {:induction false} BelowIsLater(s: State, root: Dev, x: Dev)
    requires Below(s, root, x)
    ensures root <= x
    decreases x
  {
    if x != root { BelowIsLater(s, root, s.devs[x].parent); }
  }

  lemma {:induction false} ChildReady(u: State, d: Dev)
    requires Inv(u) && d in u.devs && u.devs[d].children != []
    ensures var c := u.devs[d].children[0];
      c in u.devs && u.devs[c].live && u.devs[c].alias && u.devs[c].parent == d && d < c
  {
    assert Related(u, d);
    assert Related(u, u.devs[d].children[0]);
  }

  /** Links that are still there after part of the work were there before. */
  lemma {:induction false} BelowEarlier(s: State, u: State, t: Tid, d: Dev, c: Dev, x: Dev)
    requires Destroying(s, u, t, d) && Below(u, c, x) && c in s.devs && c in u.devs && u.devs[c].alias
    requires u.devs[c].parent == d && d < c
    ensures Below(s, d, x) && x != d
    decreases x
  {
    BelowIsLater(u, c, x);
    if x == c {
      assert s.devs[c].alias && s.devs[c].parent == d by { assert Below(s, d, c) || !Below(s, d, c); }
    } else {
      assert x in s.devs;
      assert s.devs[x].alias && s.devs[x].parent == u.devs[x].parent by { assert Below(s, d, x) || !Below(s, d, x); }
      BelowEarlier(s, u, t, d, c, u.devs[x].parent);
    }
  }

  lemma {:induction false} ChildDone(s: State, u: State, r: State, t: Tid, d: Dev)
    requires Inv(u) && Destroying(s, u, t, d) && u.devs[d].children != [] && t in r.dying
    requires Destroyed(u, r, u.devs[d].children[0])
    ensures Destroying(s, r, t, d) && Living(r) < Living(u)
  {
    var c := u.devs[d].children[0];
    ChildReady(u, d);
    assert !Below(u, c, d) by { if Below(u, c, d) { BelowIsLater(u, c, d); } }
    assert Spared(u, r, c, d);
    assert Below(u, c, c) && Gone(u, r, c);
    forall x | x in s.devs && x != d
      ensures if Below(s, d, x) then Gone(s, r, x) || (x in r.devs && r.devs[x] == s.devs[x]) else Spared(s, r, d, x)
    {
      if x in u.devs && Below(u, c, x) {
        BelowEarlier(s, u, t, d, c, x);
        assert u.devs[x] == s.devs[x] by { OnlyAliasesBelow(u, c, x); }
      }
    }
    LivingShrinks(u, r, c);
  }

  lemma {:induction false} OnlyAliasesBelow(u: State, c: Dev, x: Dev)
    requires c in u.devs && u.devs[c].alias && Below(u, c, x)
    ensures x in u.devs && u.devs[x].alias
  {}

  lemma {:induction false} LivingShrinks(u: State, r: State, c: Dev)
    requires Destroyed(u, r, c) && c in u.devs && u.devs[c].live
    ensures Living(r) < Living(u)
  {
    assert Below(u, c, c) && Gone(u, r, c);
    forall x | x in Living(r) ensures x in Living(u) {
      assert Below(u, c, x) || Spared(u, r, c, x);
    }
    assert c in Living(u) && c !in Living(r);
  }

  /** With the children list of root empty, no alias below it is left. */
  lemma {:induction false} NoneLeft(s: State, e: State, t: Tid, d: Dev, x: Dev)
    requires Inv(s) && Inv(e) && Destroying(s, e, t, d) && e.devs[d].children == []
    requires x in s.devs && x != d && Below(s, d, x)
    ensures Gone(s, e, x)
    decreases x
  {
    if !Gone(s, e, x) {
      assert e.devs[x] == s.devs[x];
      var p := s.devs[x].parent;
      assert Related(e, x) && Related(s, x) && Related(e, p);
      if p != d {
        NoneLeft(s, e, t, d, p);
      }
      assert false;
    }
  }

  /** The creation reference of d itself is dropped last. */
  /** An alias made of p is freed with it when p is destroyed. */
  lemma {:induction false} AliasGoesToo(s: State, p: Dev, name: string, slot: Option<nat>, r: State)
    requires Inv(s) && Enabled(s, Alias(p, name, slot)) && Destroyed(MakeAlias(s, p, name, slot), r, p)
    ensures s.next in MakeAlias(s, p, name, slot).devs && s.next !in r.devs
  {
    var u := MakeAlias(s, p, name, slot);
    assert Placed(s, p);
    assert Below(u, p, s.next) by { assert Below(u, p, p); }
    assert Gone(u, r, s.next);
  }

  lemma {:induction false} LastDrop(e: State, t: Tid)
    requires Stack(e, t) != [] && Top(e, t) in e.devs && e.devs[Top(e, t)].inode < |e.inot|
    ensures var d := Top(e, t); var r := DevRel(Pop(e, t), d);
      && r.mounts == e.mounts && r.held == e.held && r.next == e.next && r.gen == e.gen && |r.inot| == |e.inot|
      && r.devs.Keys <= e.devs.Keys && r.dying == e.dying[t := Stack(e, t)[..|Stack(e, t)| - 1]]
      && (forall x :: x in e.devs && x != d ==> x in r.devs && r.devs[x] == e.devs[x])
      && (if e.devs[d].refs == 1 then d !in r.devs
          else d in r.devs && r.devs[d] == e.devs[d].(frame := None, refs := e.devs[d].refs - 1))
  {}

  lemma {:induction false} DestroyEnds(s: State, e: State, t: Tid, d: Dev)
    requires Inv(s) && Inv(e) && Destroying(s, e, t, d) && e.devs[d].children == []
    ensures Stack(e, t) != [] && Top(e, t) == d && e.devs[d].inode < |e.inot|
    ensures var r := DevRel(Pop(e, t), d); Inv(r) && Destroyed(s, r, d)
  {
    assert Placed(e, d);
    assert Enabled(e, DestroyEnd(t)) && Top(e, t) == d;
    DevTableSafety.StepKeepsInv(e, DestroyEnd(t));
    var r := DevRel(Pop(e, t), d);
    LastDrop(e, t);
    forall u ensures Stack(r, u) == Stack(s, u) {
      assert Stack(e, u) == if u == t then Stack(s, t) + [d] else Stack(s, u);
    }
    forall x {:trigger Below(s, d, x)} | x in s.devs
      ensures if Below(s, d, x) then Gone(s, r, x) else Spared(s, r, d, x) {
      if x != d && Below(s, d, x) { NoneLeft(s, e, t, d, x); }
    }
  }
}
