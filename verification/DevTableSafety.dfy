/** The device table over every run: reference counts are exact, entries never go stale, and
  the generation check of devfs_populate never hides a change. */
module DevTableSafety {
  import opened Basics
  import opened DevTable

  // ---------------------------------------------------------------- dev_rel

  lemma {:induction false} LastReference(s: State, d: Dev)
    requires d in s.devs && Counted(s, d, Some(d)) && Related(s, d) && s.devs[d].refs == 1
    ensures !Created(s.devs[d]) && Entries(s, d) == {} && d !in s.held && s.devs[d].children == []
  {}

  lemma {:induction false} RelKeepsCount(s: State, d: Dev, x: Dev)
    requires d in s.devs && s.devs[d].inode < |s.inot| && x in s.devs && x in DevRel(s, d).devs
    requires Counted(s, x, Some(d))
    ensures Counted(DevRel(s, d), x, None)
  {
    assert Entries(DevRel(s, d), x) == Entries(s, x);
  }

  /** The other devices do not notice that d is freed. */
  lemma {:induction false} FreeKeepsDev(s: State, d: Dev, x: Dev)
    requires d in s.devs && x in s.devs && x != d && s.devs[d].refs == 1 && Placed(s, d) && |s.inot| > 3
    requires Placed(s, x) && Framed(s, x) && Related(s, x) && s.devs[d].children == []
    requires s.devs[x].alias ==> Related(s, s.devs[x].parent)
    requires forall c :: c in s.devs[x].children ==> c != d
    ensures var r := DevRel(s, d); x in r.devs && Placed(r, x) && Framed(r, x) && Related(r, x)
  {
  }

  lemma {:induction false} RelKeepsDev(s: State, d: Dev, x: Dev)
    requires Shape(s) && Counts(s, Some(d)) && d in s.devs && Placed(s, d) && x in DevRel(s, d).devs
    ensures var r := DevRel(s, d);
      Placed(r, x) && Framed(r, x) && Related(r, x) && Counted(r, x, None)
  {
    assert Placed(s, x) && Framed(s, x) && Related(s, x) && Counted(s, x, Some(d));
    RelKeepsCount(s, d, x);
    if s.devs[d].refs == 1 {
      assert Related(s, d) && Counted(s, d, Some(d));
      LastReference(s, d);
      if s.devs[x].alias { assert Related(s, s.devs[x].parent); }
      FreeKeepsDev(s, d, x);
    } else {
      DropKeepsDev(s, d, x);
    }
  }

  lemma {:induction false} DropKeepsDev(s: State, d: Dev, x: Dev)
    requires d in s.devs && x in s.devs && s.devs[d].refs != 1 && Placed(s, d) && |s.inot| > 3
    requires Placed(s, x) && Framed(s, x) && Related(s, x)
    ensures var r := DevRel(s, d); x in r.devs && Placed(r, x) && Framed(r, x) && Related(r, x)
  {
  }

  lemma {:induction false} RelKeepsSlot(s: State, d: Dev, i: nat)
    requires d in s.devs && Placed(s, d) && SlotOk(s, i) && |s.inot| > 3
    ensures SlotOk(DevRel(s, d), i)
  {}

  lemma {:induction false} RelKeepsStack(s: State, d: Dev, t: Tid)
    requires d in s.devs && Placed(s, d) && Related(s, d) && Counted(s, d, Some(d)) && StackOk(s, t) && |s.inot| > 3
    ensures StackOk(DevRel(s, d), t)
  {
    var r := DevRel(s, d);
    if s.devs[d].refs == 1 { LastReference(s, d); }
    assert Stack(r, t) == Stack(s, t);
    forall k | 0 <= k < |Stack(r, t)|
      ensures Stack(r, t)[k] in r.devs && r.devs[Stack(r, t)[k]].frame == Some(Frame(t, k))
    {
      assert s.devs[Stack(s, t)[k]].frame == Some(Frame(t, k));
    }
  }

  lemma {:induction false} RelKeepsMount(s: State, d: Dev, m: Mnt)
    requires Shape(s) && Counts(s, Some(d)) && d in s.devs && Placed(s, d) && m in s.mounts
    ensures MountOk(DevRel(s, d), m)
  {
    var r := DevRel(s, d);
    var k := s.devs[d].inode;
    assert MountOk(s, m) && Placed(s, d) && Related(s, d) && Counted(s, d, Some(d));
    if s.devs[d].refs == 1 {
      LastReference(s, d);
      assert m !in Entries(s, d);
      assert SlotOk(s, 0) && SlotOk(s, k);
      assert k != 0 ==> s.mounts[m].dirent[k].None?;
    }
    forall i | 0 <= i < |s.inot| ensures LiveSlot(r, i) == LiveSlot(s, i) { assert SlotOk(s, i); }
  }

  /** Dropping a reference that nothing accounts for any more. */
  lemma {:induction false} RelKeepsInv(s: State, d: Dev)
    requires Shape(s) && Counts(s, Some(d)) && d in s.devs && Placed(s, d)
    ensures Inv(DevRel(s, d))
  {
    var r := DevRel(s, d);
    assert Placed(s, d) && Related(s, d) && Counted(s, d, Some(d));
    forall i ensures SlotOk(r, i) { assert SlotOk(s, i); RelKeepsSlot(s, d, i); }
    forall t ensures StackOk(r, t) { assert StackOk(s, t); RelKeepsStack(s, d, t); }
    forall m | m in r.mounts ensures MountOk(r, m) { RelKeepsMount(s, d, m); }
    forall x | x in r.devs ensures Placed(r, x) && Framed(r, x) && Related(r, x) && Counted(r, x, None) {
      RelKeepsDev(s, d, x);
    }
    if s.devs[d].refs == 1 {
      assert Counted(s, d, Some(d)) && Related(s, d);
      LastReference(s, d);
    }
  }

  // ---------------------------------------------------------------- changes that keep the shape

  /** Reference counts and the references in flight do not matter to the shape. */
  lemma {:induction false} CountsDoNotShape(s: State, r: State)
    requires Shape(s) && r == s.(held := r.held, devs := r.devs) && r.devs.Keys == s.devs.Keys
    requires forall d :: d in s.devs ==> r.devs[d] == s.devs[d].(refs := r.devs[d].refs)
    requires forall d :: d in r.held ==> d in r.devs
    ensures Shape(r)
  {
    forall i ensures SlotOk(r, i) { assert SlotOk(s, i); }
    forall t ensures StackOk(r, t) { assert StackOk(s, t); assert Stack(r, t) == Stack(s, t); }
    forall m | m in r.mounts ensures MountOk(r, m) {
      assert MountOk(s, m);
      forall i | 0 <= i < |s.inot| ensures LiveSlot(r, i) == LiveSlot(s, i) {}
    }
    forall d | d in r.devs ensures Placed(r, d) && Framed(r, d) && Related(r, d) {
      assert Placed(s, d) && Framed(s, d) && Related(s, d);
      if r.devs[d].frame.Some? { assert Stack(r, r.devs[d].frame.value.t) == Stack(s, r.devs[d].frame.value.t); }
    }
  }

  lemma {:induction false} OpEndKeepsInv(s: State, d: Dev)
    requires Inv(s) && Enabled(s, OpEnd(d))
    ensures Inv(Apply(s, OpEnd(d)))
  {
    var u := s.(held := s.held - multiset{d});
    CountsDoNotShape(s, u);
    forall x | x in u.devs ensures Counted(u, x, Some(d)) { OpEndCounted(s, d, x); }
    RelKeepsInv(u, d);
  }

  lemma {:induction false} OpEndCounted(s: State, d: Dev, x: Dev)
    requires Counts(s, None) && d in s.held && x in s.devs
    ensures Counted(s.(held := s.held - multiset{d}), x, Some(d))
  {
    assert Counted(s, x, None);
    assert Entries(s.(held := s.held - multiset{d}), x) == Entries(s, x);
  }

  lemma {:induction false} OpKeepsInv(s: State, step: Step)
    requires Inv(s) && Enabled(s, step) && (step.OpBegin? || step.OpEnd?)
    ensures Inv(Apply(s, step))
  {
    var d := step.d;
    match step
    case OpEnd(_) => OpEndKeepsInv(s, d);
    case OpBegin(_) =>
      if s.devs[d].live {
        var r := Apply(s, step);
        CountsDoNotShape(s, r);
        forall x | x in r.devs ensures Counted(r, x, None) {
          assert Counted(s, x, None);
          assert Entries(r, x) == Entries(s, x);
        }
      }
  }

  // ---------------------------------------------------------------- creation

  lemma {:induction false} NextIsNew(s: State)
    requires Shape(s)
    ensures s.next !in s.devs
  {
    forall d | d in s.devs ensures d < s.next { assert Placed(s, d); }
  }

  /** devfs_create keeps every fact about the other devices. */
  lemma {:induction false} EnterKeepsInv(s: State, c: Cdev, slot: Option<nat>)
    requires Inv(s) && ValidSlot(s.inot, slot)
    requires c.refs == 1 && c.live && c.children == [] && c.frame.None?
    requires !c.alias
    ensures Inv(Enter(s, s.next, c, slot).(next := s.next + 1))
  {
    var d := s.next;
    var r := Enter(s, d, c, slot).(next := s.next + 1);
    NextIsNew(s);
    assert s.held[d] == 0;
    forall i ensures SlotOk(r, i) { assert SlotOk(s, i); }
    forall t ensures StackOk(r, t) { assert StackOk(s, t); assert Stack(r, t) == Stack(s, t); }
    forall m | m in r.mounts ensures MountOk(r, m) {
      assert MountOk(s, m);
      forall i | 0 <= i < |s.inot| && r.gen == s.gen ensures LiveSlot(r, i) == LiveSlot(s, i) { assert SlotOk(s, i); }
    }
    forall x | x in r.devs ensures Placed(r, x) && Framed(r, x) && Related(r, x) && Counted(r, x, None) {
      if x in s.devs {
        assert Placed(s, x) && Framed(s, x) && Related(s, x) && Counted(s, x, None);
        assert Entries(r, x) == Entries(s, x);
        if r.devs[x].frame.Some? { assert Stack(r, r.devs[x].frame.value.t) == Stack(s, r.devs[x].frame.value.t); }
      } else {
        assert Entries(r, d) == {} by {
          forall m | m in s.mounts ensures m !in Entries(r, d) {
            assert MountOk(s, m);
            assert SlotOk(s, 0);
          }
        }
      }
    }
  }

  /** A new device becomes an alias of p: only the two children/parent links change. */
  lemma {:induction false} AdoptKeepsInv(s: State, d: Dev, p: Dev)
    requires Inv(s) && d in s.devs && p in s.devs && p < d && s.devs[p].live && s.devs[d].live && !s.devs[d].alias
    ensures var adopted := s.devs[d := s.devs[d].(alias := true, parent := p)];
      Inv(s.(devs := adopted[p := adopted[p].(children := [d] + adopted[p].children)]))
  {
    var adopted := s.devs[d := s.devs[d].(alias := true, parent := p)];
    var r := s.(devs := adopted[p := adopted[p].(children := [d] + adopted[p].children)]);
    forall i ensures SlotOk(r, i) { assert SlotOk(s, i); }
    forall t ensures StackOk(r, t) { assert StackOk(s, t); assert Stack(r, t) == Stack(s, t); }
    forall m | m in r.mounts ensures MountOk(r, m) {
      assert MountOk(s, m);
      forall i | 0 <= i < |s.inot| ensures LiveSlot(r, i) == LiveSlot(s, i) {}
    }
    forall x | x in r.devs ensures Placed(r, x) && Framed(r, x) && Related(r, x) && Counted(r, x, None) {
      assert Placed(s, x) && Framed(s, x) && Related(s, x) && Counted(s, x, None);
      assert Entries(r, x) == Entries(s, x);
      if r.devs[x].frame.Some? { assert Stack(r, r.devs[x].frame.value.t) == Stack(s, r.devs[x].frame.value.t); }
    }
  }

  lemma {:induction false} MakeKeepsInv(s: State, step: Step)
    requires Inv(s) && Enabled(s, step) && (step.Make? || step.Alias?)
    ensures Inv(Apply(s, step))
  {
    match step
    case Make(name, slot) => EnterKeepsInv(s, Cdev(Fit(name), 1, true, 0, false, 0, [], None), slot);
    case Alias(p, name, slot) => AliasKeepsInv(s, p, name, slot);
  }

  lemma {:induction false} AliasKeepsInv(s: State, p: Dev, name: string, slot: Option<nat>)
    requires Inv(s) && Enabled(s, Alias(p, name, slot))
    ensures Inv(MakeAlias(s, p, name, slot))
  {
    var c := Cdev(Fit(name), 1, true, 0, false, p, [], None);
    EnterKeepsInv(s, c, slot);
    var e := Enter(s, s.next, c, slot).(next := s.next + 1);
    assert Placed(s, p);
    AdoptKeepsInv(e, s.next, p);
    assert MakeAlias(s, p, name, slot).devs == e.devs[s.next := e.devs[s.next].(alias := true, parent := p)][p :=
      e.devs[p].(children := [s.next] + e.devs[p].children)];
  }

  // ---------------------------------------------------------------- destruction

  lemma {:induction false} KillKeepsDev(s: State, t: Tid, d: Dev, x: Dev)
    requires Inv(s) && d in s.devs && s.devs[d].live && x in s.devs
    ensures var r := Kill(s, t, d);
      x in r.devs && Placed(r, x) && Framed(r, x) && Related(r, x) && Counted(r, x, None)
  {
    var r := Kill(s, t, d);
    assert Placed(s, x) && Framed(s, x) && Related(s, x) && Counted(s, x, None);
    assert Placed(s, d) && Framed(s, d) && Related(s, d) && Counted(s, d, None);
    assert Entries(r, x) == Entries(s, x);
    if s.devs[x].frame.Some? {
      var f := s.devs[x].frame.value;
      assert Stack(r, f.t)[f.k] == Stack(s, f.t)[f.k];
    }
    if s.devs[x].alias { assert Related(s, s.devs[x].parent); }
  }

  lemma {:induction false} KillKeepsInv(s: State, t: Tid, d: Dev)
    requires Inv(s) && d in s.devs && s.devs[d].live
    ensures Inv(Kill(s, t, d))
  {
    var r := Kill(s, t, d);
    assert Related(s, d) && Framed(s, d);
    assert r.devs.Keys == s.devs.Keys;
    forall i ensures SlotOk(r, i) { assert SlotOk(s, i); }
    forall u ensures StackOk(r, u) {
      assert StackOk(s, u);
      forall k | 0 <= k < |Stack(r, u)|
        ensures Stack(r, u)[k] in r.devs && r.devs[Stack(r, u)[k]].frame == Some(Frame(u, k))
      {
        if k < |Stack(s, u)| { assert Stack(r, u)[k] == Stack(s, u)[k]; }
      }
    }
    forall m | m in r.mounts ensures MountOk(r, m) { assert MountOk(s, m); }
    forall x | x in r.devs ensures Placed(r, x) && Framed(r, x) && Related(r, x) && Counted(r, x, None) {
      KillKeepsDev(s, t, d, x);
    }
  }

  /** The activation on top has emptied its children list and returns. */
  lemma {:induction false} PopKeepsShape(s: State, t: Tid)
    requires Inv(s) && Stack(s, t) != [] && Top(s, t) in s.devs && s.devs[Top(s, t)].children == []
    ensures Shape(Pop(s, t)) && Counts(Pop(s, t), Some(Top(s, t)))
  {
    var d := Top(s, t);
    var r := Pop(s, t);
    assert StackOk(s, t);
    forall i ensures SlotOk(r, i) { assert SlotOk(s, i); }
    forall u ensures StackOk(r, u) {
      assert StackOk(s, u);
      assert u != t ==> Stack(r, u) == Stack(s, u);
    }
    forall m | m in r.mounts ensures MountOk(r, m) {
      assert MountOk(s, m);
      forall i | 0 <= i < |s.inot| ensures LiveSlot(r, i) == LiveSlot(s, i) {}
    }
    forall x | x in r.devs ensures Placed(r, x) && Framed(r, x) && Related(r, x) && Counted(r, x, Some(d)) {
      assert Placed(s, x) && Framed(s, x) && Related(s, x) && Counted(s, x, None);
      assert Entries(r, x) == Entries(s, x);
      if x != d && s.devs[x].frame.Some? {
        var f := s.devs[x].frame.value;
        assert Stack(r, f.t)[f.k] == x;
      }
    }
  }

  lemma {:induction false} DestroyKeepsInv(s: State, step: Step)
    requires Inv(s) && Enabled(s, step) && (step.DestroyBegin? || step.DestroyChild? || step.DestroyEnd?)
    ensures Inv(Apply(s, step))
  {
    match step
    case DestroyBegin(t, d) => KillKeepsInv(s, t, d);
    case DestroyChild(t) =>
      var p := Top(s, t);
      assert Related(s, p);
      var c := s.devs[p].children[0];
      assert Related(s, c);
      KillKeepsInv(s, t, c);
    case DestroyEnd(t) =>
      PopKeepsShape(s, t);
      assert Placed(Pop(s, t), Top(s, t));
      RelKeepsInv(Pop(s, t), Top(s, t));
  }

  // ---------------------------------------------------------------- mounts

  /** A mount changes without touching any of its entries. */
  lemma {:induction false} RemountKeepsInv(s: State, m: Mnt, mt: Mount)
    requires Inv(s)
    requires if m in s.mounts then mt.dirent == s.mounts[m].dirent else mt.dirent == seq(|s.inot|, _ => None)
    requires MountOk(s.(mounts := s.mounts[m := mt]), m)
    ensures Inv(s.(mounts := s.mounts[m := mt]))
  {
    var r := s.(mounts := s.mounts[m := mt]);
    forall i ensures SlotOk(r, i) { assert SlotOk(s, i); }
    forall t ensures StackOk(r, t) { assert StackOk(s, t); assert Stack(r, t) == Stack(s, t); }
    forall n | n in r.mounts ensures MountOk(r, n) {
      if n != m { assert MountOk(s, n); }
      forall i | 0 <= i < |s.inot| ensures LiveSlot(r, i) == LiveSlot(s, i) {}
    }
    forall x | x in r.devs ensures Placed(r, x) && Framed(r, x) && Related(r, x) && Counted(r, x, None) {
      assert Placed(s, x) && Framed(s, x) && Related(s, x) && Counted(s, x, None);
      assert Entries(r, x) == Entries(s, x);
      if r.devs[x].frame.Some? { assert Stack(r, r.devs[x].frame.value.t) == Stack(s, r.devs[x].frame.value.t); }
    }
  }

  lemma {:induction false} MountKeepsInv(s: State, step: Step)
    requires Inv(s) && Enabled(s, step) && (step.NewMount? || step.PopBegin? || step.PopEnd?)
    ensures Inv(Apply(s, step))
  {
    var m := step.m;
    var r := Apply(s, step);
    match step
    case NewMount(_) =>
      assert MountOk(r, m) by {
        forall i | 0 <= i < |s.inot| && s.gen == 0 ensures !LiveSlot(r, i) { assert SlotOk(s, i); }
      }
      RemountKeepsInv(s, m, r.mounts[m]);
    case PopBegin(_) =>
      assert MountOk(s, m);
      if s.mounts[m].gen != s.gen { RemountKeepsInv(s, m, r.mounts[m]); }
    case PopEnd(_) =>
      assert MountOk(s, m);
      assert MountOk(r, m) by {
        forall i | 0 <= i < |s.inot| ensures LiveSlot(r, i) == LiveSlot(s, i) {}
      }
      RemountKeepsInv(s, m, r.mounts[m]);
  }

  /** The entry of d in mount m is made, with a reference. */
  lemma {:induction false} MakeEntryKeepsInv(s: State, m: Mnt, d: Dev)
    requires Inv(s) && m in s.mounts && d in s.devs && Placed(s, d) && s.devs[d].inode != 0 && s.devs[d].live
    requires MountOk(s, m) && s.mounts[m].scan == Some(s.devs[d].inode) && s.mounts[m].dirent[s.devs[d].inode].None?
    ensures Inv(Store(Adjust(s, d, 1), m, s.devs[d].inode, Some(d)))
  {
    var i := s.devs[d].inode;
    var r := Store(Adjust(s, d, 1), m, i, Some(d));
    StoreKeepsShape(Adjust(s, d, 1), s, m, d, Some(d));
    forall x | x in r.devs ensures Counted(r, x, None) {
      assert Counted(s, x, None);
      if x == d { AddEntry(s, r, m, d); } else { OtherEntries(s, r, m, i, x); }
    }
  }

  lemma {:induction false} AddEntry(s: State, r: State, m: Mnt, d: Dev)
    requires d in s.devs && d in r.devs && r.devs[d].inode == s.devs[d].inode && m in s.mounts
    requires r.mounts.Keys == s.mounts.Keys && forall n :: n in s.mounts && n != m ==> r.mounts[n] == s.mounts[n]
    requires s.devs[d].inode < |s.mounts[m].dirent| == |r.mounts[m].dirent|
    requires s.mounts[m].dirent[s.devs[d].inode].None? && r.mounts[m].dirent[s.devs[d].inode] == Some(d)
    ensures |Entries(r, d)| == |Entries(s, d)| + 1
  {
    assert Entries(r, d) == Entries(s, d) + {m} && m !in Entries(s, d);
  }

  /** The entry of d in mount m is deleted; its reference is left over. */
  lemma {:induction false} DropEntryKeepsShape(s: State, m: Mnt, d: Dev)
    requires Inv(s) && m in s.mounts && d in s.devs && Placed(s, d) && s.devs[d].inode != 0 && !s.devs[d].live
    requires MountOk(s, m) && s.mounts[m].scan == Some(s.devs[d].inode)
    requires s.mounts[m].dirent[s.devs[d].inode] == Some(d)
    ensures var r := Store(s, m, s.devs[d].inode, None); Shape(r) && Counts(r, Some(d))
  {
    var i := s.devs[d].inode;
    var r := Store(s, m, i, None);
    StoreKeepsShape(s, s, m, d, None);
    forall x | x in r.devs ensures Counted(r, x, Some(d)) {
      assert Counted(s, x, None);
      if x == d { AddEntry(r, s, m, d); } else { OtherEntries(s, r, m, i, x); }
    }
  }

  /** Entries of other devices live at other indices. */
  lemma {:induction false} OtherEntries(s: State, r: State, m: Mnt, i: nat, x: Dev)
    requires m in s.mounts && r.mounts.Keys == s.mounts.Keys && x in s.devs && x in r.devs
    requires r.devs[x].inode == s.devs[x].inode
    requires forall n :: n in s.mounts && n != m ==> r.mounts[n] == s.mounts[n]
    requires i < |s.mounts[m].dirent| == |r.mounts[m].dirent|
    requires forall j :: 0 <= j < |s.mounts[m].dirent| && j != i ==> r.mounts[m].dirent[j] == s.mounts[m].dirent[j]
    requires s.mounts[m].dirent[i] != Some(x) && r.mounts[m].dirent[i] != Some(x)
    ensures Entries(r, x) == Entries(s, x)
  {}

  /** `a` is s up to reference counts; the entry of d in m becomes e. */
  lemma {:induction false} StoredMount(a: State, m: Mnt, i: nat, e: Option<Dev>, n: Mnt)
    requires m in a.mounts && n in a.mounts && MountOk(a, m) && MountOk(a, n) && a.mounts[m].scan == Some(i)
    requires i < |a.inot| && a.inot[i].Some? && a.inot[i].value in a.devs
    requires e == if a.devs[a.inot[i].value].live then a.inot[i] else None
    ensures MountOk(Store(a, m, i, e), n)
  {
    forall j | 0 <= j < |a.inot| ensures LiveSlot(Store(a, m, i, e), j) == LiveSlot(a, j) {}
  }

  lemma {:induction false} StoreKeepsShape(a: State, s: State, m: Mnt, d: Dev, e: Option<Dev>)
    requires Inv(s) && m in s.mounts && d in s.devs && Placed(s, d) && s.devs[d].inode != 0
    requires a == s || a == Adjust(s, d, 1)
    requires MountOk(s, m) && s.mounts[m].scan == Some(s.devs[d].inode)
    requires e == (if s.devs[d].live then Some(d) else None)
    ensures Shape(Store(a, m, s.devs[d].inode, e))
  {
    var i := s.devs[d].inode;
    if a != s { CountsDoNotShape(s, a); }
    var r := Store(a, m, i, e);
    assert MountOk(a, m);
    forall j ensures SlotOk(r, j) { assert SlotOk(a, j); }
    forall t ensures StackOk(r, t) { assert StackOk(a, t); assert Stack(r, t) == Stack(a, t); }
    forall n | n in r.mounts ensures MountOk(r, n) {
      assert MountOk(a, n);
      StoredMount(a, m, i, e, n);
    }
    forall x | x in r.devs ensures Placed(r, x) && Framed(r, x) && Related(r, x) {
      assert Placed(a, x) && Framed(a, x) && Related(a, x);
      if r.devs[x].frame.Some? { assert Stack(r, r.devs[x].frame.value.t) == Stack(a, r.devs[x].frame.value.t); }
    }
  }

  lemma {:induction false} PopSlotKeepsInv(s: State, m: Mnt)
    requires Inv(s) && Enabled(s, PopSlot(m))
    ensures Inv(Apply(s, PopSlot(m)))
  {
    var i := s.mounts[m].scan.value;
    assert MountOk(s, m) && SlotOk(s, i);
    if s.inot[i].Some? && s.devs[s.inot[i].value].live == s.mounts[m].dirent[i].None? {
      var d := s.inot[i].value;
      assert Placed(s, d);
      if s.devs[d].live {
        MakeEntryKeepsInv(s, m, d);
      } else {
        DropEntryKeepsShape(s, m, d);
        assert Placed(Store(s, m, i, None), d);
        RelKeepsInv(Store(s, m, i, None), d);
      }
    } else {
      SkipKeepsInv(s, m, i);
    }
  }

  lemma {:induction false} SkipKeepsInv(s: State, m: Mnt, i: nat)
    requires Inv(s) && m in s.mounts && MountOk(s, m) && s.mounts[m].scan == Some(i) && i < |s.inot|
    requires s.mounts[m].dirent[i].Some? <==> LiveSlot(s, i)
    ensures Inv(Skip(s, m, i))
  {
    var r := Skip(s, m, i);
    assert MountOk(r, m) by {
      forall j | 0 <= j < |s.inot| ensures LiveSlot(r, j) == LiveSlot(s, j) {}
    }
    RemountKeepsInv(s, m, r.mounts[m]);
  }

  // ---------------------------------------------------------------- every run

  lemma {:induction false} StepKeepsInv(s: State, step: Step)
    requires Inv(s) && Enabled(s, step)
    ensures Inv(Apply(s, step))
  {
    match step
    case Make(_, _) => MakeKeepsInv(s, step);
    case Alias(_, _, _) => MakeKeepsInv(s, step);
    case OpBegin(_) => OpKeepsInv(s, step);
    case OpEnd(_) => OpKeepsInv(s, step);
    case PopSlot(m) => PopSlotKeepsInv(s, m);
    case DestroyBegin(_, _) => DestroyKeepsInv(s, step);
    case DestroyChild(_) => DestroyKeepsInv(s, step);
    case DestroyEnd(_) => DestroyKeepsInv(s, step);
    case _ => MountKeepsInv(s, step);
  }

  /** An empty table of n > 3 slots, nothing mounted. */
  predicate Init(s: State) {
    && |s.inot| > 3 && (forall i :: 0 <= i < |s.inot| ==> s.inot[i].None?)
    && s.gen == 0 && s.devs == map[] && s.mounts == map[] && s.held == multiset{} && s.dying == map[]
  }

  predicate CanExec(s: State, steps: seq<Step>)
    decreases |steps|
  {
    steps == [] || (Enabled(s, steps[0]) && CanExec(Apply(s, steps[0]), steps[1..]))
  }

  function Exec(s: State, steps: seq<Step>): State
    requires CanExec(s, steps)
    decreases |steps|
  {
    if steps == [] then s else Exec(Apply(s, steps[0]), steps[1..])
  }

  lemma {:induction false} ExecInv(s: State, steps: seq<Step>)
    requires Inv(s) && CanExec(s, steps)
    ensures Inv(Exec(s, steps))
    decreases |steps|
  {
    if steps != [] {
      StepKeepsInv(s, steps[0]);
      ExecInv(Apply(s, steps[0]), steps[1..]);
    }
  }

  /** In every run, a device that is not freed has exactly one reference for its creation
    until destroy_dev drops it, one per mount with an entry, and one per operation in flight. */
  lemma {:induction false} ReferencesAreExact(s: State, steps: seq<Step>, d: Dev)
    requires Init(s) && CanExec(s, steps) && d in Exec(s, steps).devs
    ensures var r := Exec(s, steps);
      && r.devs[d].refs == (if Created(r.devs[d]) then 1 else 0) + |Entries(r, d)| + r.held[d]
      && r.devs[d].refs > 0
  {
    ExecInv(s, steps);
    assert Counted(Exec(s, steps), d, None);
  }

  /** In every run, an entry of a mount belongs to the unfreed device that is now in its slot,
    so no slot is given to another device while any mount still shows the old one. */
  lemma {:induction false} EntriesAreNotStale(s: State, steps: seq<Step>, m: Mnt, i: nat)
    requires Init(s) && CanExec(s, steps)
    requires var r := Exec(s, steps); m in r.mounts && i < |r.mounts[m].dirent| && r.mounts[m].dirent[i].Some?
    ensures var r := Exec(s, steps); var d := r.mounts[m].dirent[i].value;
      3 <= i < |r.inot| && r.inot[i] == Some(d) && d in r.devs && r.devs[d].inode == i
  {
    ExecInv(s, steps);
    var r := Exec(s, steps);
    assert MountOk(r, m) && SlotOk(r, i);
  }

  /** In every run, with populate interleaved slot by slot with creations and destructions: a
    mount on which no populate runs and that carries the current generation has an entry for
    slot i exactly if the slot holds a live device.  The early return hides no change. */
  lemma {:induction false} EarlyReturnIsSafe(s: State, steps: seq<Step>, m: Mnt, i: nat)
    requires Init(s) && CanExec(s, steps)
    requires var r := Exec(s, steps);
      m in r.mounts && r.mounts[m].scan.None? && r.mounts[m].gen == r.gen && i < |r.inot|
    ensures var r := Exec(s, steps);
      |r.mounts[m].dirent| == |r.inot| && (r.mounts[m].dirent[i].Some? <==> LiveSlot(r, i))
  {
    ExecInv(s, steps);
    assert MountOk(Exec(s, steps), m);
  }

  /** In every run, the parent of a live alias is not freed: populate may read its name. */
  lemma {:induction false} AliasParentIsThere(s: State, steps: seq<Step>, d: Dev)
    requires Init(s) && CanExec(s, steps) && d in Exec(s, steps).devs && Exec(s, steps).devs[d].alias
    ensures var r := Exec(s, steps);
      r.devs[d].parent in r.devs && d in r.devs[r.devs[d].parent].children && Created(r.devs[r.devs[d].parent])
  {
    ExecInv(s, steps);
    var r := Exec(s, steps);
    assert Related(r, d);
    assert Related(r, r.devs[d].parent);
  }

  lemma {:induction false} RelFrees(s: State, d: Dev, x: Dev)
    requires d in s.devs && s.devs[d].inode < |s.inot| && x in s.devs && x !in DevRel(s, d).devs
    ensures x == d && s.devs[d].refs == 1
    ensures s.devs[d].inode != 0 ==> DevRel(s, d).inot == s.inot[s.devs[d].inode := None]
  {}

  lemma {:induction false} PopSlotFrees(s: State, m: Mnt, d: Dev)
    requires Inv(s) && Enabled(s, PopSlot(m)) && d in s.devs && d !in Apply(s, PopSlot(m)).devs
    ensures s.devs[d].refs == 1 && s.devs[d].inode < |s.inot|
    ensures s.devs[d].inode != 0 ==> Apply(s, PopSlot(m)).inot == s.inot[s.devs[d].inode := None]
  {
    var i := s.mounts[m].scan.value;
    assert SlotOk(s, i) && Placed(s, d);
    RelFrees(Store(s, m, i, None), s.inot[i].value, d);
  }

  lemma {:induction false} OnlyReleaseFrees(s: State, step: Step, d: Dev)
    requires Inv(s) && Enabled(s, step) && d in s.devs && d !in Apply(s, step).devs
    ensures s.devs[d].refs == 1 && (step.OpEnd? || step.PopSlot? || step.DestroyEnd?)
    ensures s.devs[d].inode != 0 ==>
      s.devs[d].inode < |Apply(s, step).inot| && Apply(s, step).inot[s.devs[d].inode].None?
  {
    assert Placed(s, d);
    match step
    case OpEnd(x) => RelFrees(s.(held := s.held - multiset{x}), x, d);
    case PopSlot(m) => PopSlotFrees(s, m, d);
    case DestroyEnd(t) => RelFrees(Pop(s, t), Top(s, t), d);
    case _ => OthersFreeNothing(s, step, d);
  }

  /** An operation on a live device holds one reference from its beginning to its end, and leaves nothing behind; on a
    dead device it holds none. */
  lemma {:induction false} OperationHolds(s: State, d: Dev)
    requires Inv(s) && d in s.devs
    ensures var u := Apply(s, OpBegin(d));
      if s.devs[d].live then
        && d in u.devs && u.devs[d] == s.devs[d].(refs := s.devs[d].refs + 1) && u.held == s.held + multiset{d}
        && Enabled(u, OpEnd(d)) && Apply(u, OpEnd(d)) == s
      else u == s
  {
    assert Placed(s, d) && Counted(s, d, None);
    if s.devs[d].live {
      var u := Apply(s, OpBegin(d));
      assert s.devs[d := u.devs[d]][d := s.devs[d]] == s.devs;
      assert s.held + multiset{d} - multiset{d} == s.held;
    }
  }

  lemma {:induction false} OthersFreeNothing(s: State, step: Step, d: Dev)
    requires Enabled(s, step) && d in s.devs && !step.OpEnd? && !step.PopSlot? && !step.DestroyEnd?
    ensures d in Apply(s, step).devs
  {
    if step.Make? || step.Alias? { assert d in Apply(s, step).devs; }
    else if step.DestroyBegin? || step.DestroyChild? { KillFreesNothing(s, step, d); }
  }

  lemma {:induction false} KillFreesNothing(s: State, step: Step, d: Dev)
    requires Enabled(s, step) && d in s.devs && (step.DestroyBegin? || step.DestroyChild?)
    ensures d in Apply(s, step).devs
  {}

  /** A step frees a device exactly when it takes its last reference away, and the slot of a
    device is cleared exactly when it is freed. */
  lemma {:induction false} FreedExactlyAtZero(s: State, step: Step, d: Dev)
    requires Inv(s) && Enabled(s, step) && d in s.devs
    ensures var r := Apply(s, step); var i := s.devs[d].inode;
      && (d in r.devs ==> r.devs[d].refs > 0)
      && (d !in r.devs ==> s.devs[d].refs == 1)
      && (i != 0 ==> i < |r.inot| && r.inot[i] == if d in r.devs then Some(d) else None)
  {
    var r := Apply(s, step);
    assert Placed(s, d);
    if d in r.devs {
      StepKeepsInv(s, step);
      assert Placed(r, d) && Counted(r, d, None);
      InodeKept(s, step, d);
    } else {
      OnlyReleaseFrees(s, step, d);
    }
  }

  lemma {:induction false} RelInode(s: State, d: Dev, x: Dev)
    requires d in s.devs && s.devs[d].inode < |s.inot| && x in s.devs
    ensures x in DevRel(s, d).devs ==> DevRel(s, d).devs[x].inode == s.devs[x].inode
  {
  }

  lemma {:induction false} PopSlotInode(s: State, m: Mnt, d: Dev)
    requires Enabled(s, PopSlot(m)) && d in s.devs && d in Apply(s, PopSlot(m)).devs
    ensures Apply(s, PopSlot(m)).devs[d].inode == s.devs[d].inode
  {
    var i := s.mounts[m].scan.value;
    if s.inot[i].Some? { RelInode(Store(s, m, i, None), s.inot[i].value, d); }
  }

  lemma {:induction false} InodeKept(s: State, step: Step, d: Dev)
    requires Enabled(s, step) && d in s.devs && d < s.next && d in Apply(s, step).devs
    ensures Apply(s, step).devs[d].inode == s.devs[d].inode
  {
    match step
    case OpEnd(x) => RelInode(s.(held := s.held - multiset{x}), x, d);
    case PopSlot(m) => PopSlotInode(s, m, d);
    case DestroyEnd(t) => RelInode(Pop(s, t), Top(s, t), d);
    case _ =>
  }
}
