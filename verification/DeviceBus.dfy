/** The newbus tables as the source keeps them, updated in place. */
module DeviceBus {
  import opened Basics
  import opened DeviceTree
  import opened DeviceDelete
  import opened DeviceProbe
  import opened DeviceForest
  import opened DeviceRuns

  /** The newbus tables as the source keeps them. */
  class Bus {
    const mods: seq<Module>
    var devs: map<Dev, Device>
    var next: Dev
    var classes: map<Class, seq<Option<Dev>>>
    var allocs: nat
    var freed: multiset<nat>

    ghost function View(): State
      reads this
    {
      State(mods, devs, next, classes, allocs, freed)
    }

    constructor (mods: seq<Module>)
      ensures Inv(View()) && Forest(View()) && Start(View()) && this.mods == mods
    {
      this.mods := mods;
      devs, next, classes, allocs, freed := map[], 0, map[], 0, multiset{};
    }

    /** device_set_softc */
    method SetSoftc(d: Dev, p: Option<nat>)
      requires d in devs
      modifies this
      ensures View() == DeviceTree.SetSoftc(old(View()), d, p) && d in devs && devs[d].sc.ptr == p
      ensures old(Inv(View())) ==> Inv(View()) && forall a ::
        freed[a] == if old(Owns(View(), d, a)) then 1 else old(freed)[a]
      ensures old(Inv(View()) && Forest(View())) ==> Forest(View()) && Performs(old(View()), View(), SetSc(d, p))
    {
      ghost var s := View();
      var o := devs[d];
      if o.sc.isAlloc && o.sc.ptr.Some? { freed := freed + multiset{o.sc.ptr.value}; }
      devs := devs[d := o.(sc := Softc(p, true, false))];
      SoftcSet(s, d, p);
    }

    /** device_get_softc */
    method GetSoftc(d: Dev) returns (p: Option<nat>)
      requires d in devs
      modifies this
      ensures View() == DeviceTree.GetSoftc(old(View()), d) && d in devs && p == devs[d].sc.ptr
      ensures old(Inv(View())) ==> Inv(View()) && freed == old(freed) && DeviceTree.GetSoftc(View(), d) == View()
      // memory is allocated exactly if none is set and the device has a driver that asks for some
      ensures old(Inv(View())) ==>
        (allocs != old(allocs) <==>
           !old(devs[d].sc.isSet) && old(devs[d].mod.Some?) && old(devs[d].mod.value) < |mods| &&
           mods[old(devs[d].mod.value)].driver.Some? && mods[old(devs[d].mod.value)].driver.value.size != 0)
      ensures old(Inv(View())) && allocs != old(allocs) ==>
        p == Some(old(allocs)) && freed[old(allocs)] == 0 && !old(devs[d].sc.isSet)
      ensures old(Inv(View()) && Forest(View())) ==> Forest(View()) && Performs(old(View()), View(), GetSc(d))
    {
      ghost var s := View();
      var o := devs[d];
      if !o.sc.isSet && !o.sc.isAlloc && o.mod.Some? && o.mod.value < |mods| &&
         mods[o.mod.value].driver.Some? && mods[o.mod.value].driver.value.size != 0 {
        devs := devs[d := o.(sc := Softc(Some(allocs), true, true))];
        allocs := allocs + 1;
      }
      p := devs[d].sc.ptr;
      if Inv(s) {
        GetTwice(s, d);
        if Forest(s) { CallKeeps(s, View(), GetSc(d)); }
      }
    }

    /** devclass_delete_device(dev->dev_module, dev) */
    method DeleteSlot(d: Dev)
      requires d in devs
      modifies this
      ensures View() == DeviceTree.DeleteSlot(old(View()), d)
      ensures old(Inv(View())) ==> forall c, n :: SlotAfter(old(View()), View(), {d}, c, n) && !Holds(View(), d, c, n)
    {
      if Inv(View()) { SlotLeft(View(), d); }
      var o := devs[d];
      if o.mod.None? { return; }
      if o.mod.value < |mods| && mods[o.mod.value].cls.Some? {
        var c := mods[o.mod.value].cls.value;
        if c in classes && o.unit < |classes[c]| && classes[c][o.unit] == Some(d) {
          classes := classes[c := classes[c][o.unit := None]];
        }
      }
      devs := devs[d := o.(mod := None)];
    }

    /** device_set_softc(dev, NULL) and dev_softc_set = 0 */
    method ClearSoftc(d: Dev)
      requires d in devs && !devs[d].attached
      modifies this
      ensures View() == Bare(old(View()), d)
    {
      SetSoftc(d, None);
      devs := devs[d := devs[d].(sc := devs[d].sc.(isSet := false))];
    }

    /** device_detach */
    method DetachDevice(d: Dev, fail: Dev -> int) returns (error: int)
      requires d in devs
      modifies this
      ensures error == DetachError(old(View()), d, fail)
      ensures error == if old(devs[d].mod.Some? && devs[d].attached) then fail(d) else 0
      ensures error == 0 && old(devs[d].mod.Some?) ==>
        && d in devs && !devs[d].attached && devs[d].sc == Softc(None, false, false)
        && devs[d].mod == if old(devs[d].fixedClass) then old(devs[d].mod) else None
      ensures View() == if error == 0 then Detach(old(View()), d) else old(View())
      ensures old(Inv(View()) && Forest(View())) ==>
        Inv(View()) && Forest(View()) && Performs(old(View()), View(), DetachDev(d, fail))
    {
      Detached(View(), d, fail);
      if devs[d].mod.None? { return 0; }
      if devs[d].attached {
        error := fail(d);
        if error != 0 { return; }
      }
      Unbind(d);
      error := 0;
    }

    /** The part of device_detach that follows a successful detach of the driver. */
    method Unbind(d: Dev)
      requires d in devs && devs[d].mod.Some?
      modifies this
      ensures View() == Detach(old(View()), d)
    {
      ghost var s := View();
      devs := devs[d := devs[d].(attached := false)];
      ghost var u := View();
      assert Bare(u, d) == Bare(s, d);
      ClearSoftc(d);
      if !devs[d].fixedClass { DeleteSlot(d); }
    }

    /** The end of device_delete_child: out of the slot, off the list, freed. */
    method DropDevice(p: Option<Dev>, d: Dev)
      requires d in devs && (p.Some? ==> p.value in devs && p.value != d)
      modifies this
      ensures View() == Drop(old(View()), p, d)
    {
      DeleteSlot(d);
      if p.Some? {
        devs := devs[p.value := devs[p.value].(children := Without(devs[p.value].children, {d}))];
      }
      devs := devs - {d};
    }

    /** device_delete_child */
    method DeleteChild(p: Option<Dev>, d: Dev, fail: Dev -> int, ghost t: Tree)
      returns (error: int, ghost gone: seq<Dev>)
      requires Inv(View()) && Family(View()) && Represents(View(), t) && t.dev == d
      requires Distinct(PostOrder(t)) && ListedBy(View(), p, d) && (p.Some? ==> p.value !in PostOrder(t))
      modifies this
      ensures Inv(View()) && Family(View())
      ensures Outcome(old(View()), View(), t, fail, error, gone)
      decreases t
    {
      ghost var s := View();
      ghost var j := 0;
      gone := [];
      RemovedNothing(s);
      assert Elements(gone) == {} && t.kids[..0] == [] && t.kids[0..] == t.kids;
      while devs[d].children != []
        invariant 0 <= j <= |t.kids|
        invariant Deleting(s, View(), t, j, fail, gone)
        decreases |t.kids| - j
      {
        ghost var u := View();
        KidReady(s, u, t, j, fail, gone);
        ghost var more;
        error, more := DeleteChild(Some(d), devs[d].children[0], fail, t.kids[j]);
        KidDone(s, u, View(), t, j, fail, error, gone, more);
        gone := gone + more;
        if error != 0 { return; }
        j := j + 1;
      }
      error, gone := DeleteLast(p, d, fail, s, t, j, gone);
    }

    /** The end of device_delete_child, when no child is left. */
    method DeleteLast(p: Option<Dev>, d: Dev, fail: Dev -> int, ghost s: State, ghost t: Tree, ghost j: nat,
        ghost done: seq<Dev>) returns (error: int, ghost gone: seq<Dev>)
      requires t.dev == d && Deleting(s, View(), t, j, fail, done) && devs[d].children == []
      requires ListedBy(s, p, d) && (p.Some? ==> p.value !in PostOrder(t))
      modifies this
      ensures Inv(View()) && Family(View()) && Outcome(s, View(), t, fail, error, gone)
    {
      gone := done;
      LastReady(s, View(), t, p, j, fail, gone);
      error := DetachDevice(d, fail);
      if error != 0 { return; }
      DropDevice(p, d);
      gone := gone + [d];
    }

    /** device_delete_child on any device of the bus and its parent */
    method DeleteDevice(p: Option<Dev>, d: Dev, fail: Dev -> int) returns (error: int, ghost gone: seq<Dev>)
      requires Inv(View()) && Forest(View()) && d in devs && ListedBy(View(), p, d)
      modifies this
      ensures Inv(View()) && Forest(View()) && Performs(old(View()), View(), Delete(p, d, fail, error, gone))
    {
      ghost var s := View();
      DeletionApplies(s, p, d);
      error, gone := DeleteChild(p, d, fail, TreeOf(s, d));
      CallKeeps(s, View(), Delete(p, d, fail, error, gone));
    }

    // -------------------------------------------------------------- slots

    /** devclass_create */
    method CreateClass(c: Option<Class>) returns (failed: bool)
      modifies this
      ensures failed == c.None?
      ensures View() == if c.Some? then DeviceTree.CreateClass(old(View()), c.value) else old(View())
    {
      if c.None? { return true; }
      if c.value !in classes { classes := classes[c.value := seq(MAXUNIT, _ => None)]; }
      failed := false;
    }

    /** devclass_find_create */
    method FindCreate(name: string) returns (r: Option<nat>)
      modifies this
      ensures Picked(mods, name, r)
      ensures r.Some? ==> r.value < |mods| && mods[r.value].name == Some(name) && mods[r.value].cls.Some?
      ensures forall k :: 0 <= k < (if r.Some? then r.value else |mods|) && mods[k].name == Some(name) ==>
        mods[k].cls.None?
      ensures View() == if r.Some? then DeviceTree.CreateClass(old(View()), mods[r.value].cls.value) else old(View())
    {
      for i := 0 to |mods|
        invariant forall k :: 0 <= k < i ==> !Named(mods[k], name)
        invariant View() == old(View())
      {
        if mods[i].name == Some(name) {
          var failed := CreateClass(mods[i].cls);
          if failed { continue; }
          return Some(i);
        }
      }
      r := None;
    }

    /** devclass_add_device */
    method AddDevice(i: nat, d: Dev) returns (failed: bool)
      requires d in devs && i < |mods| && forall c :: c in classes ==> |classes[c]| == MAXUNIT
      modifies this
      ensures var s := old(View());
        failed == (mods[i].cls.None? || mods[i].cls.value !in s.classes ||
          UnitFor(s, mods[i].cls.value, s.devs[d], None))
      ensures failed ==> View() == old(View())
      ensures !failed ==> d in devs && UnitFor(old(View()), mods[i].cls.value, old(devs[d]), Some(devs[d].unit))
      ensures !failed ==> View() == AddSlot(old(View()), d, i, devs[d].unit)
      // the wired unit, or the lowest free one
      ensures !failed ==>
        var c, n := mods[i].cls.value, devs[d].unit;
        && n < MAXUNIT && old(classes)[c][n].None? && c in classes && classes[c] == old(classes)[c][n := Some(d)]
        && (old(devs[d].manual) ==> n == old(devs[d].unit))
        && (!old(devs[d].manual) ==> forall k :: 0 <= k < n ==> old(classes)[c][k].Some?)
        && devs[d].mod == Some(i)
    {
      if mods[i].cls.None? || mods[i].cls.value !in classes { return true; }
      var c := mods[i].cls.value;
      var n := 0;
      if devs[d].manual {
        n := devs[d].unit;
        if n >= MAXUNIT || classes[c][n].Some? { return true; }
      } else {
        while n < MAXUNIT && classes[c][n].Some?
          invariant n <= MAXUNIT
          invariant forall k :: 0 <= k < n ==> SlotAt(View(), c, k).Some?
          invariant forall k :: 0 <= k < n ==> classes[c][k].Some?
        {
          n := n + 1;
        }
        if n == MAXUNIT { return true; }
      }
      assert SlotAt(View(), c, n).None?;
      classes := classes[c := classes[c][n := Some(d)]];
      devs := devs[d := devs[d].(unit := n, mod := Some(i))];
      failed := false;
    }

    // -------------------------------------------------------------- device_probe_and_attach

    /** The calls that a driver method makes on its device. */
    method RunDriver(d: Dev, ops: seq<SoftcOp>, ghost s: State, ghost at: Option<(Class, nat)>)
      requires Attempted(s, View(), d, at)
      modifies this
      ensures Attempted(s, View(), d, at)
      ensures d in devs && devs[d] == old(devs[d]).(sc := devs[d].sc)
    {
      for i := 0 to |ops|
        invariant Attempted(s, View(), d, at)
        invariant d in devs && devs[d] == old(devs[d]).(sc := devs[d].sc)
      {
        ApplyKeeps(s, View(), d, at, ops[i]);
        match ops[i] {
          case Get => var _ := GetSoftc(d);
          case Set(p) => SetSoftc(d, p);
        }
      }
    }

    /** CALL_METHOD(device_probe) and, if it accepts, CALL_METHOD(device_attach) */
    method Offer(d: Dev, r: Reply, ghost s: State, ghost at: Option<(Class, nat)>) returns (taken: bool)
      requires Attempted(s, View(), d, at) && !devs[d].attached
      modifies this
      ensures taken == Willing(r) && Attempted(s, View(), d, at)
      ensures d in devs && devs[d] == old(devs[d]).(sc := devs[d].sc, attached := taken)
    {
      RunDriver(d, r.probeOps, s, at);
      if r.probe <= 0 {
        RunDriver(d, r.attachOps, s, at);
        if r.attach == 0 {
          AttachKeeps(s, View(), d, at);
          devs := devs[d := devs[d].(attached := true)];
          return true;
        }
      }
      taken := false;
    }

    /** One round of the table loop. */
    method TryModule(i: nat, d: Dev, drv: nat -> Reply, bus: string, ghost s: State) returns (taken: bool)
      requires i < |mods| && Inv(s) && Unbound(s, View(), d) && !s.devs[d].fixedClass && s.devs[d].mod.None?
      modifies this
      ensures taken <==> Accepts(s, d, bus, drv, i)
      ensures if taken then Bound(s, View(), d, i, true) else Unbound(s, View(), d)
    {
      if !ForBus(mods[i], bus) { return false; }
      if mods[i].cls.Some? { CreateKeeps(s, View(), d, mods[i].cls.value); }
      var failed := CreateClass(mods[i].cls);
      if failed { return false; }
      ghost var u := View();
      SameUnits(s, u, d, mods[i].cls.value, None);
      failed := AddDevice(i, d);
      if failed { return false; }
      AddKeeps(s, u, d, i, devs[d].unit);
      taken := Offer(d, drv(i), s, Some((mods[i].cls.value, devs[d].unit)));
      OneUnit(s, mods[i].cls.value, s.devs[d], devs[d].unit);
      if !taken {
        DetachUndoes(s, View(), d, i);
        var _ := DetachDevice(d, _ => 0);
      }
    }

    /** The device was made for one class: only that driver is asked. */
    method ProbeFixed(d: Dev, drv: nat -> Reply, bus: string) returns (error: int)
      requires Inv(View()) && d in devs && devs[d].fixedClass && devs[d].mod.Some? && !devs[d].attached
      modifies this
      ensures ProbeResult(old(View()), View(), d, bus, drv, error)
    {
      ghost var s := View();
      AttemptedNothing(s, d);
      var taken := Offer(d, drv(devs[d].mod.value), s, None);
      if taken { return 0; }
      DetachFixed(s, View(), d);
      var _ := DetachDevice(d, _ => 0);
      error := ENODEV;
    }

    /** Every driver of the bus is asked, in table order. */
    method ProbeTable(d: Dev, drv: nat -> Reply, bus: string) returns (error: int)
      requires Inv(View()) && d in devs && !devs[d].fixedClass && devs[d].mod.None? && !devs[d].attached
      requires !devs[d].sc.isAlloc
      modifies this
      ensures ProbeResult(old(View()), View(), d, bus, drv, error)
    {
      ghost var s := View();
      AttemptedNothing(s, d);
      for i := 0 to |mods|
        invariant Unbound(s, View(), d)
        invariant forall k :: 0 <= k < i ==> !Accepts(s, d, bus, drv, k)
      {
        var taken := TryModule(i, d, drv, bus, s);
        if taken {
          assert First(s, d, bus, drv, i);
          return 0;
        }
      }
      error := ENODEV;
    }

    /** device_probe_and_attach */
    method ProbeAndAttach(p: Option<Dev>, d: Dev, drv: nat -> Reply) returns (error: int)
      requires Inv(View()) && Forest(View()) && d in devs && ListedBy(View(), p, d)
      modifies this
      ensures Inv(View()) && Forest(View()) && Performs(old(View()), View(), Probe(p, d, drv, error))
      ensures ProbeResult(old(View()), View(), d, NameOf(old(View()), p), drv, error)
      // the drivers tried are those of the bus that the parent's driver is named after, or of "unknown"
      ensures var s := old(View()); !s.devs[d].attached && !s.devs[d].fixedClass ==>
        if p.Some? && s.devs[p.value].mod.Some? && s.devs[p.value].mod.value < |s.mods|
           && s.mods[s.devs[p.value].mod.value].driver.Some?
           && s.mods[s.devs[p.value].mod.value].driver.value.name.Some?
        then TakenFrom(s, View(), d, s.mods[s.devs[p.value].mod.value].driver.value.name.value, drv, error)
        else TakenFrom(s, View(), d, "unknown", drv, error)
      ensures var s := old(View()); !s.devs[d].attached && s.devs[d].fixedClass ==>
        && s.devs[d].mod.Some? && d in devs && devs[d].mod == s.devs[d].mod && devs[d].attached == (error == 0)
        && error == var r := drv(s.devs[d].mod.value); if r.probe <= 0 && r.attach == 0 then 0 else ENODEV
      ensures old(devs[d].attached) ==> View() == old(View()) && error == 0
    {
      ghost var s := View();
      var bus := UNKNOWN;
      if p.Some? && devs[p.value].mod.Some? && devs[p.value].mod.value < |mods| {
        var m := mods[devs[p.value].mod.value];
        if m.driver.Some? && m.driver.value.name.Some? { bus := m.driver.value.name.value; }
      }
      if devs[d].attached { return 0; }
      assert DevOk(s, d);
      if devs[d].fixedClass {
        error := ProbeFixed(d, drv, bus);
      } else {
        error := ProbeTable(d, drv, bus);
      }
      ProbeKeeps(s, View(), d, bus, drv, error);
      if !s.devs[d].fixedClass { SpelledOut(s, View(), d, bus, drv, error); }
    }

    // -------------------------------------------------------------- device_add_child_ordered

    /** The part of make_device that follows a successful look-up of the class. */
    method MakeOfClass(i: nat, unit: int, ghost s: State) returns (r: Option<Dev>)
      requires Inv(s) && i < |s.mods| && s.mods[i].cls.Some? && View() == DeviceTree.CreateClass(s, s.mods[i].cls.value)
      modifies this
      ensures MadeOfClass(s, View(), Some(i), unit, r)
    {
      ClassCreated(s, mods[i].cls.value);
      FreshDevice(s);
      var d := next;
      devs := devs[d := Blank(unit).(fixedClass := true, mod := Some(i))];
      ghost var w := View();
      SameOffer(s, w, mods[i].cls.value, Blank(unit), w.devs[d]);
      var failed := AddDevice(i, d);
      if failed {
        SlotsAlone(s, w, View(), devs - {d});
        devs := devs - {d};
        assert devs == s.devs;
        return None;
      }
      next := next + 1;
      AddedSlot(s, w, View(), i, unit, devs[d].unit);
      OneUnit(s, mods[i].cls.value, Blank(unit), devs[d].unit);
      r := Some(d);
    }

    /** make_device; `memory` says whether there is memory for the device. */
    method MakeDevice(name: Option<string>, unit: int, memory: bool) returns (r: Option<Dev>)
      requires Inv(View())
      modifies this
      ensures Made(old(View()), View(), name, unit, memory, r)
      ensures old(Forest(View())) ==> Performs(old(View()), View(), Make(name, unit, memory, r))
      // a new device, wired to the unit if one is given, and of a fixed class if a name is given
      ensures r.Some? ==>
        && r.value == old(next) && devs.Keys == old(devs.Keys) + {r.value} && devs[r.value].manual == (unit != -1)
        && devs[r.value].fixedClass == name.Some? && devs[r.value].mod.Some? == name.Some?
        && devs[r.value].children == [] && !devs[r.value].attached && devs[r.value].sc == Softc(None, false, false)
        && (unit != -1 ==> devs[r.value].unit == unit % 0x10000)
        && (name.Some? ==> devs[r.value].mod.value < |mods| && mods[devs[r.value].mod.value].name == name)
      ensures r.None? ==> devs == old(devs)
      ensures forall x :: x in old(devs) && x != old(next) ==> x in devs && devs[x] == old(devs)[x]
    {
      ghost var s := View();
      NothingMade(s);
      var mod: Option<nat> := None;
      if name.Some? {
        mod := FindCreate(name.value);
        if mod.None? {
          assert memory ==> MadeOfClass(s, View(), mod, unit, None);
          return None;
        }
        ClassCreated(s, mods[mod.value].cls.value);
      }
      if !memory { return None; }
      if name.Some? {
        r := MakeOfClass(mod.value, unit, s);
        assert MadeOfClass(s, View(), mod, unit, r);
        return;
      }
      r := Some(next);
      devs := devs[next := Blank(unit)];
      next := next + 1;
    }

    /** The list part of device_add_child_ordered: before the first child of a greater order. */
    method InsertChild(p: Dev, c: Dev, order: int) returns (ghost k: nat)
      requires p in devs && c in devs && p != c
      requires forall i :: 0 <= i < |devs[p].children| ==> devs[p].children[i] in devs && devs[p].children[i] != c
      modifies this
      ensures ChildListed(old(View()), View(), p, c, order, k)
    {
      ghost var u := View();
      var ds: seq<Dev> := devs[p].children;
      devs := devs[c := devs[c].(order := order)];
      var i := 0;
      while i < |ds| && devs[ds[i]].order <= order
        invariant 0 <= i <= |ds|
        invariant forall j :: 0 <= j < i ==> u.devs[ds[j]].order <= order
      {
        i := i + 1;
      }
      k := i;
      devs := devs[p := devs[p].(children := ds[..i] + [c] + ds[i..])];
    }

    /** device_add_child_ordered */
    method AddChildOrdered(p: Dev, order: int, name: Option<string>, unit: int, memory: bool)
      returns (r: Option<Dev>, ghost made: State, ghost k: nat)
      requires Inv(View()) && Forest(View()) && p in devs
      modifies this
      ensures Inv(View()) && Forest(View())
      ensures Performs(old(View()), View(), Add(p, order, name, unit, memory, r, made, k))
      ensures Made(old(View()), made, name, unit, memory, r)
      ensures if r.Some? then ChildListed(made, View(), p, r.value, order, k) else View() == made
      // the new device stands behind the last child whose order is not greater
      ensures r.Some? ==>
        && r.value in devs && devs[r.value].order == order && k <= |old(devs[p].children)| && p in devs
        && devs[p].children == old(devs[p].children)[..k] + [r.value] + old(devs[p].children)[k..]
        && (forall i :: 0 <= i < k ==>
              var x := old(devs[p].children)[i]; x in old(devs) && old(devs)[x].order <= order)
        && (k < |old(devs[p].children)| ==>
              var x := old(devs[p].children)[k]; x in old(devs) && old(devs)[x].order > order)
    {
      ghost var s := View();
      k := 0;
      r := MakeDevice(name, unit, memory);
      made := View();
      MadeKeepsInv(s, made, name, unit, memory, r);
      if r.None? {
        SameDevicesForest(s, made);
        return;
      }
      assert ListOk(s, p) && DevOk(s, p);
      k := InsertChild(p, r.value, order);
      ListedKeepsInv(made, View(), p, r.value, order, k);
      ChildKeepsForest(s, made, View(), p, r.value, order, k);
    }
  }

  /** A unit was offered exactly if some unit was. */
  lemma {:induction false} OneUnit(s: State, c: Class, o: Device, n: nat)
    requires UnitFor(s, c, o, Some(n))
    ensures !UnitFor(s, c, o, None)
  {
    assert SlotAt(s, c, n).None?;
  }

  lemma {:induction false} NothingMade(s: State)
    requires Inv(s)
    ensures SlotsKept(s, s, s.next, None)
  {
    forall c, n ensures SlotKept(s, s, s.next, None, c, n) {}
  }

  lemma {:induction false} ClassCreated(s: State, c: Class)
    requires Inv(s)
    ensures SlotsKept(s, CreateClass(s, c), s.next, None) && c in CreateClass(s, c).classes
  {
    forall k, n ensures SlotKept(s, CreateClass(s, c), s.next, None, k, n) {}
  }

  /** The units on offer depend on the slots and on how the device is wired, not on anything else. */
  lemma {:induction false} SameOffer(s: State, w: State, c: Class, o: Device, o': Device)
    requires SlotsKept(s, w, s.next, None) && o.manual == o'.manual && o.unit == o'.unit
    ensures forall n :: UnitFor(s, c, o, n) <==> UnitFor(w, c, o', n)
  {
    forall k ensures SlotAt(w, c, k) == SlotAt(s, c, k) { assert SlotKept(s, w, s.next, None, c, k); }
  }

  lemma {:induction false} AddedSlot(s: State, w: State, x: State, i: nat, unit: int, n: nat)
    requires SlotsKept(s, w, s.next, None) && i < |s.mods| && s.mods[i].cls.Some? && w.next == s.next
    requires w.devs == s.devs[s.next := Blank(unit).(fixedClass := true, mod := Some(i))]
    requires s.mods[i].cls.value in w.classes && n < MAXUNIT && UnitFor(s, s.mods[i].cls.value, Blank(unit), Some(n))
    requires x == AddSlot(w, s.next, i, n).(next := s.next + 1)
    ensures Registered(s, x, i, unit, n)
  {
    var c := s.mods[i].cls.value;
    forall k, m ensures SlotKept(s, x, s.next, Some((c, n)), k, m) { assert SlotKept(s, w, s.next, None, k, m); }
  }

  lemma {:induction false} SlotsAlone(s: State, w: State, u: State, ds: map<Dev, Device>)
    requires SlotsKept(s, w, s.next, None) && u == w
    ensures SlotsKept(s, u.(devs := ds), s.next, None)
  {
    forall k, m ensures SlotKept(s, u.(devs := ds), s.next, None, k, m) { assert SlotKept(s, w, s.next, None, k, m); }
  }

  lemma {:induction false} SameDevicesForest(s: State, u: State)
    requires Forest(s) && u.devs == s.devs && u.next == s.next
    ensures Forest(u)
  {
    forall p | p in u.devs ensures ListOk(u, p) { assert ListOk(s, p); }
  }
}
