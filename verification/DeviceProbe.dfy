/** device_probe_and_attach: try each driver of the parent's bus, undoing every failed attempt. */
module DeviceProbe {
  import opened Basics
  import opened DeviceTree

  /** What a driver's probe or attach may do to the device it is given. */
  datatype SoftcOp = Get | Set(p: Option<nat>)

  /** How one driver answers.  A table entry is asked at most once, so its index names the answer. */
  datatype Reply = Reply(probe: int, probeOps: seq<SoftcOp>, attach: int, attachOps: seq<SoftcOp>)

  const UNKNOWN := "unknown"

  /** device_get_name */
  function NameOf(s: State, p: Option<Dev>): string {
    if p.Some? && p.value in s.devs && s.devs[p.value].mod.Some? && s.devs[p.value].mod.value < |s.mods| &&
       s.mods[s.devs[p.value].mod.value].driver.Some? && s.mods[s.devs[p.value].mod.value].driver.value.name.Some?
    then s.mods[s.devs[p.value].mod.value].driver.value.name.value
    else UNKNOWN
  }

  /** The table entry is a complete driver for that bus. */
  predicate ForBus(m: Module, bus: string) {
    m.bus == Some(bus) && m.driver.Some? && m.driver.value.methods && m.driver.value.name.Some?
  }

  predicate Willing(r: Reply) {
    r.probe <= 0 && r.attach == 0
  }

  /** Entry i is a driver for the bus, its class has room for the device, and it takes the device. */
  ghost predicate Accepts(s: State, d: Dev, bus: string, drv: nat -> Reply, i: nat)
    requires d in s.devs
  {
    && i < |s.mods| && ForBus(s.mods[i], bus) && s.mods[i].cls.Some?
    && !UnitFor(s, s.mods[i].cls.value, s.devs[d], None)
    && Willing(drv(i))
  }

  // ---------------------------------------------------------------- the softc ledger

  predicate Owns(s: State, d: Dev, a: nat) {
    d in s.devs && s.devs[d].sc.isAlloc && s.devs[d].sc.ptr == Some(a)
  }

  /** Whatever d owned before or was allocated since is freed once, unless d still owns it. */
  ghost predicate Settled(s: State, u: State, d: Dev, a: nat) {
    && (Owns(s, d, a) ==> a < s.allocs)
    && (Owns(u, d, a) ==> Owns(s, d, a) || s.allocs <= a < u.allocs)
    && u.freed[a] == s.freed[a] + if (Owns(s, d, a) || s.allocs <= a < u.allocs) && !Owns(u, d, a) then 1 else 0
  }

  // ---------------------------------------------------------------- what an attempt may change

  predicate SameButBinding(o: Device, o': Device) {
    && o' == o.(mod := o'.mod, unit := o'.unit, attached := o'.attached, sc := o'.sc)
    && (o.manual ==> o'.unit == o.unit)
  }

  predicate SoftcOk(sc: Softc) {
    sc.isAlloc ==> sc.isSet && sc.ptr.Some?
  }

  /** Slot (c, n) is as before, unless it is the one now given to d. */
  ghost predicate SlotKept(s: State, u: State, d: Dev, at: Option<(Class, nat)>, c: Class, n: nat) {
    SlotAt(u, c, n) == if at == Some((c, n)) then Some(d) else SlotAt(s, c, n)
  }

  ghost predicate OnlyDevice(s: State, u: State, d: Dev) {
    && d in s.devs && u.mods == s.mods && u.next == s.next && u.devs.Keys == s.devs.Keys
    && (forall e :: e in s.devs && e != d ==> u.devs[e] == s.devs[e])
    && SameButBinding(s.devs[d], u.devs[d]) && SoftcOk(u.devs[d].sc)
  }

  /** From s to u only the binding of d changed; the slot `at` was given to it. */
  ghost predicate Attempted(s: State, u: State, d: Dev, at: Option<(Class, nat)>) {
    && OnlyDevice(s, u, d) && s.allocs <= u.allocs
    && (forall c :: c in u.classes ==> |u.classes[c]| == MAXUNIT)
    && (forall c, n {:trigger SlotKept(s, u, d, at, c, n)} :: SlotKept(s, u, d, at, c, n))
    && (forall a {:trigger Settled(s, u, d, a)} :: Settled(s, u, d, a))
  }

  /** No driver holds d: it is in no slot, and every slot is as in s. */
  ghost predicate Unbound(s: State, u: State, d: Dev) {
    && Attempted(s, u, d, None)
    && u.devs[d].mod.None? && !u.devs[d].attached && !u.devs[d].sc.isAlloc
  }

  /** Driver i holds d in the unit that was free for it; `attached` tells whether for good. */
  ghost predicate Bound(s: State, u: State, d: Dev, i: nat, attached: bool) {
    && i < |s.mods| && s.mods[i].cls.Some? && d in s.devs && d in u.devs
    && var c, o := s.mods[i].cls.value, u.devs[d];
      && o.mod == Some(i) && o.attached == attached
      && UnitFor(s, c, s.devs[d], Some(o.unit))
      && Attempted(s, u, d, Some((c, o.unit)))
  }

  /** A device of a fixed class keeps its slot whatever happens. */
  ghost predicate StaysBound(s: State, u: State, d: Dev, attached: bool) {
    && Attempted(s, u, d, None)
    && u.devs[d].mod == s.devs[d].mod && u.devs[d].unit == s.devs[d].unit && u.devs[d].attached == attached
  }

  // ---------------------------------------------------------------- the result of the whole call

  /** What device_probe_and_attach promises. */
  ghost predicate ProbeResult(s: State, u: State, d: Dev, bus: string, drv: nat -> Reply, error: int)
    requires d in s.devs
  {
    if s.devs[d].attached then u == s && error == 0
    else if s.devs[d].fixedClass then
      && s.devs[d].mod.Some?
      && error == (if Willing(drv(s.devs[d].mod.value)) then 0 else ENODEV)
      && StaysBound(s, u, d, error == 0)
      && (error != 0 ==> u.devs[d].sc == NOSOFTC)
    else if exists i :: Accepts(s, d, bus, drv, i) then
      error == 0 && exists i :: First(s, d, bus, drv, i) && Bound(s, u, d, i, true)
    else
      error == ENODEV && Unbound(s, u, d)
  }

  /** i is the first table entry that accepts the device. */
  ghost predicate First(s: State, d: Dev, bus: string, drv: nat -> Reply, i: nat)
    requires d in s.devs
  {
    Accepts(s, d, bus, drv, i) && forall k :: 0 <= k < i ==> !Accepts(s, d, bus, drv, k)
  }

  // ---------------------------------------------------------------- operations

  function Apply(s: State, d: Dev, op: SoftcOp): State
    requires d in s.devs
  {
    match op
    case Get => GetSoftc(s, d)
    case Set(p) => SetSoftc(s, d, p)
  }

  /** devclass_add_device, once it has found unit n */
  function AddSlot(s: State, d: Dev, i: nat, n: nat): State
    requires d in s.devs && i < |s.mods| && s.mods[i].cls.Some?
    requires s.mods[i].cls.value in s.classes && n < |s.classes[s.mods[i].cls.value]|
  {
    Put(SetSlot(s, s.mods[i].cls.value, n, Some(d)), d, s.devs[d].(unit := n, mod := Some(i)))
  }

  // ---------------------------------------------------------------- lemmas

  lemma {:induction false} AttemptedNothing(s: State, d: Dev)
    requires Inv(s) && d in s.devs
    ensures Attempted(s, s, d, None)
  {
    assert DevOk(s, d);
  }

  /** devclass_create adds a class with only free slots. */
  lemma {:induction false} CreateKeeps(s: State, u: State, d: Dev, c: Class)
    requires Attempted(s, u, d, None)
    ensures Attempted(s, CreateClass(u, c), d, None) && c in CreateClass(u, c).classes
    ensures CreateClass(u, c).devs == u.devs
  {
    var v := CreateClass(u, c);
    forall k, n ensures SlotKept(s, v, d, None, k, n) { assert SlotKept(s, u, d, None, k, n); }
    forall a: nat ensures Settled(s, v, d, a) { assert Settled(s, u, d, a); }
  }

  /** The unit found in the present state is the one that the original state offers. */
  lemma {:induction false} SameUnits(s: State, u: State, d: Dev, c: Class, n: Option<nat>)
    requires Attempted(s, u, d, None)
    ensures UnitFor(s, c, s.devs[d], n) <==> UnitFor(u, c, u.devs[d], n)
  {
    forall k ensures SlotAt(u, c, k) == SlotAt(s, c, k) { assert SlotKept(s, u, d, None, c, k); }
  }

  lemma {:induction false} AddKeeps(s: State, u: State, d: Dev, i: nat, n: nat)
    requires Unbound(s, u, d) && i < |s.mods| && s.mods[i].cls.Some?
    requires s.mods[i].cls.value in u.classes && UnitFor(u, s.mods[i].cls.value, u.devs[d], Some(n))
    ensures n < |u.classes[s.mods[i].cls.value]| && Bound(s, AddSlot(u, d, i, n), d, i, false)
  {
    var c := s.mods[i].cls.value;
    var v := AddSlot(u, d, i, n);
    SameUnits(s, u, d, c, Some(n));
    forall k, m ensures SlotKept(s, v, d, Some((c, n)), k, m) { assert SlotKept(s, u, d, None, k, m); }
    forall a: nat ensures Settled(s, v, d, a) { assert Settled(s, u, d, a); }
  }

  lemma {:induction false} ApplyKeeps(s: State, u: State, d: Dev, at: Option<(Class, nat)>, op: SoftcOp)
    requires Attempted(s, u, d, at)
    ensures var v := Apply(u, d, op);
      && Attempted(s, v, d, at) && v.devs[d] == u.devs[d].(sc := v.devs[d].sc)
  {
    var v := Apply(u, d, op);
    forall k, m ensures SlotKept(s, v, d, at, k, m) { assert SlotKept(s, u, d, at, k, m); }
    forall a: nat ensures Settled(s, v, d, a) { assert Settled(s, u, d, a); }
  }

  /** Undoing an attempt leaves the device unbound and all slots as they were. */
  lemma {:induction false} DetachUndoes(s: State, u: State, d: Dev, i: nat)
    requires Bound(s, u, d, i, false) && !s.devs[d].fixedClass && s.mods == u.mods
    ensures Unbound(s, Detach(u, d), d)
  {
    var c, n := s.mods[i].cls.value, u.devs[d].unit;
    var v := Detach(u, d);
    assert SlotKept(s, u, d, Some((c, n)), c, n);
    assert v.classes == u.classes[c := u.classes[c][n := None]];
    forall k, m ensures SlotKept(s, v, d, None, k, m) { assert SlotKept(s, u, d, Some((c, n)), k, m); }
    forall a: nat ensures Settled(s, v, d, a) { assert Settled(s, u, d, a); }
  }

  /** On a device of a fixed class device_detach only gives the softc back. */
  lemma {:induction false} DetachFixed(s: State, u: State, d: Dev)
    requires StaysBound(s, u, d, false) && s.devs[d].fixedClass && s.devs[d].mod.Some?
    ensures StaysBound(s, Detach(u, d), d, false) && Detach(u, d).devs[d].sc == NOSOFTC
  {
    var v := Detach(u, d);
    forall k, m ensures SlotKept(s, v, d, None, k, m) { assert SlotKept(s, u, d, None, k, m); }
    forall a: nat ensures Settled(s, v, d, a) { assert Settled(s, u, d, a); }
  }

  /** dev_attached = 1 */
  lemma {:induction false} AttachKeeps(s: State, u: State, d: Dev, at: Option<(Class, nat)>)
    requires Attempted(s, u, d, at)
    ensures Attempted(s, Put(u, d, u.devs[d].(attached := true)), d, at)
  {
    var v := Put(u, d, u.devs[d].(attached := true));
    forall k, m ensures SlotKept(s, v, d, at, k, m) { assert SlotKept(s, u, d, at, k, m); }
    forall a: nat ensures Settled(s, v, d, a) { assert Settled(s, u, d, a); }
  }

  // ---------------------------------------------------------------- the invariant

  lemma {:induction false} OneOwner(s: State, d: Dev, e: Dev, a: nat)
    requires LedgerOk(s)
    ensures Owns(s, d, a) && Owns(s, e, a) ==> d == e
  {
    assert Owns(s, d, a) && Owns(s, e, a) ==> SameSoftc(s.devs[d].sc, s.devs[e].sc);
  }

  /** The other devices stay well-formed: their slots and their softcs are untouched. */
  lemma {:induction false} OthersOk(s: State, u: State, d: Dev, at: Option<(Class, nat)>, e: Dev)
    requires Inv(s) && Attempted(s, u, d, at) && e in s.devs && e != d
    requires at.Some? ==> SlotAt(s, at.value.0, at.value.1).None?
    ensures DevOk(u, e)
  {
    assert DevOk(s, e);
    var o := s.devs[e];
    if o.mod.Some? { assert SlotKept(s, u, d, at, ClassOf(s, o.mod.value).value, o.unit); }
    if o.sc.isAlloc {
      assert Settled(s, u, d, o.sc.ptr.value);
      OneOwner(s, d, e, o.sc.ptr.value);
    }
  }

  lemma {:induction false} LedgerKept(s: State, u: State, d: Dev, at: Option<(Class, nat)>)
    requires Inv(s) && Attempted(s, u, d, at)
    ensures LedgerOk(u)
  {
    assert DevOk(s, d);
    forall a: nat ensures u.freed[a] <= 1 && (a in u.freed ==> a < u.allocs) {
      assert Settled(s, u, d, a);
      assert a in s.freed ==> a < s.allocs;
    }
    forall x, y | x in u.devs && y in u.devs && SameSoftc(u.devs[x].sc, u.devs[y].sc) ensures x == y {
      assert DevOk(s, x) && DevOk(s, y);
      var sc := u.devs[x].sc;
      if sc.ptr.Some? {
        assert Settled(s, u, d, sc.ptr.value);
        OneOwner(s, x, y, sc.ptr.value);
      }
    }
  }

  /** The softc that d still owns is its own and unfreed. */
  lemma {:induction false} OwnSoftc(s: State, u: State, d: Dev, at: Option<(Class, nat)>)
    requires Inv(s) && Attempted(s, u, d, at) && u.devs[d].sc.isAlloc
    ensures u.devs[d].sc.ptr.value < u.allocs && u.freed[u.devs[d].sc.ptr.value] == 0
  {
    assert DevOk(s, d);
    assert Settled(s, u, d, u.devs[d].sc.ptr.value);
  }

  lemma {:induction false} UnboundInv(s: State, u: State, d: Dev)
    requires Inv(s) && Unbound(s, u, d) && s.devs[d].mod.None?
    ensures Inv(u)
  {
    assert DevOk(s, d);
    LedgerKept(s, u, d, None);
    forall e | e in u.devs ensures DevOk(u, e) { if e != d { OthersOk(s, u, d, None, e); } }
    forall c, n ensures SlotOk(u, c, n) {
      assert SlotKept(s, u, d, None, c, n) && SlotOk(s, c, n);
    }
  }

  lemma {:induction false} BoundInv(s: State, u: State, d: Dev, i: nat)
    requires Inv(s) && Bound(s, u, d, i, true) && s.devs[d].mod.None?
    ensures Inv(u)
  {
    var at := Some((s.mods[i].cls.value, u.devs[d].unit));
    assert DevOk(s, d);
    LedgerKept(s, u, d, at);
    assert SlotKept(s, u, d, at, at.value.0, at.value.1);
    if u.devs[d].sc.isAlloc { OwnSoftc(s, u, d, at); }
    forall e | e in u.devs ensures DevOk(u, e) { if e != d { OthersOk(s, u, d, at, e); } }
    forall c, n ensures SlotOk(u, c, n) {
      assert SlotKept(s, u, d, at, c, n) && SlotOk(s, c, n);
    }
  }

  lemma {:induction false} FixedInv(s: State, u: State, d: Dev, attached: bool)
    requires Inv(s) && StaysBound(s, u, d, attached) && s.devs[d].fixedClass
    ensures Inv(u)
  {
    assert DevOk(s, d);
    LedgerKept(s, u, d, None);
    if u.devs[d].sc.isAlloc { OwnSoftc(s, u, d, None); }
    assert SlotKept(s, u, d, None, ClassOf(s, s.devs[d].mod.value).value, s.devs[d].unit);
    forall e | e in u.devs ensures DevOk(u, e) { if e != d { OthersOk(s, u, d, None, e); } }
    forall c, n ensures SlotOk(u, c, n) {
      assert SlotKept(s, u, d, None, c, n) && SlotOk(s, c, n);
    }
  }

  /** After a failed call a device without a fixed class is in no slot, every slot is as before, and
    each softc allocated during the call has been freed exactly once; nothing else was freed. */
  lemma {:induction false} NoDriverTakesIt(s: State, u: State, d: Dev, bus: string, drv: nat -> Reply)
    requires Inv(s) && d in s.devs && !s.devs[d].fixedClass && !s.devs[d].attached
    requires ProbeResult(s, u, d, bus, drv, ENODEV)
    ensures forall i :: !Accepts(s, d, bus, drv, i)
    ensures forall c, n :: SlotAt(u, c, n) == SlotAt(s, c, n) && !Holds(u, d, c, n)
    ensures forall a :: u.freed[a] == if s.allocs <= a < u.allocs then 1 else s.freed[a]
    ensures forall e :: e in s.devs && e != d ==> e in u.devs && u.devs[e] == s.devs[e]
  {
    assert DevOk(s, d);
    forall c, n ensures SlotAt(u, c, n) == SlotAt(s, c, n) && !Holds(u, d, c, n) {
      assert SlotKept(s, u, d, None, c, n) && SlotOk(s, c, n);
    }
    forall a: nat ensures u.freed[a] == if s.allocs <= a < u.allocs then 1 else s.freed[a] {
      assert Settled(s, u, d, a);
    }
  }

  /** After a successful call the device sits in exactly one slot: the lowest free unit (or its wired
    unit) of the first willing driver's class. */
  lemma {:induction false} FirstDriverTakesIt(s: State, u: State, d: Dev, bus: string,
      drv: nat -> Reply) returns (i: nat)
    requires Inv(s) && d in s.devs && !s.devs[d].fixedClass && !s.devs[d].attached
    requires ProbeResult(s, u, d, bus, drv, 0)
    ensures First(s, d, bus, drv, i) && d in u.devs && u.devs[d].attached && u.devs[d].mod == Some(i)
    ensures UnitFor(s, s.mods[i].cls.value, s.devs[d], Some(u.devs[d].unit))
    ensures forall c, n :: SlotKept(s, u, d, Some((s.mods[i].cls.value, u.devs[d].unit)), c, n)
    ensures forall c, n :: Holds(u, d, c, n) <==> c == s.mods[i].cls.value && n == u.devs[d].unit
  {
    assert DevOk(s, d);
    i :| First(s, d, bus, drv, i) && Bound(s, u, d, i, true);
    var at := Some((s.mods[i].cls.value, u.devs[d].unit));
    forall c: Class, n: nat ensures Holds(u, d, c, n) <==> at == Some((c, n)) {
      assert SlotKept(s, u, d, at, c, n) && SlotOk(s, c, n);
    }
  }

  // ---------------------------------------------------------------- the result, spelled out

  /** Table entry i is for bus n, has a driver with methods and a name and a class with a unit free for the device
    (its own, if it is wired), and its driver probes and attaches the device. */
  ghost predicate Takes(s: State, d: Dev, n: string, drv: nat -> Reply, i: nat)
    requires d in s.devs
  {
    && i < |s.mods| && s.mods[i].bus == Some(n) && s.mods[i].cls.Some? && s.mods[i].driver.Some?
    && s.mods[i].driver.value.methods && s.mods[i].driver.value.name.Some?
    && (exists k :: 0 <= k < MAXUNIT && (s.devs[d].manual ==> k == s.devs[d].unit) &&
          SlotAt(s, s.mods[i].cls.value, k).None?)
    && drv(i).probe <= 0 && drv(i).attach == 0
  }

  /** The first entry that takes the device gets it; without one the device stays without a driver. */
  ghost predicate TakenFrom(s: State, u: State, d: Dev, n: string, drv: nat -> Reply, error: int)
    requires d in s.devs
  {
    && d in u.devs && (error == 0 || error == ENODEV)
    && (error == 0 <==> exists i :: Takes(s, d, n, drv, i))
    && (error == 0 ==> u.devs[d].attached && u.devs[d].mod.Some? && Takes(s, d, n, drv, u.devs[d].mod.value)
                       && forall k :: 0 <= k < u.devs[d].mod.value ==> !Takes(s, d, n, drv, k))
    && (error != 0 ==> !u.devs[d].attached && u.devs[d].mod.None?)
  }

  lemma {:induction false} TakesAccepts(s: State, d: Dev, n: string, drv: nat -> Reply, i: nat)
    requires d in s.devs
    ensures Takes(s, d, n, drv, i) <==> Accepts(s, d, n, drv, i)
  {}

  lemma {:induction false} SpelledOut(s: State, u: State, d: Dev, n: string, drv: nat -> Reply, error: int)
    requires d in s.devs && !s.devs[d].attached && !s.devs[d].fixedClass && ProbeResult(s, u, d, n, drv, error)
    ensures TakenFrom(s, u, d, n, drv, error)
  {
    forall i: nat ensures Takes(s, d, n, drv, i) <==> Accepts(s, d, n, drv, i) { TakesAccepts(s, d, n, drv, i); }
  }

  // ---------------------------------------------------------------- softcs and detaching outside of a probe

  /** A change of the softc alone. */
  lemma {:induction false} SoftcInv(s: State, u: State, d: Dev)
    requires Inv(s) && d in s.devs && StaysBound(s, u, d, s.devs[d].attached)
    requires u.devs[d].sc.isAlloc ==> u.devs[d].mod.Some?
    ensures Inv(u)
  {
    assert DevOk(s, d);
    LedgerKept(s, u, d, None);
    if u.devs[d].sc.isAlloc { OwnSoftc(s, u, d, None); }
    if s.devs[d].mod.Some? { assert SlotKept(s, u, d, None, ClassOf(s, s.devs[d].mod.value).value, s.devs[d].unit); }
    forall e | e in u.devs ensures DevOk(u, e) { if e != d { OthersOk(s, u, d, None, e); } }
    forall c, n ensures SlotOk(u, c, n) {
      assert SlotKept(s, u, d, None, c, n) && SlotOk(s, c, n);
    }
  }

  /** device_set_softc: the new pointer is what device_get_softc returns from then on; a lazily allocated
    softc of the device
    is freed, once, and no other softc, device or slot is touched. */
  lemma {:induction false} SetThenGet(s: State, d: Dev, p: Option<nat>)
    requires Inv(s) && d in s.devs
    ensures var u := SetSoftc(s, d, p);
      && Inv(u) && StaysBound(s, u, d, s.devs[d].attached)
      && GetSoftc(u, d) == u && u.devs[d].sc.ptr == p && u.allocs == s.allocs
      && (forall a :: u.freed[a] == if Owns(s, d, a) then 1 else s.freed[a])
  {
    assert DevOk(s, d);
    AttemptedNothing(s, d);
    ApplyKeeps(s, s, d, None, Set(p));
    var u := SetSoftc(s, d, p);
    SoftcInv(s, u, d);
    forall a: nat ensures u.freed[a] == if Owns(s, d, a) then 1 else s.freed[a] { assert Settled(s, u, d, a); }
  }

  /** device_get_softc: the first call may allocate; the memory is new, belongs to no other device and has not
    been freed;
    a second call changes nothing and returns the same pointer. */
  lemma {:induction false} GetTwice(s: State, d: Dev)
    requires Inv(s) && d in s.devs
    ensures var u := GetSoftc(s, d);
      && Inv(u) && StaysBound(s, u, d, s.devs[d].attached) && u.freed == s.freed
      && GetSoftc(u, d) == u
      && (u.allocs == s.allocs ==> u == s)
      && (u.allocs != s.allocs <==>
            var o := s.devs[d];
            !o.sc.isSet && o.mod.Some? && o.mod.value < |s.mods| && s.mods[o.mod.value].driver.Some? &&
            s.mods[o.mod.value].driver.value.size != 0)
      && (u.allocs != s.allocs ==>
           u.allocs == s.allocs + 1 && Owns(u, d, s.allocs) && u.freed[s.allocs] == 0 && !s.devs[d].sc.isSet)
      && (forall a, e :: Owns(u, d, a) && Owns(u, e, a) ==> e == d)
  {
    assert DevOk(s, d);
    AttemptedNothing(s, d);
    ApplyKeeps(s, s, d, None, Get);
    var u := GetSoftc(s, d);
    SoftcInv(s, u, d);
    if u.allocs != s.allocs { OwnSoftc(s, u, d, None); }
    forall a: nat, e: Dev | Owns(u, d, a) && Owns(u, e, a) ensures e == d { OneOwner(u, d, e, a); }
  }
}
