/** The newbus emulation of module/freebsd_kern_bus.c: a tree of devices, the unit slots of the
  device classes, and the drivers that are tried on a device.  Driver methods are oracles that
  return a result and do not edit the tree. */
module DeviceTree {
  import opened Basics

  type Dev = nat
  type Class = nat

  const MAXUNIT: nat := 64     // DEVCLASS_MAXUNIT
  const ENODEV: int := 19

  /** struct __driver */
  datatype Driver = Driver(name: Option<string>, methods: bool, size: nat)

  /** struct bsd_module_data: what matters for matching; `cls` is devclass_pp. */
  datatype Module = Module(bus: Option<string>, name: Option<string>, driver: Option<Driver>, cls: Option<Class>)

  /** dev_sc with its two flags; `ptr` is the address, None for NULL. */
  datatype Softc = Softc(ptr: Option<nat>, isSet: bool, isAlloc: bool)

  const NOSOFTC := Softc(None, false, false)

  /** struct __device */
  datatype Device = Device(order: int, children: seq<Dev>, mod: Option<nat>, unit: nat, manual: bool,
                           attached: bool, fixedClass: bool, sc: Softc)

  /** `classes` holds the devclasses allocated so far; softc allocations are numbered, and
    `freed` counts how often each was freed. */
  datatype State = State(mods: seq<Module>, devs: map<Dev, Device>, next: Dev,
                         classes: map<Class, seq<Option<Dev>>>, allocs: nat, freed: multiset<nat>)

  // ---------------------------------------------------------------- slots

  /** devclass_get_device */
  function SlotAt(s: State, c: Class, n: nat): Option<Dev> {
    if c in s.classes && n < |s.classes[c]| then s.classes[c][n] else None
  }

  /** The class of module i, if it has one. */
  function ClassOf(s: State, i: nat): Option<Class> {
    if i < |s.mods| then s.mods[i].cls else None
  }

  predicate Holds(s: State, d: Dev, c: Class, n: nat) {
    SlotAt(s, c, n) == Some(d)
  }

  /** A device holds exactly the slot that its module and its unit name. */
  ghost predicate DevOk(s: State, d: Dev)
    requires d in s.devs
  {
    var o := s.devs[d];
    && (o.mod.Some? ==> ClassOf(s, o.mod.value).Some? && Holds(s, d, ClassOf(s, o.mod.value).value, o.unit))
    && (o.attached ==> o.mod.Some?)
    && (!o.attached && !o.fixedClass ==> o.mod.None?)
    && (o.fixedClass ==> o.mod.Some?)
    && (o.sc.isAlloc ==>
         o.mod.Some? && o.sc.isSet && o.sc.ptr.Some? && o.sc.ptr.value < s.allocs && s.freed[o.sc.ptr.value] == 0)
    && d < s.next
  }

  ghost predicate SlotOk(s: State, c: Class, n: nat) {
    SlotAt(s, c, n).Some? ==>
      var d := SlotAt(s, c, n).value;
      d in s.devs && s.devs[d].unit == n && s.devs[d].mod.Some? && ClassOf(s, s.devs[d].mod.value) == Some(c)
  }

  predicate SameSoftc(a: Softc, b: Softc) {
    a.isAlloc && b.isAlloc && a.ptr == b.ptr
  }

  /** Each lazily allocated softc belongs to at most one device and is freed at most once. */
  ghost predicate LedgerOk(s: State) {
    && (forall a :: s.freed[a] <= 1)
    && (forall a :: a in s.freed ==> a < s.allocs)
    && (forall d, e :: d in s.devs && e in s.devs && SameSoftc(s.devs[d].sc, s.devs[e].sc) ==> d == e)
  }

  ghost predicate Inv(s: State) {
    && (forall c :: c in s.classes ==> |s.classes[c]| == MAXUNIT)
    && (forall d {:trigger DevOk(s, d)} :: d in s.devs ==> DevOk(s, d))
    && (forall c, n :: SlotOk(s, c, n))
    && LedgerOk(s)
  }

  // ---------------------------------------------------------------- operations on one device

  function Put(s: State, d: Dev, o: Device): State {
    s.(devs := s.devs[d := o])
  }

  /** devclass_create */
  function CreateClass(s: State, c: Class): State {
    if c in s.classes then s else s.(classes := s.classes[c := seq(MAXUNIT, _ => None)])
  }

  function SetSlot(s: State, c: Class, n: nat, v: Option<Dev>): State
    requires c in s.classes && n < |s.classes[c]|
  {
    s.(classes := s.classes[c := s.classes[c][n := v]])
  }

  /** The unit devclass_add_device would choose: the wired one, or the lowest free one. */
  ghost predicate UnitFor(s: State, c: Class, o: Device, u: Option<nat>) {
    if o.manual then
      u == if o.unit < MAXUNIT && SlotAt(s, c, o.unit).None? then Some(o.unit) else None
    else match u
      case Some(n) => n < MAXUNIT && SlotAt(s, c, n).None? && forall k :: 0 <= k < n ==> SlotAt(s, c, k).Some?
      case None => forall k :: 0 <= k < MAXUNIT ==> SlotAt(s, c, k).Some?
  }

  /** devclass_delete_device(dev->dev_module, dev) */
  function DeleteSlot(s: State, d: Dev): State
    requires d in s.devs
  {
    var o := s.devs[d];
    if o.mod.None? then s
    else
      var c := ClassOf(s, o.mod.value);
      var cleared :=
        if c.Some? && Holds(s, d, c.value, o.unit) && c.value in s.classes && o.unit < |s.classes[c.value]|
        then SetSlot(s, c.value, o.unit, None) else s;
      Put(cleared, d, o.(mod := None))
  }

  /** device_set_softc */
  function SetSoftc(s: State, d: Dev, p: Option<nat>): State
    requires d in s.devs
  {
    var sc := s.devs[d].sc;
    var freed := if sc.isAlloc && sc.ptr.Some? then s.freed + multiset{sc.ptr.value} else s.freed;
    Put(s, d, s.devs[d].(sc := Softc(p, true, false))).(freed := freed)
  }

  /** device_get_softc: allocates on first use if the driver asks for memory. */
  function GetSoftc(s: State, d: Dev): State
    requires d in s.devs
  {
    var o := s.devs[d];
    if !o.sc.isSet && !o.sc.isAlloc && o.mod.Some? && o.mod.value < |s.mods| &&
       s.mods[o.mod.value].driver.Some? && s.mods[o.mod.value].driver.value.size != 0
    then Put(s, d, o.(sc := Softc(Some(s.allocs), true, true))).(allocs := s.allocs + 1)
    else s
  }

  /** What device_detach returns: the driver is asked only if the device is attached. */
  function DetachError(s: State, d: Dev, fail: Dev -> int): int
    requires d in s.devs
  {
    if s.devs[d].mod.Some? && s.devs[d].attached then fail(d) else 0
  }

  /** device_set_softc(dev, NULL) and dev_softc_set = 0, on a device that is no longer attached */
  function Bare(s: State, d: Dev): State
    requires d in s.devs
  {
    var sc := s.devs[d].sc;
    var freed := if sc.isAlloc && sc.ptr.Some? then s.freed + multiset{sc.ptr.value} else s.freed;
    Put(s, d, s.devs[d].(attached := false, sc := NOSOFTC)).(freed := freed)
  }

  /** device_detach when it succeeds */
  function Detach(s: State, d: Dev): State
    requires d in s.devs
  {
    if s.devs[d].mod.None? then s
    else if s.devs[d].fixedClass then Bare(s, d)
    else DeleteSlot(Bare(s, d), d)
  }
}
