/** The bus over every sequence of calls. */
module DeviceRuns {
  import opened Basics
  import opened DeviceTree
  import opened DeviceDelete
  import opened DeviceProbe
  import opened DeviceForest

  /** A call with its arguments, what the drivers answered, and what it returned. */
  datatype Call =
    | SetSc(d: Dev, p: Option<nat>)
    | GetSc(d: Dev)
    | DetachDev(d: Dev, fail: Dev -> int)
    | Probe(pr: Option<Dev>, d: Dev, drv: nat -> Reply, error: int)
    | Make(name: Option<string>, unit: int, memory: bool, r: Option<Dev>)
    | Add(pa: Dev, order: int, name: Option<string>, unit: int, memory: bool, r: Option<Dev>, made: State, k: nat)
    | Delete(pr: Option<Dev>, d: Dev, fail: Dev -> int, error: int, gone: seq<Dev>)

  /** The call leads from s to u. */
  ghost predicate Performs(s: State, u: State, call: Call)
    requires Inv(s) && Forest(s)
  {
    match call
    case SetSc(d, p) => d in s.devs && u == SetSoftc(s, d, p)
    case GetSc(d) => d in s.devs && u == GetSoftc(s, d)
    case DetachDev(d, fail) => d in s.devs && u == if DetachError(s, d, fail) == 0 then Detach(s, d) else s
    case Probe(p, d, drv, error) => d in s.devs && ListedBy(s, p, d) && ProbeResult(s, u, d, NameOf(s, p), drv, error)
    case Make(name, unit, memory, r) => Made(s, u, name, unit, memory, r)
    case Add(p, order, name, unit, memory, r, made, k) =>
      && p in s.devs && Made(s, made, name, unit, memory, r)
      && (if r.Some? then ChildListed(made, u, p, r.value, order, k) else u == made)
    case Delete(p, d, fail, error, gone) =>
      d in s.devs && d < s.next && ListedBy(s, p, d) && Outcome(s, u, TreeOf(s, d), fail, error, gone)
  }

  lemma {:induction false} MadeForest(s: State, u: State, name: Option<string>, unit: int, memory: bool, r: Option<Dev>)
    requires Inv(s) && Forest(s) && Made(s, u, name, unit, memory, r)
    ensures Forest(u)
  {
    MadeKeepsInv(s, u, name, unit, memory, r);
    forall p | p in u.devs ensures ListOk(u, p) {
      if p in s.devs { assert ListOk(s, p); }
    }
  }

  lemma {:induction false} AddCallKeeps(s: State, u: State, call: Call)
    requires Inv(s) && Forest(s) && call.Add? && Performs(s, u, call)
    ensures Inv(u) && Forest(u)
  {
    MadeKeepsInv(s, call.made, call.name, call.unit, call.memory, call.r);
    if call.r.None? {
      MadeForest(s, u, call.name, call.unit, call.memory, call.r);
    } else {
      ListedKeepsInv(call.made, u, call.pa, call.r.value, call.order, call.k);
      ChildKeepsForest(s, call.made, u, call.pa, call.r.value, call.order, call.k);
    }
  }

  lemma {:induction false} ProbeKeeps(s: State, u: State, d: Dev, bus: string, drv: nat -> Reply, error: int)
    requires Inv(s) && Forest(s) && d in s.devs && ProbeResult(s, u, d, bus, drv, error)
    ensures Inv(u) && Forest(u)
  {
    if !s.devs[d].attached {
      assert DevOk(s, d);
      if s.devs[d].fixedClass {
        FixedInv(s, u, d, error == 0);
      } else if exists i :: Accepts(s, d, bus, drv, i) {
        var i :| First(s, d, bus, drv, i) && Bound(s, u, d, i, true);
        BoundInv(s, u, d, i);
      } else {
        UnboundInv(s, u, d);
      }
      ProbeKeepsForest(s, u, d);
    }
  }

  lemma {:induction false} DetachList(s: State, d: Dev)
    requires d in s.devs
    ensures var u := Detach(s, d);
      d in u.devs && u.devs[d].children == s.devs[d].children && u.devs[d].order == s.devs[d].order
  {}

  lemma {:induction false} DetachForest(s: State, d: Dev)
    requires Inv(s) && Forest(s) && d in s.devs
    ensures Forest(Detach(s, d))
  {
    assert DevOk(s, d);
    DetachFrame(s, d);
    DetachList(s, d);
    var u := Detach(s, d);
    forall p | p in u.devs ensures ListOk(u, p) { assert ListOk(s, p); }
  }

  /** What device_set_softc and device_detach promise, as calls of a run. */
  lemma {:induction false} SoftcSet(s: State, d: Dev, p: Option<nat>)
    requires d in s.devs
    ensures Inv(s) ==> Inv(SetSoftc(s, d, p))
    ensures Inv(s) ==> forall a :: SetSoftc(s, d, p).freed[a] == if Owns(s, d, a) then 1 else s.freed[a]
    ensures Inv(s) && Forest(s) ==> Forest(SetSoftc(s, d, p)) && Performs(s, SetSoftc(s, d, p), SetSc(d, p))
  {
    if Inv(s) {
      SetThenGet(s, d, p);
      if Forest(s) { CallKeeps(s, SetSoftc(s, d, p), SetSc(d, p)); }
    }
  }

  lemma {:induction false} Detached(s: State, d: Dev, fail: Dev -> int)
    requires d in s.devs
    ensures Inv(s) && Forest(s) ==>
      var u := if DetachError(s, d, fail) == 0 then Detach(s, d) else s;
      Inv(u) && Forest(u) && Performs(s, u, DetachDev(d, fail))
  {
    if Inv(s) && Forest(s) {
      DetachInv(s, d);
      DetachForest(s, d);
    }
  }

  lemma {:induction false} CallKeeps(s: State, u: State, call: Call)
    requires Inv(s) && Forest(s) && Performs(s, u, call)
    ensures Inv(u) && Forest(u)
  {
    match call
    case SetSc(d, p) =>
      SetThenGet(s, d, p);
      ProbeKeepsForest(s, u, d);
    case GetSc(d) =>
      GetTwice(s, d);
      ProbeKeepsForest(s, u, d);
    case DetachDev(d, _) =>
      DetachInv(s, d);
      DetachForest(s, d);
    case Probe(p, d, drv, error) => ProbeKeeps(s, u, d, NameOf(s, p), drv, error);
    case Make(name, unit, memory, r) =>
      MadeKeepsInv(s, u, name, unit, memory, r);
      MadeForest(s, u, name, unit, memory, r);
    case Add(_, _, _, _, _, _, _, _) => AddCallKeeps(s, u, call);
    case Delete(_, d, _, _, gone) =>
      RemovedKeepsInv(s, u, Elements(gone));
      RemovedKeepsForest(s, u, Elements(gone));
  }

  // ---------------------------------------------------------------- runs

  /** No devices yet. */
  predicate Start(s: State) {
    s.devs == map[] && s.next == 0 && s.classes == map[] && s.allocs == 0 && s.freed == multiset{}
  }

  /** ss are the states of a run, calls[i] leads from ss[i] to ss[i + 1]. */
  ghost predicate Run(ss: seq<State>, calls: seq<Call>) {
    |ss| == |calls| + 1 && Start(ss[0]) && forall i :: 0 <= i < |calls| ==> Follows(ss, calls, i)
  }

  /** Calls are described for well-formed states; that no other state comes up is what RunKeeps shows. */
  ghost predicate Follows(ss: seq<State>, calls: seq<Call>, i: nat)
    requires i < |calls| && |ss| == |calls| + 1
  {
    Inv(ss[i]) && Forest(ss[i]) ==> Performs(ss[i], ss[i + 1], calls[i])
  }

  lemma {:induction false} RunKeeps(ss: seq<State>, calls: seq<Call>, i: nat)
    requires Run(ss, calls) && i < |ss|
    ensures Inv(ss[i]) && Forest(ss[i])
  {
    if i > 0 {
      RunKeeps(ss, calls, i - 1);
      assert Follows(ss, calls, i - 1);
      CallKeeps(ss[i - 1], ss[i], calls[i - 1]);
    }
  }

  /** After any sequence of calls on a new bus: a slot names an existing device of that unit whose driver has
    that class,
    a device with a driver is in exactly the slot of its unit, no device is in two slots, and no lazily
    allocated softc is
    shared, lost to its device or freed twice. */
  lemma {:induction false} SlotsInEveryRun(ss: seq<State>, calls: seq<Call>, i: nat)
    requires Run(ss, calls) && i < |ss|
    ensures var s := ss[i];
      && (forall c: Class, n: nat, d: Dev :: Holds(s, d, c, n) ==>
           d in s.devs && s.devs[d].unit == n && s.devs[d].mod.Some? && ClassOf(s, s.devs[d].mod.value) == Some(c))
      && (forall d: Dev, c: Class, n: nat, c': Class, n': nat :: Holds(s, d, c, n) && Holds(s, d, c', n') ==>
           c == c' && n == n')
      && (forall d :: d in s.devs && s.devs[d].mod.Some? ==> exists c :: Holds(s, d, c, s.devs[d].unit))
      && (forall a :: s.freed[a] <= 1)
      && (forall d, e, a :: Owns(s, d, a) && Owns(s, e, a) ==> d == e && s.freed[a] == 0)
  {
    RunKeeps(ss, calls, i);
    var s := ss[i];
    forall c: Class, n: nat, d: Dev | Holds(s, d, c, n)
      ensures d in s.devs && s.devs[d].unit == n && s.devs[d].mod.Some? && ClassOf(s, s.devs[d].mod.value) == Some(c)
    {
      assert SlotOk(s, c, n);
    }
    forall d | d in s.devs && s.devs[d].mod.Some? ensures exists c :: Holds(s, d, c, s.devs[d].unit) {
      assert DevOk(s, d);
      assert Holds(s, d, ClassOf(s, s.devs[d].mod.value).value, s.devs[d].unit);
    }
    forall d: Dev, e: Dev, a: nat | Owns(s, d, a) && Owns(s, e, a) ensures d == e && s.freed[a] == 0 {
      OneOwner(s, d, e, a);
      assert DevOk(s, d);
    }
  }
}
