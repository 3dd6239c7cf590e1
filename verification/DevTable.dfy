/** The device table of module/freebsd_kern_conf.c and module/freebsd_devfs_devs.c: cdevs with
  reference counts, the global inode table, and the per-mount mirror of it.

  A step is one critical section of the source: the creation of a device, one level of
  destroy_devl, one reference taken or dropped, or the work of devfs_populate on one slot.
  Any number of mounts, operations and destroyers are in progress at the same time. */
module DevTable {
  import opened Basics

  type Dev = nat      // a struct cdev, identified by the order of allocation
  type Mnt = nat
  type Tid = nat

  /** struct cdev.  `live` is si_devsw != NULL; `alias` stands for SI_ALIAS and SI_CHILD,
    which are set and cleared together, and makes `parent` meaningful.  `frame` is the
    activation of destroy_devl that killed the device and still has to drop its creation
    reference. */
  datatype Cdev = Cdev(name: string, refs: int, live: bool, inode: nat, alias: bool, parent: Dev,
                       children: seq<Dev>, frame: Option<Frame>)

  /** The k-th activation of destroy_devl on the stack of thread t. */
  datatype Frame = Frame(t: Tid, k: nat)

  /** struct devfs_mount.  `dirent[i]` is the cdev for which the entry at i was made;
    `scan` is the slot devfs_populate looks at next while it runs. */
  datatype Mount = Mount(gen: nat, dirent: seq<Option<Dev>>, scan: Option<nat>)

  datatype State = State(
    inot: seq<Option<Dev>>,        // devfs_inot
    gen: nat,                      // devfs_generation
    devs: map<Dev, Cdev>,          // cdevs not yet freed
    next: Dev,                     // allocation order
    mounts: map<Mnt, Mount>,
    held: multiset<Dev>,           // references held by operations in flight
    dying: map<Tid, seq<Dev>>)     // recursion stacks of destroy_devl, creation reference not yet dropped

  // ---------------------------------------------------------------- operations

  /** A slot devfs_create may choose: a free one from 3 up, or none if there is none. */
  predicate ValidSlot(inot: seq<Option<Dev>>, slot: Option<nat>) {
    match slot
    case Some(i) => 3 <= i < |inot| && inot[i].None?
    case None => forall i :: 3 <= i < |inot| ==> inot[i].Some?
  }

  /** devfs_create for the new device d. */
  function Enter(s: State, d: Dev, c: Cdev, slot: Option<nat>): State
    requires ValidSlot(s.inot, slot)
  {
    match slot
    case None => s.(devs := s.devs[d := c.(inode := 0)])
    case Some(i) => s.(inot := s.inot[i := Some(d)], gen := s.gen + 1, devs := s.devs[d := c.(inode := i)])
  }

  const SPECNAMELEN: nat := 63

  /** What vsnprintf leaves in si_name: longer names are cut. */
  function Fit(name: string): string {
    if |name| <= SPECNAMELEN then name else name[..SPECNAMELEN]
  }

  function MakeDev(s: State, name: string, slot: Option<nat>): State
    requires ValidSlot(s.inot, slot)
  {
    Enter(s, s.next, Cdev(Fit(name), 1, true, 0, false, 0, [], None), slot).(next := s.next + 1)
  }

  function MakeAlias(s: State, p: Dev, name: string, slot: Option<nat>): State
    requires ValidSlot(s.inot, slot) && p in s.devs
  {
    var linked := s.(devs := s.devs[p := s.devs[p].(children := [s.next] + s.devs[p].children)]);
    Enter(linked, s.next, Cdev(Fit(name), 1, true, 0, true, p, [], None), slot).(next := s.next + 1)
  }

  function Stack(s: State, t: Tid): seq<Dev> {
    if t in s.dying then s.dying[t] else []
  }

  function Top(s: State, t: Tid): Dev
    requires Stack(s, t) != []
  {
    Stack(s, t)[|Stack(s, t)| - 1]
  }

  /** The locked part of destroy_devl, lines 356-366: the device is dead from here on. */
  function Kill(s: State, t: Tid, d: Dev): State
    requires d in s.devs
  {
    var c := s.devs[d];
    var unlinked :=
      if c.alias && c.parent in s.devs then
        s.devs[c.parent := s.devs[c.parent].(children := Without(s.devs[c.parent].children, {d}))]
      else s.devs;
    s.(gen := s.gen + 1,
       devs := unlinked[d := unlinked[d].(live := false, alias := false, frame := Some(Frame(t, |Stack(s, t)|)))],
       dying := s.dying[t := Stack(s, t) + [d]])
  }

  function Adjust(s: State, d: Dev, n: int): State
    requires d in s.devs
  {
    s.(devs := s.devs[d := s.devs[d].(refs := s.devs[d].refs + n)])
  }

  /** dev_rel: at zero the slot is cleared and the device is freed. */
  function DevRel(s: State, d: Dev): State
    requires d in s.devs && s.devs[d].inode < |s.inot|
  {
    var c := s.devs[d];
    if c.refs == 1 then
      s.(devs := s.devs - {d}, inot := if c.inode != 0 then s.inot[c.inode := None] else s.inot)
    else Adjust(s, d, -1)
  }

  /** The scan of mount m moves past slot i. */
  function Skip(s: State, m: Mnt, i: nat): State
    requires m in s.mounts
  {
    s.(mounts := s.mounts[m := s.mounts[m].(scan := Some(i + 1))])
  }

  /** ... after storing e in dm_dirent[i]. */
  function Store(s: State, m: Mnt, i: nat, e: Option<Dev>): State
    requires m in s.mounts && i < |s.mounts[m].dirent|
  {
    s.(mounts := s.mounts[m := s.mounts[m].(dirent := s.mounts[m].dirent[i := e], scan := Some(i + 1))])
  }

  /** devfs_populate, the body of its loop for slot i of mount m (lines 205-266). */
  function PopulateSlot(s: State, m: Mnt, i: nat): State
    requires m in s.mounts && i < |s.inot| && i < |s.mounts[m].dirent|
    requires s.inot[i].Some? ==> s.inot[i].value in s.devs && s.devs[s.inot[i].value].inode == i
  {
    match s.inot[i]
    case None => Skip(s, m, i)
    case Some(d) =>
      var entry := s.mounts[m].dirent[i];
      if !s.devs[d].live then
        if entry.Some? then DevRel(Store(s, m, i, None), d) else Skip(s, m, i)
      else if entry.Some? then Skip(s, m, i)            // reference taken and dropped again
      else Store(Adjust(s, d, 1), m, i, Some(d))        // the entry keeps the reference
  }

  // ---------------------------------------------------------------- the step system

  datatype Step =
    | Make(name: string, slot: Option<nat>)
    | Alias(p: Dev, name: string, slot: Option<nat>)
    | OpBegin(d: Dev)                 // dev_ref_cdevsw by a device operation
    | OpEnd(d: Dev)                   // its dev_rel
    | NewMount(m: Mnt)
    | PopBegin(m: Mnt)
    | PopSlot(m: Mnt)
    | PopEnd(m: Mnt)
    | DestroyBegin(t: Tid, d: Dev)    // destroy_dev
    | DestroyChild(t: Tid)            // the while loop of destroy_devl descends
    | DestroyEnd(t: Tid)              // the loop is done: dev_rel

  predicate Enabled(s: State, step: Step) {
    match step
    case Make(_, slot) => ValidSlot(s.inot, slot)
    // a driver makes aliases only of devices it has not destroyed
    case Alias(p, _, slot) => ValidSlot(s.inot, slot) && p in s.devs && s.devs[p].live
    case OpBegin(d) => d in s.devs
    case OpEnd(d) => d in s.held && d in s.devs && s.devs[d].inode < |s.inot|
    case NewMount(m) => m !in s.mounts
    case PopBegin(m) => m in s.mounts && s.mounts[m].scan.None?
    case PopSlot(m) =>
      && m in s.mounts && s.mounts[m].scan.Some? && s.mounts[m].scan.value < |s.inot|
      && var i := s.mounts[m].scan.value;
         i < |s.mounts[m].dirent| &&
         (s.inot[i].Some? ==> s.inot[i].value in s.devs && s.devs[s.inot[i].value].inode == i)
    case PopEnd(m) => m in s.mounts && s.mounts[m].scan == Some(|s.inot|)
    // destroy_dev is called once per device
    case DestroyBegin(t, d) => Stack(s, t) == [] && d in s.devs && s.devs[d].live
    case DestroyChild(t) =>
      && Stack(s, t) != [] && Top(s, t) in s.devs && s.devs[Top(s, t)].children != []
      && s.devs[Top(s, t)].children[0] in s.devs
    case DestroyEnd(t) =>
      && Stack(s, t) != [] && Top(s, t) in s.devs && s.devs[Top(s, t)].children == []
      && s.devs[Top(s, t)].inode < |s.inot|
  }

  /** The activation on top returns to its caller; its device keeps one reference to be dropped. */
  function Pop(s: State, t: Tid): State
    requires Stack(s, t) != [] && Top(s, t) in s.devs
  {
    s.(dying := s.dying[t := Stack(s, t)[..|Stack(s, t)| - 1]],
       devs := s.devs[Top(s, t) := s.devs[Top(s, t)].(frame := None)])
  }

  function Apply(s: State, step: Step): State
    requires Enabled(s, step)
  {
    match step
    case Make(name, slot) => MakeDev(s, name, slot)
    case Alias(p, name, slot) => MakeAlias(s, p, name, slot)
    case OpBegin(d) => if s.devs[d].live then Adjust(s, d, 1).(held := s.held + multiset{d}) else s
    case OpEnd(d) => DevRel(s.(held := s.held - multiset{d}), d)
    case NewMount(m) =>
      s.(mounts := s.mounts[m := Mount(0, seq(|s.inot|, _ => None), None)])
    case PopBegin(m) =>
      if s.mounts[m].gen == s.gen then s
      else s.(mounts := s.mounts[m := s.mounts[m].(gen := s.gen, scan := Some(0))])
    case PopSlot(m) => PopulateSlot(s, m, s.mounts[m].scan.value)
    case PopEnd(m) => s.(mounts := s.mounts[m := s.mounts[m].(scan := None)])
    case DestroyBegin(t, d) => Kill(s, t, d)
    case DestroyChild(t) => Kill(s, t, s.devs[Top(s, t)].children[0])
    case DestroyEnd(t) => DevRel(Pop(s, t), Top(s, t))
  }

  // ---------------------------------------------------------------- the invariant

  ghost function Living(s: State): set<Dev> {
    set d | d in s.devs && s.devs[d].live
  }

  /** The mounts that have an entry for d. */
  ghost function Entries(s: State, d: Dev): set<Mnt>
    requires d in s.devs
  {
    set m | m in s.mounts && s.devs[d].inode < |s.mounts[m].dirent| && s.mounts[m].dirent[s.devs[d].inode] == Some(d)
  }

  /** The creation reference has not been dropped: alive, or killed by an activation still running. */
  predicate Created(c: Cdev) {
    c.live || c.frame.Some?
  }

  /** The reference count equation, with one reference too many on `extra`. */
  ghost predicate Counted(s: State, d: Dev, extra: Option<Dev>)
    requires d in s.devs
  {
    && s.devs[d].refs == (if Created(s.devs[d]) then 1 else 0) + |Entries(s, d)| + s.held[d]
                         + (if extra == Some(d) then 1 else 0)
    && s.devs[d].refs > 0
  }

  ghost predicate SlotOk(s: State, i: nat) {
    i < |s.inot| && s.inot[i].Some? ==>
      3 <= i && s.inot[i].value in s.devs && s.devs[s.inot[i].value].inode == i && s.gen > 0
  }

  ghost predicate Placed(s: State, d: Dev)
    requires d in s.devs
  {
    && (s.devs[d].inode != 0 ==> s.devs[d].inode < |s.inot| && s.inot[s.devs[d].inode] == Some(d))
    && d < s.next
  }

  /** A device sits on at most one recursion stack, and only once it is dead. */
  ghost predicate Framed(s: State, d: Dev)
    requires d in s.devs
  {
    s.devs[d].frame.Some? ==>
      var f := s.devs[d].frame.value;
      !s.devs[d].live && f.k < |Stack(s, f.t)| && Stack(s, f.t)[f.k] == d
  }

  ghost predicate StackOk(s: State, t: Tid) {
    forall k :: 0 <= k < |Stack(s, t)| ==>
      Stack(s, t)[k] in s.devs && s.devs[Stack(s, t)[k]].frame == Some(Frame(t, k))
  }

  /** A live alias is on the children list of a parent that is not freed. */
  ghost predicate Related(s: State, d: Dev)
    requires d in s.devs
  {
    && (s.devs[d].alias ==>
          s.devs[d].live && s.devs[d].parent < d && s.devs[d].parent in s.devs &&
          d in s.devs[s.devs[d].parent].children)
    && (forall c :: c in s.devs[d].children ==> c in s.devs && s.devs[c].alias && s.devs[c].parent == d)
    && (s.devs[d].children != [] ==> Created(s.devs[d]))
  }

  predicate LiveSlot(s: State, i: nat) {
    i < |s.inot| && s.inot[i].Some? && s.inot[i].value in s.devs && s.devs[s.inot[i].value].live
  }

  /** Entries belong to the device now in their slot, and a mount that carries the current
    generation agrees with the table as far as it has looked. */
  ghost predicate MountOk(s: State, m: Mnt)
    requires m in s.mounts
  {
    var mt := s.mounts[m];
    && |mt.dirent| == |s.inot|
    && (mt.scan.Some? ==> mt.scan.value <= |s.inot|)
    && mt.gen <= s.gen
    && (forall i :: 0 <= i < |mt.dirent| && mt.dirent[i].Some? ==> s.inot[i] == mt.dirent[i])
    && (mt.gen == s.gen ==>
          forall i :: 0 <= i < |mt.dirent| && (mt.scan.Some? ==> i < mt.scan.value) ==>
            (mt.dirent[i].Some? <==> LiveSlot(s, i)))
  }

  ghost predicate Shape(s: State) {
    && |s.inot| > 3
    && (forall i :: SlotOk(s, i))
    && (forall t :: StackOk(s, t))
    && (forall m {:trigger MountOk(s, m)} :: m in s.mounts ==> MountOk(s, m))
    && (forall d {:trigger Placed(s, d)} :: d in s.devs ==> Placed(s, d))
    && (forall d {:trigger Framed(s, d)} :: d in s.devs ==> Framed(s, d))
    && (forall d {:trigger Related(s, d)} :: d in s.devs ==> Related(s, d))
    && (forall d :: d in s.held ==> d in s.devs)
  }

  ghost predicate Counts(s: State, extra: Option<Dev>) {
    forall d {:trigger Counted(s, d, extra)} :: d in s.devs ==> Counted(s, d, extra)
  }

  ghost predicate Inv(s: State) {
    Shape(s) && Counts(s, None)
  }
}
