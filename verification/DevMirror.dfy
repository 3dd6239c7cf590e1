/** The device table together with the directory trees of all mounts: populate keeps both. */
module DevMirror {
  import opened Basics
  import T = DevTable
  import S = DevTableSafety
  import C = DevConf
  import G = DevGiven
  import opened DevPath
  import opened DevMount

  /** What a mount shows: its tree, and dm_dirent as entries of the tree. */
  datatype Dirs = Dirs(tree: Tree, dirent: map<nat, Node>)

  datatype World = World(tab: T.State, dirs: map<T.Mnt, Dirs>)

  /** The slot that the running populate of mount m looks at, in the mount's own table. */
  function EntryAt(tab: T.State, m: T.Mnt, i: nat): Option<T.Dev> {
    if m in tab.mounts && i < |tab.mounts[m].dirent| then tab.mounts[m].dirent[i] else None
  }

  function NameOf(tab: T.State, d: T.Dev): string {
    if d in tab.devs then tab.devs[d].name else ""
  }

  function IsAlias(tab: T.State, d: T.Dev): bool {
    d in tab.devs && tab.devs[d].alias
  }

  /** devfs_populate's work on slot i in the tree of the mount, given what it did in the table. */
  ghost predicate Follows(ds: Dirs, ds': Dirs, tab: T.State, tab': T.State, m: T.Mnt, i: nat) {
    match (EntryAt(tab, m, i), EntryAt(tab', m, i))
    case (None, Some(d)) =>
      i in ds'.dirent && ds'.dirent == ds.dirent[i := ds'.dirent[i]] &&
        EnteredAs(ds.tree, ds'.tree, ds'.dirent[i], NameOf(tab, d), i, IsAlias(tab, d))
    case (Some(_), None) =>
      i in ds.dirent && ds.dirent[i] in ds.tree.ns && ds.tree.ns[ds.dirent[i]].dir in ds.tree.ns ==>
        ds' == Dirs(Remove(ds.tree, ds.dirent[i]), ds.dirent - {i})
    case _ => ds' == ds
  }

  /** A step of the table, with what populate does to the tree of its mount. */
  ghost predicate Next(w: World, w': World, step: T.Step) {
    && T.Enabled(w.tab, step) && w'.tab == T.Apply(w.tab, step)
    && (if step.NewMount? then w'.dirs == w.dirs[step.m := Dirs(NEWTREE, map[])]
        else if step.PopSlot? && step.m in w.dirs then
          && step.m in w'.dirs && w'.dirs == w.dirs[step.m := w'.dirs[step.m]]
          && Follows(w.dirs[step.m], w'.dirs[step.m], w.tab, w'.tab, step.m, w.tab.mounts[step.m].scan.value)
        else w'.dirs == w.dirs)
  }

  // ---------------------------------------------------------------- the invariant

  /** The names of the cdevs for which mount m has entries. */
  function Names(tab: T.State, m: T.Mnt, slots: set<nat>): map<nat, string> {
    map i | i in slots :: var e := EntryAt(tab, m, i); if e.Some? then NameOf(tab, e.value) else ""
  }

  /** The tree ds is that of mount m with the table tab. */
  ghost predicate Agrees(ds: Dirs, tab: T.State, m: T.Mnt) {
    && (forall i :: i in ds.dirent <==> EntryAt(tab, m, i).Some?)
    && MountOk(ds.tree, ds.dirent, Names(tab, m, ds.dirent.Keys))
  }

  ghost predicate Mirrors(w: World, m: T.Mnt)
    requires m in w.dirs
  {
    m in w.tab.mounts && Agrees(w.dirs[m], w.tab, m)
  }

  ghost predicate Inv(w: World) {
    && T.Inv(w.tab) && |w.tab.inot| <= INOMOUNT && w.dirs.Keys == w.tab.mounts.Keys
    && (forall m {:trigger Mirrors(w, m)} :: m in w.dirs ==> Mirrors(w, m))
  }

  // ---------------------------------------------------------------- what steps leave alone

  lemma {:induction false} RelName(s: T.State, d: T.Dev, x: T.Dev)
    requires d in s.devs && s.devs[d].inode < |s.inot| && x in s.devs
    ensures x in T.DevRel(s, d).devs ==> T.DevRel(s, d).devs[x].name == s.devs[x].name
  {}

  lemma {:induction false} PopSlotName(s: T.State, m: T.Mnt, d: T.Dev)
    requires T.Enabled(s, T.PopSlot(m)) && d in s.devs && d in T.Apply(s, T.PopSlot(m)).devs
    ensures T.Apply(s, T.PopSlot(m)).devs[d].name == s.devs[d].name
  {
    var i := s.mounts[m].scan.value;
    if s.inot[i].Some? { RelName(T.Store(s, m, i, None), s.inot[i].value, d); }
  }

  lemma {:induction false} NameKept(s: T.State, step: T.Step, d: T.Dev)
    requires T.Enabled(s, step) && d in s.devs && d < s.next && d in T.Apply(s, step).devs
    ensures T.Apply(s, step).devs[d].name == s.devs[d].name
  {
    match step
    case OpEnd(x) => RelName(s.(held := s.held - multiset{x}), x, d);
    case PopSlot(m) => PopSlotName(s, m, d);
    case DestroyEnd(t) => RelName(T.Pop(s, t), T.Top(s, t), d);
    case _ =>
  }

  /** Only populate on m changes the entries of m, and only at the slot it looks at. */
  lemma {:induction false} EntriesKept(s: T.State, step: T.Step, m: T.Mnt, j: nat)
    requires T.Enabled(s, step) && m in s.mounts
    requires step == T.PopSlot(m) ==> s.mounts[m].scan != Some(j)
    ensures m in T.Apply(s, step).mounts && EntryAt(T.Apply(s, step), m, j) == EntryAt(s, m, j)
  {
    if step.PopSlot? { PopSlotEntries(s, step.m, m, j); }
  }

  lemma {:induction false} PopSlotEntries(s: T.State, p: T.Mnt, m: T.Mnt, j: nat)
    requires T.Enabled(s, T.PopSlot(p)) && m in s.mounts && (p == m ==> s.mounts[m].scan != Some(j))
    ensures m in T.Apply(s, T.PopSlot(p)).mounts && EntryAt(T.Apply(s, T.PopSlot(p)), m, j) == EntryAt(s, m, j)
  {}

  /** An entry that stays keeps the name of its device. */
  lemma {:induction false} EntryName(s: T.State, step: T.Step, m: T.Mnt, j: nat)
    requires T.Inv(s) && T.Enabled(s, step) && m in s.mounts && T.Inv(T.Apply(s, step))
    requires m in T.Apply(s, step).mounts && EntryAt(T.Apply(s, step), m, j) == EntryAt(s, m, j)
    requires EntryAt(s, m, j).Some?
    ensures NameOf(T.Apply(s, step), EntryAt(s, m, j).value) == NameOf(s, EntryAt(s, m, j).value)
  {
    var s', d := T.Apply(s, step), EntryAt(s, m, j).value;
    assert T.MountOk(s, m) && T.SlotOk(s, j) && T.MountOk(s', m) && T.SlotOk(s', j);
    assert T.Placed(s, d);
    NameKept(s, step, d);
  }

  // ---------------------------------------------------------------- the invariant is kept

  /** The names of entries that stay. */
  lemma {:induction false} NamesKept(s: T.State, step: T.Step, m: T.Mnt, slots: set<nat>)
    requires T.Inv(s) && T.Enabled(s, step) && m in s.mounts && T.Inv(T.Apply(s, step)) && m in T.Apply(s, step).mounts
    requires forall j :: j in slots ==> EntryAt(s, m, j).Some? && EntryAt(T.Apply(s, step), m, j) == EntryAt(s, m, j)
    ensures Names(T.Apply(s, step), m, slots) == Names(s, m, slots)
  {
    forall j | j in slots ensures Names(T.Apply(s, step), m, slots)[j] == Names(s, m, slots)[j] {
      EntryName(s, step, m, j);
    }
  }

  /** A mount at which populate does nothing in this step. */
  lemma {:induction false} QuietMount(w: World, w': World, step: T.Step, m: T.Mnt)
    requires Inv(w) && Next(w, w', step) && T.Inv(w'.tab) && m in w.dirs && m in w'.tab.mounts && m in w'.dirs
    requires w'.dirs[m] == w.dirs[m]
    requires forall j :: EntryAt(w'.tab, m, j) == EntryAt(w.tab, m, j)
    ensures Mirrors(w', m)
  {
    assert Mirrors(w, m);
    NamesKept(w.tab, step, m, w.dirs[m].dirent.Keys);
  }

  /** The entries of mount m are the same but for slot i. */
  ghost predicate SameBut(tab: T.State, tab': T.State, m: T.Mnt, i: nat) {
    forall j :: j != i ==> EntryAt(tab', m, j) == EntryAt(tab, m, j)
  }

  lemma {:induction false} EnterAgrees(ds: Dirs, ds': Dirs, tab: T.State, tab': T.State, m: T.Mnt, i: nat, d: T.Dev)
    requires Agrees(ds, tab, m) && SameBut(tab, tab', m, i) && EntryAt(tab, m, i).None?
    requires EntryAt(tab', m, i) == Some(d)
    requires 3 <= i < INOMOUNT && NameOf(tab', d) == NameOf(tab, d) && Follows(ds, ds', tab, tab', m, i)
    requires Names(tab', m, ds.dirent.Keys) == Names(tab, m, ds.dirent.Keys)
    ensures Agrees(ds', tab', m)
  {
    var name := NameOf(tab, d);
    EnterOk(ds.tree, ds'.tree, ds'.dirent[i], ds.dirent, Names(tab, m, ds.dirent.Keys), name, i, IsAlias(tab, d));
    assert Names(tab', m, ds'.dirent.Keys) == Names(tab', m, ds.dirent.Keys)[i := name];
  }

  lemma {:induction false} LeaveAgrees(ds: Dirs, ds': Dirs, tab: T.State, tab': T.State, m: T.Mnt, i: nat)
    requires Agrees(ds, tab, m) && SameBut(tab, tab', m, i) && EntryAt(tab, m, i).Some? && EntryAt(tab', m, i).None?
    requires Names(tab', m, ds.dirent.Keys - {i}) == Names(tab, m, ds.dirent.Keys - {i})
    requires Follows(ds, ds', tab, tab', m, i)
    ensures Agrees(ds', tab', m)
  {
    var names := Names(tab, m, ds.dirent.Keys);
    LeaveKeeps(ds.tree, ds.dirent, names, i);
    assert (ds.dirent - {i}).Keys == ds.dirent.Keys - {i};
    assert Names(tab, m, ds.dirent.Keys - {i}) == names - {i};
  }

  /** Populate makes an entry. */
  lemma {:induction false} EnterMount(w: World, w': World, m: T.Mnt, i: nat, d: T.Dev)
    requires Inv(w) && Next(w, w', T.PopSlot(m)) && T.Inv(w'.tab) && m in w.dirs
    requires w.tab.mounts[m].scan == Some(i) && EntryAt(w.tab, m, i).None? && EntryAt(w'.tab, m, i) == Some(d)
    ensures Mirrors(w', m)
  {
    var step := T.PopSlot(m);
    EntriesKept(w.tab, step, m, i + 1);
    assert Mirrors(w, m) && T.MountOk(w'.tab, m) && T.SlotOk(w'.tab, i);
    EnteredName(w.tab, m, i, d);
    forall j ensures j != i ==> EntryAt(w'.tab, m, j) == EntryAt(w.tab, m, j) {
      if j != i { EntriesKept(w.tab, step, m, j); }
    }
    NamesKept(w.tab, step, m, w.dirs[m].dirent.Keys);
    EnterAgrees(w.dirs[m], w'.dirs[m], w.tab, w'.tab, m, i, d);
  }

  /** The device that populate enters is in the table before and after, under the same name. */
  lemma {:induction false} EnteredName(s: T.State, m: T.Mnt, i: nat, d: T.Dev)
    requires T.Inv(s) && T.Enabled(s, T.PopSlot(m)) && s.mounts[m].scan == Some(i)
    requires EntryAt(s, m, i).None? && EntryAt(T.Apply(s, T.PopSlot(m)), m, i) == Some(d)
    ensures d in s.devs && NameOf(T.Apply(s, T.PopSlot(m)), d) == NameOf(s, d)
  {
    assert T.MountOk(s, m) && T.SlotOk(s, i);
    assert s.inot[i] == Some(d);
  }

  /** Populate drops an entry. */
  lemma {:induction false} LeaveMount(w: World, w': World, m: T.Mnt, i: nat)
    requires Inv(w) && Next(w, w', T.PopSlot(m)) && T.Inv(w'.tab) && m in w.dirs
    requires w.tab.mounts[m].scan == Some(i) && EntryAt(w.tab, m, i).Some? && EntryAt(w'.tab, m, i).None?
    ensures Mirrors(w', m)
  {
    var step := T.PopSlot(m);
    assert Mirrors(w, m);
    forall j ensures j != i ==> EntryAt(w'.tab, m, j) == EntryAt(w.tab, m, j) {
      if j != i { EntriesKept(w.tab, step, m, j); }
    }
    EntriesKept(w.tab, step, m, i + 1);
    NamesKept(w.tab, step, m, w.dirs[m].dirent.Keys - {i});
    LeaveAgrees(w.dirs[m], w'.dirs[m], w.tab, w'.tab, m, i);
  }

  /** Populate never replaces an entry by another one. */
  lemma {:induction false} SameEntryAt(s: T.State, m: T.Mnt, i: nat)
    requires T.Enabled(s, T.PopSlot(m)) && s.mounts[m].scan == Some(i)
    requires EntryAt(s, m, i).Some? <==> EntryAt(T.Apply(s, T.PopSlot(m)), m, i).Some?
    ensures EntryAt(T.Apply(s, T.PopSlot(m)), m, i) == EntryAt(s, m, i)
  {}

  lemma {:induction false} PopSlotMirrors(w: World, w': World, m: T.Mnt)
    requires Inv(w) && Next(w, w', T.PopSlot(m)) && T.Inv(w'.tab) && m in w.dirs
    ensures Mirrors(w', m)
  {
    var step, i := T.PopSlot(m), w.tab.mounts[m].scan.value;
    var a, b := EntryAt(w.tab, m, i), EntryAt(w'.tab, m, i);
    EntriesKept(w.tab, step, m, i + 1);
    if a.None? && b.Some? {
      EnterMount(w, w', m, i, b.value);
    } else if a.Some? && b.None? {
      LeaveMount(w, w', m, i);
    } else {
      SameEntryAt(w.tab, m, i);
      forall j ensures EntryAt(w'.tab, m, j) == EntryAt(w.tab, m, j) { if j != i { EntriesKept(w.tab, step, m, j); } }
      QuietMount(w, w', step, m);
    }
  }

  lemma {:induction false} NewMirrors(w: World, w': World, m: T.Mnt)
    requires Next(w, w', T.NewMount(m))
    ensures m in w'.dirs && Mirrors(w', m)
  {
    NewMountOk();
    assert forall j :: EntryAt(w'.tab, m, j).None?;
    assert Names(w'.tab, m, {}) == map[];
  }

  lemma {:induction false} StepMirrors(w: World, w': World, step: T.Step, m: T.Mnt)
    requires Inv(w) && Next(w, w', step) && T.Inv(w'.tab) && m in w'.dirs
    ensures Mirrors(w', m)
  {
    if step == T.NewMount(m) {
      NewMirrors(w, w', m);
    } else if step == T.PopSlot(m) {
      PopSlotMirrors(w, w', m);
    } else {
      forall j ensures EntryAt(w'.tab, m, j) == EntryAt(w.tab, m, j) { EntriesKept(w.tab, step, m, j); }
      EntriesKept(w.tab, step, m, 0);
      QuietMount(w, w', step, m);
    }
  }

  lemma {:induction false} SameMounts(s: T.State, step: T.Step)
    requires T.Enabled(s, step)
    ensures T.Apply(s, step).mounts.Keys == (if step.NewMount? then s.mounts.Keys + {step.m} else s.mounts.Keys)
    ensures |T.Apply(s, step).inot| == |s.inot|
  {
    match step
    case PopSlot(m) => PopSlotMounts(s, m);
    case _ =>
  }

  lemma {:induction false} PopSlotMounts(s: T.State, m: T.Mnt)
    requires T.Enabled(s, T.PopSlot(m))
    ensures T.Apply(s, T.PopSlot(m)).mounts.Keys == s.mounts.Keys && |T.Apply(s, T.PopSlot(m)).inot| == |s.inot|
  {}

  lemma {:induction false} StepKeepsInv(w: World, w': World, step: T.Step)
    requires Inv(w) && Next(w, w', step)
    ensures Inv(w')
  {
    S.StepKeepsInv(w.tab, step);
    SameMounts(w.tab, step);
    forall m | m in w'.dirs ensures Mirrors(w', m) { StepMirrors(w, w', step, m); }
  }

  // ---------------------------------------------------------------- runs

  ghost predicate Init(w: World) {
    S.Init(w.tab) && w.dirs == map[] && |w.tab.inot| <= INOMOUNT
  }

  /** ws are the states of a run, steps[i] leads from ws[i] to ws[i + 1]. */
  ghost predicate Run(ws: seq<World>, steps: seq<T.Step>) {
    |ws| == |steps| + 1 && Init(ws[0]) && forall i :: 0 <= i < |steps| ==> Next(ws[i], ws[i + 1], steps[i])
  }

  lemma {:induction false} RunInv(ws: seq<World>, steps: seq<T.Step>, i: nat)
    requires Run(ws, steps) && i < |ws|
    ensures Inv(ws[i])
  {
    if i > 0 {
      RunInv(ws, steps, i - 1);
      StepKeepsInv(ws[i - 1], ws[i], steps[i - 1]);
    }
  }

  /** The paths of all device and alias entries in the tree. */
  ghost function PathsShown(t: Tree): set<string>
    requires TreeOk(t)
  {
    set x | x in t.ns && t.ns[x].kind in {Dev, Link} :: FullPath(t, x)
  }

  /** The names of the live cdevs in the table. */
  function LiveNames(s: T.State): set<string> {
    set i | 0 <= i < |s.inot| && T.LiveSlot(s, i) :: s.devs[s.inot[i].value].name
  }

  /** In every run of any number of mounts: a mount on which no populate runs and that carries the current generation
    shows, as full paths, exactly the names of the live cdevs. */
  lemma {:induction false} ShowsLiveNames(ws: seq<World>, steps: seq<T.Step>, n: nat, m: T.Mnt)
    requires Run(ws, steps) && n < |ws|
    requires var s := ws[n].tab; m in s.mounts && s.mounts[m].scan.None? && s.mounts[m].gen == s.gen
    ensures m in ws[n].dirs && TreeOk(ws[n].dirs[m].tree) && PathsShown(ws[n].dirs[m].tree) == LiveNames(ws[n].tab)
  {
    RunInv(ws, steps, n);
    InStepShows(ws[n], m);
  }

  lemma {:induction false} InStepShows(r: World, m: T.Mnt)
    requires Inv(r) && m in r.tab.mounts && r.tab.mounts[m].scan.None? && r.tab.mounts[m].gen == r.tab.gen
    ensures m in r.dirs && TreeOk(r.dirs[m].tree) && PathsShown(r.dirs[m].tree) == LiveNames(r.tab)
  {
    assert Mirrors(r, m) && T.MountOk(r.tab, m);
    var t, dirent, s := r.dirs[m].tree, r.dirs[m].dirent, r.tab;
    forall i: nat | i < |s.inot| && T.LiveSlot(s, i) ensures s.devs[s.inot[i].value].name in PathsShown(t) {
      ShownAt(r, m, i);
    }
    forall x | x in t.ns && t.ns[x].kind in {Dev, Link} ensures FullPath(t, x) in LiveNames(s) {
      assert Entered(dirent, x);
      var i :| i in dirent && dirent[i] == x;
      ShownAt(r, m, i);
    }
  }

  /** The entry for slot i shows the name of the cdev in the slot. */
  lemma {:induction false} ShownAt(r: World, m: T.Mnt, i: nat)
    requires Inv(r) && m in r.dirs && Mirrors(r, m)
    requires i in r.dirs[m].dirent || (i < |r.tab.inot| && T.LiveSlot(r.tab, i) && r.tab.mounts[m].scan.None? &&
      r.tab.mounts[m].gen == r.tab.gen)
    ensures i in r.dirs[m].dirent && i < |r.tab.inot| && r.tab.inot[i].Some? && r.tab.inot[i].value in r.tab.devs
    ensures var t, x := r.dirs[m].tree, r.dirs[m].dirent[i];
      x in t.ns && t.ns[x].kind in {Dev, Link} && FullPath(t, x) == r.tab.devs[r.tab.inot[i].value].name
    ensures r.tab.mounts[m].scan.None? && r.tab.mounts[m].gen == r.tab.gen ==> T.LiveSlot(r.tab, i)
  {
    var dirent := r.dirs[m].dirent;
    var names := Names(r.tab, m, dirent.Keys);
    assert T.MountOk(r.tab, m) && T.SlotOk(r.tab, i);
    assert SlotOk(r.dirs[m].tree, dirent[i], i, names[i]);
  }

  lemma {:induction false} RunGiven(ws: seq<World>, steps: seq<T.Step>, n: nat)
    requires Run(ws, steps) && n < |ws|
    ensures G.Given(ws[n].tab, ws[0].tab.next, G.Creations(steps[..n]))
  {
    if n == 0 {
      assert steps[..0] == [];
    } else {
      RunGiven(ws, steps, n - 1);
      assert Next(ws[n - 1], ws[n - 1 + 1], steps[n - 1]);
      G.StepGiven(ws[n - 1].tab, steps[n - 1], ws[0].tab.next, G.Creations(steps[..n - 1]));
      G.CreationsJoin(steps[..n - 1], steps[n - 1]);
      assert steps[..n] == steps[..n - 1] + [steps[n - 1]];
    }
  }

  /** The device is alive and has a slot in the table. */
  predicate Tabled(s: T.State, d: T.Dev) {
    d in s.devs && s.devs[d].live && s.devs[d].inode != 0
  }

  /** The k-th device made is in the table, and x is the name it was given. */
  predicate GivenName(s: T.State, base: T.Dev, made: seq<T.Step>, k: nat, x: string) {
    k < |made| && Tabled(s, base + k) && G.MadeBy(s.devs[base + k], made[k]) && x == s.devs[base + k].name
  }

  ghost predicate WasGiven(s: T.State, base: T.Dev, made: seq<T.Step>, x: string) {
    exists k: nat :: GivenName(s, base, made, k, x)
  }

  lemma {:induction false} LiveIsGiven(s: T.State, base: T.Dev, made: seq<T.Step>, x: string)
    requires T.Inv(s) && G.Given(s, base, made)
    ensures x in LiveNames(s) <==> WasGiven(s, base, made, x)
  {
    if x in LiveNames(s) {
      var i: nat :| i < |s.inot| && T.LiveSlot(s, i) && x == s.devs[s.inot[i].value].name;
      var d := s.inot[i].value;
      assert T.SlotOk(s, i) && G.GivenAt(s, base, made, d);
      assert GivenName(s, base, made, d - base, x);
    }
    forall k: nat | GivenName(s, base, made, k, x) ensures x in LiveNames(s) {
      assert T.Placed(s, base + k);
      assert T.LiveSlot(s, s.devs[base + k].inode);
    }
  }

  /** In every such run the paths shown are the names that were given to make_dev and make_dev_alias, cut to
    SPECNAMELEN characters, of those devices that live and found a slot. */
  lemma {:induction false} ShowsGivenNames(ws: seq<World>, steps: seq<T.Step>, n: nat, m: T.Mnt, x: string)
    requires Run(ws, steps) && n < |ws|
    requires var s := ws[n].tab; m in s.mounts && s.mounts[m].scan.None? && s.mounts[m].gen == s.gen
    ensures m in ws[n].dirs && TreeOk(ws[n].dirs[m].tree)
    ensures x in PathsShown(ws[n].dirs[m].tree) <==>
      WasGiven(ws[n].tab, ws[0].tab.next, G.Creations(steps[..n]), x)
  {
    ShowsLiveNames(ws, steps, n, m);
    RunInv(ws, steps, n);
    RunGiven(ws, steps, n);
    LiveIsGiven(ws[n].tab, ws[0].tab.next, G.Creations(steps[..n]), x);
  }

  // ---------------------------------------------------------------- devfs_populate on both

  /** The table and the tree of mount m are those of w. */
  ghost predicate Stands(w: World, tab: C.Devices, mnt: Mount, m: T.Mnt)
    reads tab, tab.inot, mnt
  {
    Inv(w) && w.tab == tab.View() && m in w.dirs && w.dirs[m] == Dirs(mnt.tree, mnt.dirent)
  }

  /** The populate of m is at the slot of a live device that has no entry. */
  predicate Enters(s: T.State, m: T.Mnt)
    requires T.Enabled(s, T.PopSlot(m))
  {
    var i := s.mounts[m].scan.value;
    T.LiveSlot(s, i) && s.mounts[m].dirent[i].None?
  }

  /** The name of that device. */
  function Entering(s: T.State, m: T.Mnt): string
    requires T.Enabled(s, T.PopSlot(m)) && Enters(s, m)
  {
    NameOf(s, s.inot[s.mounts[m].scan.value].value)
  }

  /** What a round does in the tree: an entry is made, dropped or left alone. */
  method TreeRound(tab: C.Devices, mnt: Mount, m: T.Mnt, i: nat, ghost w: World) returns (ok: bool)
    requires Stands(w, tab, mnt, m) && T.Enabled(w.tab, T.PopSlot(m)) && w.tab.mounts[m].scan == Some(i)
    modifies mnt
    ensures ok <==> !Blocked(w, m)
    ensures ok ==> Follows(w.dirs[m], Dirs(mnt.tree, mnt.dirent), w.tab, T.PopulateSlot(w.tab, m, i), m, i)
  {
    RoundStarts(w, m, i);
    mnt.names := Names(w.tab, m, mnt.dirent.Keys);
    ok := true;
    if tab.inot[i].Some? {
      var d := tab.inot[i].value;
      var entry := tab.mounts[m].dirent[i];
      if tab.devs[d].live && entry.None? {
        ok := mnt.Enter(i, tab.devs[d].name, tab.devs[d].alias);
      } else if !tab.devs[d].live && entry.Some? {
        mnt.Leave(i);
      }
    }
  }

  /** One round of the loop of devfs_populate, on the table and on the tree of its mount. */
  method Round(tab: C.Devices, mnt: Mount, m: T.Mnt, ghost w: World) returns (ok: bool, ghost w': World)
    requires Stands(w, tab, mnt, m) && T.Enabled(w.tab, T.PopSlot(m))
    modifies tab, tab.inot, mnt
    ensures ok <==> !Blocked(w, m)
    ensures if ok then Next(w, w', T.PopSlot(m)) && Stands(w', tab, mnt, m) else w' == w
  {
    var i := tab.mounts[m].scan.value;
    ok := TreeRound(tab, mnt, m, i, w);
    w' := w;
    if ok {
      RoundStarts(w, m, i);
      tab.PopulateAt(m, i);
      w' := Followed(w, m, i, Dirs(mnt.tree, mnt.dirent));
    }
  }

  ghost function Followed(w: World, m: T.Mnt, i: nat, ds: Dirs): (w': World)
    requires Inv(w) && m in w.dirs && T.Enabled(w.tab, T.PopSlot(m)) && w.tab.mounts[m].scan == Some(i)
    requires Follows(w.dirs[m], ds, w.tab, T.PopulateSlot(w.tab, m, i), m, i)
    ensures Inv(w') && Next(w, w', T.PopSlot(m)) && w' == World(T.PopulateSlot(w.tab, m, i), w.dirs[m := ds])
  {
    var w' := World(T.PopulateSlot(w.tab, m, i), w.dirs[m := ds]);
    assert w'.dirs == w.dirs[m := w'.dirs[m]];
    StepKeepsInv(w, w', T.PopSlot(m));
    w'
  }

  lemma {:induction false} RoundStarts(w: World, m: T.Mnt, i: nat)
    requires Inv(w) && m in w.dirs && T.Enabled(w.tab, T.PopSlot(m)) && w.tab.mounts[m].scan == Some(i)
    ensures Agrees(w.dirs[m], w.tab, m) && (i in w.dirs[m].dirent <==> w.tab.mounts[m].dirent[i].Some?)
    ensures w.tab.inot[i].Some? ==>
      3 <= i < INOMOUNT && w.tab.inot[i].value in w.tab.devs && w.tab.devs[w.tab.inot[i].value].refs > 0
    ensures w.tab.mounts[m].dirent[i].Some? ==> w.tab.inot[i] == w.tab.mounts[m].dirent[i]
  {
    assert Mirrors(w, m) && T.MountOk(w.tab, m) && T.SlotOk(w.tab, i);
    if w.tab.inot[i].Some? { assert T.Counted(w.tab, w.tab.inot[i].value, None); }
    assert i in w.dirs[m].dirent <==> EntryAt(w.tab, m, i).Some?;
  }

  /** The populate of m has come to a live device whose name leads through something that is no directory. */
  ghost predicate Blocked(w: World, m: T.Mnt) {
    m in w.dirs && T.Enabled(w.tab, T.PopSlot(m)) && Enters(w.tab, m) &&
      !Clear(w.dirs[m].tree.ns, ROOT, Entering(w.tab, m), 0)
  }

  /** The loop of devfs_populate. */
  method Rounds(tab: C.Devices, mnt: Mount, m: T.Mnt, ghost w: World) returns (ok: bool, ghost w': World)
    requires Stands(w, tab, mnt, m) && Halfway(w.tab, m, 0)
    modifies tab, tab.inot, mnt
    ensures C.Undisturbed(w.tab, w'.tab, m)
    ensures if ok then Stands(w', tab, mnt, m) && Halfway(w'.tab, m, tab.inot.Length) else Inv(w') && Blocked(w', m)
  {
    ok, w' := true, w;
    var i := 0;
    while i < tab.inot.Length
      invariant i <= tab.inot.Length && Stands(w', tab, mnt, m) && Halfway(w'.tab, m, i)
      invariant C.Undisturbed(w.tab, w'.tab, m)
    {
      C.SlotReady(w'.tab, m, i);
      C.SlotDone(w.tab, w'.tab, m, i);
      ok, w' := Round(tab, mnt, m, w');
      if !ok { return; }
      i := i + 1;
    }
    ok := true;
  }

  /** devfs_populate: unless it comes to a live device whose name cannot be entered, the mount shows exactly the names
    of the live cdevs afterwards.  Either way live devices and other mounts are as before. */
  method Populate(tab: C.Devices, mnt: Mount, m: T.Mnt, ghost w: World) returns (ok: bool, ghost w': World)
    requires Stands(w, tab, mnt, m) && tab.mounts[m].scan.None?
    modifies tab, tab.inot, mnt
    ensures C.Undisturbed(w.tab, w'.tab, m)
    ensures ok ==> Stands(w', tab, mnt, m) && TreeOk(mnt.tree) && PathsShown(mnt.tree) == LiveNames(tab.View())
    ensures !ok ==> Inv(w') && Blocked(w', m)
  {
    ok, w' := true, w;
    if tab.mounts[m].gen != tab.gen {
      ghost var w1 := Turned(w, T.PopBegin(m));
      tab.mounts := tab.mounts[m := tab.mounts[m].(gen := tab.gen, scan := Some(0))];
      ok, w' := Rounds(tab, mnt, m, w1);
      C.UndisturbedThen(w.tab, w1.tab, w'.tab, m);
      if !ok { return; }
      w1 := Turned(w', T.PopEnd(m));
      tab.mounts := tab.mounts[m := tab.mounts[m].(scan := None)];
      C.UndisturbedThen(w.tab, w'.tab, w1.tab, m);
      w' := w1;
    }
    InStepShows(w', m);
  }

  predicate Halfway(s: T.State, m: T.Mnt, i: nat) {
    m in s.mounts && s.mounts[m].gen == s.gen && s.mounts[m].scan == Some(i)
  }

  /** The beginning or the end of a populate, which leaves the trees alone. */
  ghost function Turned(w: World, step: T.Step): (w': World)
    requires Inv(w) && T.Enabled(w.tab, step) && (step.PopBegin? || step.PopEnd?)
    ensures Inv(w') && Next(w, w', step) && w' == World(T.Apply(w.tab, step), w.dirs)
    ensures C.Undisturbed(w.tab, w'.tab, step.m)
  {
    var w' := World(T.Apply(w.tab, step), w.dirs);
    StepKeepsInv(w, w', step);
    w'
  }

  /** In every run all inode numbers that a mount shows are distinct. */
  lemma {:induction false} InodesInEveryRun(ws: seq<World>, steps: seq<T.Step>, n: nat, m: T.Mnt, x: Node, y: Node)
    requires Run(ws, steps) && n < |ws| && m in ws[n].dirs
    requires var ns := ws[n].dirs[m].tree.ns; x in ns && y in ns && x != y && Listed(ns[x]) && Listed(ns[y])
    ensures var ns := ws[n].dirs[m].tree.ns; ns[x].inode != ns[y].inode && ns[x].inode >= 2
  {
    RunInv(ws, steps, n);
    assert Mirrors(ws[n], m);
    var t := ws[n].dirs[m].tree;
    assert NumberOk(t, x) && !SameNumber(t, x, y);
  }
}
