/** The directory tree of one devfs mount: populate splits a device name into directories, and
  devfs_fqpn puts it together again by climbing the ".." entries. */
module DevPath {
  import opened Basics

  type Node = nat

  const ROOT: Node := 0
  const INOMOUNT: nat := 0x2000000     // DEVFSINOMOUNT
  const SPECNAMELEN: nat := 63

  datatype Kind = Dir | Dot | DotDot | Dev | Link

  /** struct devfs_dirent; `list` is de_dlist, used in directories only. */
  datatype Entry = Entry(name: string, kind: Kind, dir: Node, list: seq<Node>, inode: nat)

  /** `counter` is dm_inode. */
  datatype Tree = Tree(ns: map<Node, Entry>, next: Node, counter: nat)

  // ---------------------------------------------------------------- well-formed trees

  predicate IsDir(ns: map<Node, Entry>, d: Node) {
    d in ns && ns[d].kind == Dir
  }

  /** The directory that ".." of d stands for. */
  function Parent(ns: map<Node, Entry>, d: Node): Node {
    if d in ns && |ns[d].list| > 1 && ns[d].list[1] in ns then ns[ns[d].list[1]].dir else ROOT
  }

  /** A directory starts with "." for itself and ".." for its parent, and parents are older. */
  predicate DotsOk(ns: map<Node, Entry>, d: Node)
    requires d in ns
  {
    var l := ns[d].list;
    && |l| >= 2 && l[0] in ns && l[1] in ns && ns[d].dir == d
    && ns[l[0]].kind == Dot && ns[l[0]].name == "." && ns[l[0]].dir == d
    && ns[l[1]].kind == DotDot && ns[l[1]].name == ".."
    && IsDir(ns, Parent(ns, d)) && (if d == ROOT then Parent(ns, d) == ROOT else Parent(ns, d) < d)
  }

  /** What else a directory lists: its subdirectories and its devices. */
  predicate ItemOk(ns: map<Node, Entry>, d: Node, x: Node) {
    x in ns &&
    if ns[x].kind == Dir then Parent(ns, x) == d && x != ROOT else ns[x].kind in {Dev, Link} && ns[x].dir == d
  }

  ghost predicate DirOk(ns: map<Node, Entry>, d: Node)
    requires d in ns
  {
    DotsOk(ns, d) && forall i :: 2 <= i < |ns[d].list| ==> ItemOk(ns, d, ns[d].list[i])
  }

  predicate DevOk(ns: map<Node, Entry>, x: Node)
    requires x in ns
  {
    IsDir(ns, ns[x].dir) && x in ns[ns[x].dir].list
  }

  ghost predicate TreeOk(t: Tree) {
    && IsDir(t.ns, ROOT) && (forall x :: x in t.ns ==> x < t.next)
    && (forall d {:trigger DirOk(t.ns, d)} :: IsDir(t.ns, d) ==> DirOk(t.ns, d))
    && (forall x {:trigger DevOk(t.ns, x)} :: x in t.ns && t.ns[x].kind in {Dev, Link} ==> DevOk(t.ns, x))
  }

  /** The path of a directory, ending in a slash unless it is the root. */
  ghost function DirPath(t: Tree, d: Node): string
    requires TreeOk(t) && IsDir(t.ns, d)
    decreases d
  {
    assert DirOk(t.ns, d);
    if d == ROOT then "" else DirPath(t, Parent(t.ns, d)) + t.ns[d].name + "/"
  }

  /** The path of a device entry. */
  ghost function FullPath(t: Tree, x: Node): string
    requires TreeOk(t) && x in t.ns && t.ns[x].kind in {Dev, Link}
  {
    assert DevOk(t.ns, x);
    DirPath(t, t.ns[x].dir) + t.ns[x].name
  }

  // ---------------------------------------------------------------- inode numbers

  predicate Listed(e: Entry) {
    e.kind in {Dir, Dev, Link}
  }

  /** Devices use their slot number, everything else but the root a number of the mount's own. */
  predicate NumberOk(t: Tree, x: Node)
    requires x in t.ns
  {
    match t.ns[x].kind
    case Dir => if x == ROOT then t.ns[x].inode == 2 else INOMOUNT <= t.ns[x].inode < t.counter
    case Link => INOMOUNT <= t.ns[x].inode < t.counter
    case Dev => 3 <= t.ns[x].inode < INOMOUNT
    case _ => true
  }

  predicate SameNumber(t: Tree, x: Node, y: Node) {
    x in t.ns && y in t.ns && Listed(t.ns[x]) && Listed(t.ns[y]) && t.ns[x].inode == t.ns[y].inode
  }

  /** All inode numbers of the mount are distinct. */
  ghost predicate Numbered(t: Tree) {
    && t.counter >= INOMOUNT
    && (forall x {:trigger NumberOk(t, x)} :: x in t.ns ==> NumberOk(t, x))
    && (forall x, y {:trigger SameNumber(t, x, y)} :: SameNumber(t, x, y) ==> x == y)
  }

  /** No device entry of the mount belongs to slot i. */
  ghost predicate FreeSlot(t: Tree, i: nat) {
    forall x :: x in t.ns && t.ns[x].kind == Dev ==> t.ns[x].inode != i
  }

  // ---------------------------------------------------------------- the three changes

  /** devfs_vmkdir(name, dd), numbered and put on the list of dd; the new directory is t.next. */
  function MkDir(t: Tree, d: Node, name: string): Tree
    requires d in t.ns
  {
    var n := t.next;
    t.(ns := t.ns[n := Entry(name, Dir, n, [n + 1, n + 2], t.counter)]
                 [n + 1 := Entry(".", Dot, n, [], 0)]
                 [n + 2 := Entry("..", DotDot, d, [], 0)]
                 [d := t.ns[d].(list := t.ns[d].list + [n])],
       next := n + 3, counter := t.counter + 1)
  }

  /** A new entry for the device of slot i in directory d; an alias is a link with its own number. */
  function AddDev(t: Tree, d: Node, name: string, i: nat, alias: bool): Tree
    requires d in t.ns
  {
    var n := t.next;
    t.(ns := t.ns[n := Entry(name, if alias then Link else Dev, d, [], if alias then t.counter else i)]
                 [d := t.ns[d].(list := t.ns[d].list + [n])],
       next := n + 1, counter := if alias then t.counter + 1 else t.counter)
  }

  /** devfs_delete of the device entry x */
  function Remove(t: Tree, x: Node): Tree
    requires x in t.ns && t.ns[x].dir in t.ns
  {
    var d := t.ns[x].dir;
    t.(ns := t.ns[d := t.ns[d].(list := Without(t.ns[d].list, {x}))] - {x})
  }

  // ---------------------------------------------------------------- what the changes keep

  /** Directory d still has its name and its parent. */
  predicate SameDir(ns: map<Node, Entry>, ns': map<Node, Entry>, d: Node) {
    IsDir(ns, d) && IsDir(ns', d) && ns'[d].name == ns[d].name && Parent(ns', d) == Parent(ns, d)
  }

  ghost predicate DirsKept(t: Tree, t': Tree) {
    forall d {:trigger SameDir(t.ns, t'.ns, d)} :: IsDir(t.ns, d) ==> SameDir(t.ns, t'.ns, d)
  }

  /** An entry that is no directory is as before. */
  predicate SameEntry(ns: map<Node, Entry>, ns': map<Node, Entry>, x: Node) {
    x in ns && x in ns' && ns'[x] == ns[x]
  }

  lemma {:induction false} PathKept(t: Tree, t': Tree, d: Node)
    requires TreeOk(t) && TreeOk(t') && DirsKept(t, t') && IsDir(t.ns, d)
    ensures IsDir(t'.ns, d) && DirPath(t', d) == DirPath(t, d)
    decreases d
  {
    assert SameDir(t.ns, t'.ns, d) && DirOk(t.ns, d);
    if d != ROOT { PathKept(t, t', Parent(t.ns, d)); }
  }

  /** A device entry that stays keeps its path. */
  lemma {:induction false} FullPathKept(t: Tree, t': Tree, x: Node)
    requires TreeOk(t) && TreeOk(t') && DirsKept(t, t')
    requires SameEntry(t.ns, t'.ns, x) && t.ns[x].kind in {Dev, Link}
    ensures FullPath(t', x) == FullPath(t, x)
  {
    assert DevOk(t.ns, x);
    PathKept(t, t', t.ns[x].dir);
  }

  lemma {:induction false} MkDirDots(t: Tree, d: Node, name: string, e: Node)
    requires TreeOk(t) && IsDir(t.ns, d) && IsDir(t.ns, e)
    ensures var t' := MkDir(t, d, name); DirOk(t'.ns, e) && SameDir(t.ns, t'.ns, e)
  {
    assert DirOk(t.ns, e);
    var t' := MkDir(t, d, name);
    assert Parent(t'.ns, e) == Parent(t.ns, e);
    forall i | 2 <= i < |t'.ns[e].list| ensures ItemOk(t'.ns, e, t'.ns[e].list[i]) {
      var x := t'.ns[e].list[i];
      if i < |t.ns[e].list| {
        assert ItemOk(t.ns, e, x);
        if t.ns[x].kind == Dir { assert DirOk(t.ns, x); }
      }
    }
  }

  lemma {:induction false} MkDirKeeps(t: Tree, d: Node, name: string)
    requires TreeOk(t) && IsDir(t.ns, d)
    ensures var t' := MkDir(t, d, name);
      && TreeOk(t') && DirsKept(t, t') && IsDir(t'.ns, t.next)
      && DirPath(t', t.next) == DirPath(t, d) + name + "/"
      && (forall x {:trigger SameEntry(t.ns, t'.ns, x)} :: x in t.ns && t.ns[x].kind != Dir ==>
           SameEntry(t.ns, t'.ns, x))
  {
    var t' := MkDir(t, d, name);
    forall e | IsDir(t.ns, e) ensures DirOk(t'.ns, e) && SameDir(t.ns, t'.ns, e) { MkDirDots(t, d, name, e); }
    assert DirOk(t'.ns, t.next);
    forall x | x in t'.ns && t'.ns[x].kind in {Dev, Link} ensures DevOk(t'.ns, x) { assert DevOk(t.ns, x); }
    PathKept(t, t', d);
  }

  lemma {:induction false} AddDevDots(t: Tree, d: Node, name: string, i: nat, alias: bool, e: Node)
    requires TreeOk(t) && IsDir(t.ns, d) && IsDir(t.ns, e)
    ensures var t' := AddDev(t, d, name, i, alias); DirOk(t'.ns, e) && SameDir(t.ns, t'.ns, e)
  {
    assert DirOk(t.ns, e);
    var t' := AddDev(t, d, name, i, alias);
    assert Parent(t'.ns, e) == Parent(t.ns, e);
    forall i | 2 <= i < |t'.ns[e].list| ensures ItemOk(t'.ns, e, t'.ns[e].list[i]) {
      var x := t'.ns[e].list[i];
      if i < |t.ns[e].list| {
        assert ItemOk(t.ns, e, x);
        if t.ns[x].kind == Dir { assert DirOk(t.ns, x); }
      }
    }
  }

  lemma {:induction false} AddDevKeeps(t: Tree, d: Node, name: string, i: nat, alias: bool)
    requires TreeOk(t) && IsDir(t.ns, d)
    ensures var t' := AddDev(t, d, name, i, alias);
      && TreeOk(t') && DirsKept(t, t')
      && t.next in t'.ns && t'.ns[t.next].kind in {Dev, Link} && FullPath(t', t.next) == DirPath(t, d) + name
      && (forall x {:trigger SameEntry(t.ns, t'.ns, x)} :: x in t.ns && t.ns[x].kind != Dir ==>
           SameEntry(t.ns, t'.ns, x))
  {
    var t' := AddDev(t, d, name, i, alias);
    forall e | IsDir(t.ns, e)
      ensures DirOk(t'.ns, e) && SameDir(t.ns, t'.ns, e)
    {
      AddDevDots(t, d, name, i, alias, e);
    }
    forall x | x in t'.ns && t'.ns[x].kind in {Dev, Link} ensures DevOk(t'.ns, x) {
      if x in t.ns { assert DevOk(t.ns, x); }
    }
    PathKept(t, t', d);
  }

  lemma {:induction false} DropFirst(l: seq<Node>, x: Node)
    requires |l| >= 2 && l[0] != x && l[1] != x
    ensures |Without(l, {x})| >= 2 && Without(l, {x})[..2] == l[..2]
  {
    assert Without(l[1..], {x}) == [l[1..][0]] + Without(l[1..][1..], {x});
  }

  lemma {:induction false} DropRest(l: seq<Node>, x: Node, i: nat) returns (j: nat)
    requires 2 <= i < |Without(l, {x})| && |l| >= 2 && l[0] != x && l[1] != x
    ensures 2 <= j < |l| && Without(l, {x})[i] == l[j]
  {
    var rest := l[1..][1..];
    assert Without(l[1..], {x}) == [l[1]] + Without(rest, {x});
    assert Without(l, {x}) == [l[0]] + ([l[1]] + Without(rest, {x}));
    assert Without(l, {x})[i] == Without(rest, {x})[i - 2];
    assert Without(rest, {x})[i - 2] in Without(rest, {x});
    assert Without(l, {x})[i] in rest;
    var k :| 0 <= k < |rest| && rest[k] == Without(l, {x})[i];
    j := k + 2;
  }

  lemma {:induction false} RemoveDots(t: Tree, x: Node, e: Node)
    requires TreeOk(t) && x in t.ns && t.ns[x].kind in {Dev, Link} && t.ns[x].dir in t.ns && IsDir(t.ns, e)
    ensures var t' := Remove(t, x); DirOk(t'.ns, e) && SameDir(t.ns, t'.ns, e)
  {
    assert DirOk(t.ns, e);
    var t' := Remove(t, x);
    DropFirst(t.ns[e].list, x);
    assert t'.ns[e].list[..2] == t.ns[e].list[..2];
    assert t'.ns[e].list[0] == t'.ns[e].list[..2][0] && t'.ns[e].list[1] == t'.ns[e].list[..2][1];
    assert Parent(t'.ns, e) == Parent(t.ns, e);
    forall i | 2 <= i < |t'.ns[e].list| ensures ItemOk(t'.ns, e, t'.ns[e].list[i]) {
      RemoveItem(t, x, e, i);
    }
  }

  lemma {:induction false} RemoveItem(t: Tree, x: Node, e: Node, i: nat)
    requires TreeOk(t) && x in t.ns && t.ns[x].kind in {Dev, Link} && t.ns[x].dir in t.ns && IsDir(t.ns, e)
    requires 2 <= i < |Remove(t, x).ns[e].list|
    ensures ItemOk(Remove(t, x).ns, e, Remove(t, x).ns[e].list[i])
  {
    assert DirOk(t.ns, e);
    var j := RemoveWasThere(t, x, e, i);
    assert ItemOk(t.ns, e, t.ns[e].list[j]);
    ItemStays(t, x, e, t.ns[e].list[j]);
  }

  /** What a list holds after the removal it held before, and it is not x. */
  lemma {:induction false} RemoveWasThere(t: Tree, x: Node, e: Node, i: nat) returns (j: nat)
    requires TreeOk(t) && x in t.ns && t.ns[x].kind in {Dev, Link} && t.ns[x].dir in t.ns && IsDir(t.ns, e)
    requires 2 <= i < |Remove(t, x).ns[e].list|
    ensures 2 <= j < |t.ns[e].list| && Remove(t, x).ns[e].list[i] == t.ns[e].list[j] && t.ns[e].list[j] != x
  {
    assert DirOk(t.ns, e);
    var l := Remove(t, x).ns[e].list;
    j := i;
    if t.ns[x].dir == e {
      j := DropRest(t.ns[e].list, x, i);
      assert l[i] in l;
    } else {
      assert ItemOk(t.ns, e, t.ns[e].list[i]);
    }
  }

  lemma {:induction false} ItemStays(t: Tree, x: Node, e: Node, y: Node)
    requires TreeOk(t) && x in t.ns && t.ns[x].kind in {Dev, Link} && t.ns[x].dir in t.ns
    requires ItemOk(t.ns, e, y) && y != x
    ensures ItemOk(Remove(t, x).ns, e, y)
  {
    if t.ns[y].kind == Dir {
      assert DirOk(t.ns, y);
      if y == t.ns[x].dir { DropFirst(t.ns[y].list, x); }
    }
  }

  lemma {:induction false} RemoveKeeps(t: Tree, x: Node)
    requires TreeOk(t) && x in t.ns && t.ns[x].kind in {Dev, Link}
    ensures t.ns[x].dir in t.ns
    ensures var t' := Remove(t, x);
      && TreeOk(t') && DirsKept(t, t')
      && (forall y {:trigger SameEntry(t.ns, t'.ns, y)} :: y in t.ns && y != x && t.ns[y].kind != Dir ==>
           SameEntry(t.ns, t'.ns, y))
  {
    assert DevOk(t.ns, x);
    var t' := Remove(t, x);
    forall e | IsDir(t.ns, e) ensures DirOk(t'.ns, e) && SameDir(t.ns, t'.ns, e) { RemoveDots(t, x, e); }
    forall y | y in t'.ns && t'.ns[y].kind in {Dev, Link} ensures DevOk(t'.ns, y) { assert DevOk(t.ns, y); }
  }

  lemma {:induction false} MkDirNumbers(t: Tree, d: Node, name: string)
    requires TreeOk(t) && IsDir(t.ns, d) && Numbered(t)
    ensures Numbered(MkDir(t, d, name)) && forall i :: FreeSlot(t, i) ==> FreeSlot(MkDir(t, d, name), i)
  {
    var t' := MkDir(t, d, name);
    forall x | x in t'.ns ensures NumberOk(t', x) { assert x in t.ns ==> NumberOk(t, x); }
    forall x, y | SameNumber(t', x, y) ensures x == y {
      assert x in t.ns ==> NumberOk(t, x);
      assert y in t.ns ==> NumberOk(t, y);
      assert x in t.ns && y in t.ns ==> SameNumber(t, x, y);
    }
  }

  lemma {:induction false} AddDevNumbers(t: Tree, d: Node, name: string, i: nat, alias: bool)
    requires TreeOk(t) && IsDir(t.ns, d) && Numbered(t) && 3 <= i < INOMOUNT && (!alias ==> FreeSlot(t, i))
    ensures Numbered(AddDev(t, d, name, i, alias))
  {
    var t' := AddDev(t, d, name, i, alias);
    forall x | x in t'.ns ensures NumberOk(t', x) { assert x in t.ns ==> NumberOk(t, x); }
    forall x, y | SameNumber(t', x, y) ensures x == y {
      assert x in t.ns ==> NumberOk(t, x);
      assert y in t.ns ==> NumberOk(t, y);
      assert x in t.ns && y in t.ns ==> SameNumber(t, x, y);
    }
  }

  lemma {:induction false} RemoveNumbers(t: Tree, x: Node)
    requires TreeOk(t) && x in t.ns && t.ns[x].kind in {Dev, Link} && t.ns[x].dir in t.ns && Numbered(t)
    ensures Numbered(Remove(t, x))
    ensures t.ns[x].kind == Dev ==> FreeSlot(Remove(t, x), t.ns[x].inode)
  {
    var t' := Remove(t, x);
    forall y | y in t'.ns ensures NumberOk(t', y) { assert NumberOk(t, y); }
    forall y, z | SameNumber(t', y, z) ensures y == z { assert SameNumber(t, y, z); }
    if t.ns[x].kind == Dev {
      forall y | y in t'.ns && t'.ns[y].kind == Dev ensures t'.ns[y].inode != t.ns[x].inode {
        assert t'.ns[y].inode == t.ns[x].inode ==> SameNumber(t, x, y);
      }
    }
  }
}
