/** devfs_populate's work on one directory tree and devfs_fqpn, its inverse. */
module DevMount {
  import opened Basics
  import opened DevPath

  // ---------------------------------------------------------------- where a name leads

  /** The end of the component that starts at s. */
  function NextSlash(name: string, s: nat): (q: nat)
    requires s <= |name|
    ensures s <= q <= |name| && (q < |name| ==> name[q] == '/')
    ensures forall i :: s <= i < q ==> name[i] != '/'
    decreases |name| - s
  {
    if s == |name| || name[s] == '/' then s else NextSlash(name, s + 1)
  }

  predicate Named(ns: map<Node, Entry>, x: Node, name: string) {
    x in ns && ns[x].name == name
  }

  /** devfs_find on the list l: the first entry of that name. */
  function Find(ns: map<Node, Entry>, l: seq<Node>, name: string): (r: Option<Node>)
    ensures r.Some? ==> r.value in l && Named(ns, r.value, name)
    ensures r.None? ==> forall x :: x in l ==> !Named(ns, x, name)
  {
    if l == [] then None
    else if Named(ns, l[0], name) then Some(l[0])
    else Find(ns, l[1..], name)
  }

  /** In new directories only "." and ".." are in the way. */
  predicate ClearFresh(name: string, s: nat)
    requires s <= |name|
    decreases |name| - s
  {
    var q := NextSlash(name, s);
    q == |name| || (name[s..q] != "." && name[s..q] != ".." && ClearFresh(name, q + 1))
  }

  /** From directory d the components of name[s..], but for the last, lead through directories. */
  predicate Clear(ns: map<Node, Entry>, d: Node, name: string, s: nat)
    requires s <= |name|
    decreases |name| - s
  {
    var q := NextSlash(name, s);
    q == |name| || (d in ns &&
      match Find(ns, ns[d].list, name[s..q])
      case None => ClearFresh(name, q + 1)
      case Some(x) => IsDir(ns, x) && Clear(ns, x, name, q + 1))
  }

  /** "." and ".." stand first in every directory; nothing else is in a new one. */
  lemma {:induction false} FindDots(ns: map<Node, Entry>, l: seq<Node>, c: string)
    requires |l| >= 2 && Named(ns, l[0], ".") && Named(ns, l[1], "..")
    ensures c == "." ==> Find(ns, l, c) == Some(l[0])
    ensures c == ".." ==> Find(ns, l, c) == Some(l[1])
    ensures |l| == 2 && c != "." && c != ".." ==> Find(ns, l, c).None?
  {
    var r := l[1..];
    assert r[0] == l[1] && (|l| == 2 ==> r[1..] == []);
    assert c != "." ==> Find(ns, l, c) == Find(ns, r, c);
  }

  lemma {:induction false} FreshIsClear(ns: map<Node, Entry>, d: Node, name: string, s: nat)
    requires s <= |name| && d in ns && |ns[d].list| == 2 && DotsOk(ns, d)
    ensures Clear(ns, d, name, s) == ClearFresh(name, s)
  {
    var q := NextSlash(name, s);
    FindDots(ns, ns[d].list, name[s..q]);
  }

  /** A proper component of the name, with its two ends. */
  predicate Component(name: string, s: nat, q: nat) {
    s <= q < |name| && q == NextSlash(name, s) && (s == 0 || name[s - 1] == '/')
  }

  /** What a caller can check: no component but the last is "." or "..", and no device of the mount
    has a name that is a path prefix of the new one. */
  ghost predicate GoodName(t: Tree, name: string)
    requires TreeOk(t)
  {
    && (forall s: nat, q: nat :: Component(name, s, q) ==> name[s..q] != "." && name[s..q] != "..")
    && (forall x, q :: x in t.ns && t.ns[x].kind in {Dev, Link} && 0 <= q < |name| && name[q] == '/' ==>
         FullPath(t, x) != name[..q])
  }

  lemma {:induction false} GoodNameFresh(name: string, s: nat)
    requires s <= |name| && (s == 0 || name[s - 1] == '/')
    requires forall s: nat, q: nat :: Component(name, s, q) ==> name[s..q] != "." && name[s..q] != ".."
    ensures ClearFresh(name, s)
    decreases |name| - s
  {
    var q := NextSlash(name, s);
    if q < |name| {
      assert Component(name, s, q);
      GoodNameFresh(name, q + 1);
    }
  }

  /** Such a name can always be entered. */
  lemma {:induction false} GoodNameIsClear(t: Tree, d: Node, name: string, s: nat)
    requires TreeOk(t) && IsDir(t.ns, d) && GoodName(t, name)
    requires s <= |name| && (s == 0 || name[s - 1] == '/') && DirPath(t, d) == name[..s]
    ensures Clear(t.ns, d, name, s)
    decreases |name| - s
  {
    var q := NextSlash(name, s);
    if q < |name| {
      assert Component(name, s, q);
      var r := Find(t.ns, t.ns[d].list, name[s..q]);
      if r.None? {
        GoodNameFresh(name, q + 1);
      } else {
        FoundKind(t, d, r.value, name, s, q);
        GoodNameIsClear(t, r.value, name, q + 1);
      }
    }
  }

  /** What is found under the right path and is no device is a directory with the longer path. */
  lemma {:induction false} FoundKind(t: Tree, d: Node, x: Node, name: string, s: nat, q: nat)
    requires TreeOk(t) && IsDir(t.ns, d) && GoodName(t, name) && Component(name, s, q) && DirPath(t, d) == name[..s]
    requires x in t.ns[d].list && Named(t.ns, x, name[s..q])
    ensures IsDir(t.ns, x) && DirPath(t, x) == name[..q + 1]
  {
    assert DirOk(t.ns, d);
    var i :| 0 <= i < |t.ns[d].list| && t.ns[d].list[i] == x;
    assert i >= 2;
    assert ItemOk(t.ns, d, t.ns[d].list[i]);
    assert name[..q] == name[..s] + name[s..q] && name[..q + 1] == name[..q] + "/";
    DevicePath(t, d, x);
    assert DirOk(t.ns, x);
  }

  lemma {:induction false} DevicePath(t: Tree, d: Node, x: Node)
    requires TreeOk(t) && IsDir(t.ns, d) && x in t.ns
    ensures t.ns[x].kind in {Dev, Link} && t.ns[x].dir == d ==> FullPath(t, x) == DirPath(t, d) + t.ns[x].name
  {
  }

  predicate IsDots(c: string) {
    c == "." || c == ".."
  }

  lemma {:induction false} DotsNotFresh(name: string, s: nat, a: nat, b: nat)
    requires s <= a && Component(name, a, b) && IsDots(name[a..b])
    ensures !ClearFresh(name, s)
    decreases |name| - s
  {
    var q := NextSlash(name, s);
    if s < a {
      assert q < a;
      DotsNotFresh(name, q + 1, a, b);
    }
  }

  lemma {:induction false} DotsLeadNowhere(t: Tree, d: Node, name: string, s: nat, q: nat)
    requires TreeOk(t) && IsDir(t.ns, d) && Component(name, s, q) && IsDots(name[s..q])
    ensures !Clear(t.ns, d, name, s)
  {
    assert DirOk(t.ns, d);
    FindDots(t.ns, t.ns[d].list, name[s..q]);
  }

  /** A name with "." or ".." among its components, but for the last, can never be entered. */
  lemma {:induction false} DotsNeverClear(t: Tree, d: Node, name: string, s: nat, a: nat, b: nat)
    requires TreeOk(t) && IsDir(t.ns, d) && s <= a && Component(name, a, b) && IsDots(name[a..b])
    ensures !Clear(t.ns, d, name, s)
    decreases |name| - s
  {
    var q := NextSlash(name, s);
    if s == a {
      DotsLeadNowhere(t, d, name, a, b);
    } else {
      assert q < a;
      DotsNotFresh(name, q + 1, a, b);
      var r := Find(t.ns, t.ns[d].list, name[s..q]);
      if r.Some? && IsDir(t.ns, r.value) { DotsNeverClear(t, r.value, name, q + 1, a, b); }
    }
  }

  // ---------------------------------------------------------------- one mount

  /** Slot i has the entry x, whose path is the name of the device. */
  ghost predicate SlotOk(t: Tree, x: Node, i: nat, name: string)
    requires TreeOk(t)
  {
    && 3 <= i < INOMOUNT && x in t.ns && t.ns[x].kind in {Dev, Link}
    && (t.ns[x].kind == Dev ==> t.ns[x].inode == i) && FullPath(t, x) == name
  }

  ghost predicate MountOk(t: Tree, dirent: map<nat, Node>, names: map<nat, string>) {
    && TreeOk(t) && Numbered(t) && dirent.Keys == names.Keys
    && (forall i {:trigger SlotOk(t, dirent[i], i, names[i])} :: i in dirent ==> SlotOk(t, dirent[i], i, names[i]))
    && (forall i, j {:trigger Shared(dirent, i, j)} :: Shared(dirent, i, j) ==> i == j)
    && (forall x {:trigger HasSlot(t, dirent, x)} :: x in t.ns && t.ns[x].kind == Dev ==> HasSlot(t, dirent, x))
    && (forall x {:trigger Entered(dirent, x)} :: x in t.ns && t.ns[x].kind in {Dev, Link} ==> Entered(dirent, x))
  }

  predicate Entered(dirent: map<nat, Node>, x: Node) {
    x in dirent.Values
  }

  predicate Shared(dirent: map<nat, Node>, i: nat, j: nat) {
    i in dirent && j in dirent && dirent[i] == dirent[j]
  }

  predicate HasSlot(t: Tree, dirent: map<nat, Node>, x: Node) {
    x in t.ns && t.ns[x].inode in dirent && dirent[t.ns[x].inode] == x
  }

  /** The tree t' is t with an entry x for the device of slot i under its name: directories may have been
    made, the last one has the path before the last component, and the entry is in it. */
  ghost predicate EnteredAs(t: Tree, t': Tree, x: Node, name: string, i: nat, alias: bool) {
    exists u, d, s: nat :: Reached(t, u, name, d, s) && x == u.next && t' == AddDev(u, d, name[s..], i, alias)
  }

  ghost predicate Reached(t: Tree, u: Tree, name: string, d: Node, s: nat) {
    TreeOk(u) && Numbered(u) && Grown(t, u) && IsDir(u.ns, d) && s <= |name| && DirPath(u, d) == name[..s]
  }

  const NEWTREE := Tree(map[ROOT := Entry("(root)", Dir, ROOT, [1, 2], 2), 1 := Entry(".", Dot, ROOT, [], 0),
                            2 := Entry("..", DotDot, ROOT, [], 0)], 3, INOMOUNT)

  lemma {:induction false} NewMountOk()
    ensures MountOk(NEWTREE, map[], map[])
  {
    assert DirOk(NEWTREE.ns, ROOT);
    assert NumberOk(NEWTREE, ROOT) && NumberOk(NEWTREE, 1) && NumberOk(NEWTREE, 2);
  }

  class Mount {
    var tree: Tree
    var dirent: map<nat, Node>          // dm_dirent, without the empty slots
    ghost var names: map<nat, string>   // si_name of the devices with an entry

    ghost predicate Valid()
      reads this
    {
      MountOk(tree, dirent, names)
    }

    /** A new mount: devfs_vmkdir("(root)"), inode 2 */
    constructor ()
      ensures Valid() && dirent == map[]
    {
      tree := NEWTREE;
      dirent, names := map[], map[];
      NewMountOk();
    }

    /** devfs_find */
    method FindEntry(d: Node, name: string) returns (r: Option<Node>)
      requires d in tree.ns
      ensures r == Find(tree.ns, tree.ns[d].list, name)
    {
      var rest := tree.ns[d].list;
      while rest != []
        invariant Find(tree.ns, rest, name) == Find(tree.ns, tree.ns[d].list, name)
      {
        if rest[0] in tree.ns && tree.ns[rest[0]].name == name { return Some(rest[0]); }
        rest := rest[1..];
      }
      r := None;
    }

    method EndOfComponent(name: string, s: nat) returns (q: nat)
      requires s <= |name|
      ensures q == NextSlash(name, s)
    {
      q := s;
      while q < |name| && name[q] != '/'
        invariant s <= q <= |name| && NextSlash(name, s) == NextSlash(name, q)
      {
        q := q + 1;
      }
    }

    /** The path walk of devfs_populate: the directory for the name and where its last component starts.
      It fails where the source takes a device, "." or ".." for a directory: the list of such an entry was
      never initialised, and the next TAILQ_INSERT_TAIL writes through its NULL tail pointer. */
    method Walk(name: string) returns (ok: bool, d: Node, s: nat)
      requires TreeOk(tree) && Numbered(tree)
      modifies this`tree
      ensures ok <==> Clear(old(tree.ns), ROOT, name, 0)
      ensures ok ==> TreeOk(tree) && Numbered(tree) && Grown(old(tree), tree)
      ensures ok ==> IsDir(tree.ns, d) && s <= |name| && DirPath(tree, d) == name[..s]
    {
      d, s := ROOT, 0;
      WalkStarts(tree, name);
      while true
        invariant Walking(old(tree), tree, name, d, s)
        decreases |name| - s
      {
        var q := EndOfComponent(name, s);
        if q == |name| { return true, d, s; }
        ok, d := NextDir(old(tree), name, d, s, q);
        if !ok { return; }
        s := q + 1;
      }
    }

    /** One component: the directory is found or made. */
    method NextDir(ghost t0: Tree, name: string, d: Node, s: nat, q: nat) returns (ok: bool, d': Node)
      requires Walking(t0, tree, name, d, s) && q < |name| && q == NextSlash(name, s)
      modifies this`tree
      ensures ok ==> Walking(t0, tree, name, d', q + 1)
      ensures !ok ==> !Clear(t0.ns, ROOT, name, 0)
    {
      var de := FindEntry(d, name[s..q]);
      if de.None? {
        MkDirStep(t0, tree, name, d, s, q);
        d' := tree.next;
        tree := MkDir(tree, d, name[s..q]);
        return true, d';
      }
      if tree.ns[de.value].kind != Dir { return false, d; }
      FoundDir(t0, tree, name, d, s, q, de.value);
      return true, de.value;
    }

    /** The part of devfs_populate that enters the device of slot i under its name. */
    method Enter(i: nat, name: string, alias: bool) returns (ok: bool)
      requires Valid() && 3 <= i < INOMOUNT && i !in dirent
      modifies this
      ensures ok <==> Clear(old(tree.ns), ROOT, name, 0)
      ensures ok ==> Valid() && names == old(names)[i := name] && i in dirent && dirent == old(dirent)[i := dirent[i]]
      ensures ok ==> dirent[i] in tree.ns && tree.ns[dirent[i]].kind == if alias then Link else Dev
      ensures ok ==> EnteredAs(old(tree), tree, dirent[i], name, i, alias)
    {
      ghost var t0 := tree;
      var d, s;
      ok, d, s := Walk(name);
      if !ok { return; }
      assert Reached(t0, tree, name, d, s);
      EnterKeeps(t0, tree, dirent, names, d, name, s, i, alias);
      dirent := dirent[i := tree.next];
      tree := AddDev(tree, d, name[s..], i, alias);
      names := names[i := name];
    }

    /** The part of devfs_populate that drops the entry of a device that is gone. */
    method Leave(i: nat)
      requires Valid() && i in dirent
      modifies this
      ensures Valid() && names == old(names) - {i} && dirent == old(dirent) - {i}
      ensures old(dirent[i]) in old(tree.ns) && old(tree.ns[dirent[i]].dir) in old(tree.ns)
      ensures tree == Remove(old(tree), old(dirent[i]))
    {
      LeaveKeeps(tree, dirent, names, i);
      var x := dirent[i];
      dirent, names := dirent - {i}, names - {i};
      tree := Remove(tree, x);
    }

    /** bcopy(s, buf + at, |s|) */
    method Copy(buf: array<char>, at: nat, s: string)
      requires at + |s| <= buf.Length
      modifies buf
      ensures buf[..] == old(buf[..at]) + s + old(buf[at + |s|..])
    {
      for i := 0 to |s|
        invariant buf[..] == old(buf[..at]) + s[..i] + old(buf[at + i..])
      {
        buf[at + i] := s[i];
      }
    }

    /** Puts n and a slash in front of what stands at `at`. */
    method Prepend(buf: array<char>, at: nat, n: string)
      requires |n| + 1 <= at <= buf.Length
      modifies buf
      ensures buf[..] == old(buf[..at - 1 - |n|]) + (n + "/") + old(buf[at..])
    {
      buf[at - 1] := '/';
      Copy(buf, at - 1 - |n|, n);
    }

    /** devfs_fqpn: the path is built backwards from the end of the first len characters. */
    method Fqpn(buf: array<char>, len: nat, dd: Node, name: string) returns (r: Option<nat>)
      requires TreeOk(tree) && IsDir(tree.ns, dd) && 1 <= len <= buf.Length
      modifies buf
      ensures r.None? <==> |DirPath(tree, dd) + name| + 1 > len
      ensures r.Some? ==> r.value < len && buf[r.value..len - 1] == DirPath(tree, dd) + name && buf[len - 1] == '\0'
      ensures r.Some? ==> buf[..r.value] == old(buf[..r.value])
      ensures buf[len..] == old(buf[len..])
    {
      ghost var path, was := DirPath(tree, dd) + name, buf[..];
      var at: nat := len - 1;
      buf[at] := '\0';
      if at < |name| { return None; }
      at := at - |name|;
      Copy(buf, at, name);
      assert buf[..] == was[..at] + name + ['\0'] + was[len..];
      PrintStarts(tree, dd, name, was, buf[..], at, len);
      r := ClimbUp(buf, at, len, dd, path, was);
    }

    /** The loop of devfs_fqpn: directory names are put in front until the root is reached. */
    method ClimbUp(buf: array<char>, at0: nat, len: nat, dd: Node, ghost path: string,
        ghost was: seq<char>) returns (r: Option<nat>)
      requires len <= buf.Length && Printed(tree, path, dd, was, buf[..], at0, len)
      modifies buf
      ensures r.None? <==> |path| + 1 > len
      ensures r.Some? ==>
        r.value < len && buf[r.value..len - 1] == path && buf[len - 1] == '\0' && buf[..r.value] == was[..r.value]
      ensures buf[len..] == was[len..]
    {
      var at: nat, de := at0, dd;
      while de != ROOT
        invariant Printed(tree, path, de, was, buf[..], at, len)
        decreases de
      {
        var n, up := tree.ns[de].name, DotDotDir(de);
        TooLong(tree, path, de, was, buf[..], at, len);
        if at < 1 + |n| { return None; }
        PrintNext(tree, path, de, was, buf[..], at, len);
        Prepend(buf, at, n);
        at, de := at - 1 - |n|, up;
      }
      PrintDone(tree, path, was, buf[..], at, len);
      assert buf[at..len - 1] == buf[..][at..len - 1];
      r := Some(at);
    }

    /** TAILQ_NEXT(TAILQ_FIRST(&de->de_dlist)), the ".." entry, and its de_dir */
    function DotDotDir(d: Node): (up: Node)
      reads this
      requires TreeOk(tree) && IsDir(tree.ns, d)
      ensures up == Parent(tree.ns, d)
    {
      assert DirOk(tree.ns, d);
      tree.ns[tree.ns[d].list[1]].dir
    }
  }

  // ---------------------------------------------------------------- lemmas

  /** Only directories were added. */
  ghost predicate Grown(t: Tree, t': Tree) {
    && DirsKept(t, t')
    && (forall x {:trigger SameEntry(t.ns, t'.ns, x)} :: x in t.ns && t.ns[x].kind != Dir ==> SameEntry(t.ns, t'.ns, x))
    && (forall x {:trigger SameEntry(t.ns, t'.ns, x)} :: x in t'.ns && t'.ns[x].kind in {Dev, Link} ==>
         SameEntry(t.ns, t'.ns, x))
  }

  lemma {:induction false} GrownNext(t: Tree, t': Tree, t'': Tree)
    requires Grown(t, t') && Grown(t', t'')
    ensures Grown(t, t'')
  {
    forall d | IsDir(t.ns, d) ensures SameDir(t.ns, t''.ns, d) {
      assert SameDir(t.ns, t'.ns, d);
      assert SameDir(t'.ns, t''.ns, d);
    }
    forall x | x in t.ns && t.ns[x].kind != Dir ensures SameEntry(t.ns, t''.ns, x) {
      assert SameEntry(t.ns, t'.ns, x) && SameEntry(t'.ns, t''.ns, x);
    }
    forall x | x in t''.ns && t''.ns[x].kind in {Dev, Link} ensures SameEntry(t.ns, t''.ns, x) {
      assert SameEntry(t'.ns, t''.ns, x) && SameEntry(t.ns, t'.ns, x);
    }
  }

  /** The walk through the name has come to directory d, whose path is the part before s. */
  ghost predicate Walking(t0: Tree, t: Tree, name: string, d: Node, s: nat) {
    && TreeOk(t) && Numbered(t) && Grown(t0, t)
    && IsDir(t.ns, d) && s <= |name| && DirPath(t, d) == name[..s]
    && (Clear(t.ns, d, name, s) <==> Clear(t0.ns, ROOT, name, 0))
  }

  lemma {:induction false} WalkStarts(t: Tree, name: string)
    requires TreeOk(t) && Numbered(t)
    ensures Walking(t, t, name, ROOT, 0)
  {
    assert forall d :: IsDir(t.ns, d) ==> SameDir(t.ns, t.ns, d);
  }

  lemma {:induction false} ClearInNew(t: Tree, name: string, d: Node, s: nat, q: nat)
    requires TreeOk(t) && IsDir(t.ns, d) && s <= q < |name| && q == NextSlash(name, s)
    requires Find(t.ns, t.ns[d].list, name[s..q]).None? && TreeOk(MkDir(t, d, name[s..q]))
    ensures Clear(MkDir(t, d, name[s..q]).ns, t.next, name, q + 1) <==> Clear(t.ns, d, name, s)
  {
    var ns := MkDir(t, d, name[s..q]).ns;
    assert IsDir(ns, t.next);
    assert DirOk(ns, t.next);
    FreshIsClear(ns, t.next, name, q + 1);
  }

  lemma {:induction false} MkDirGrows(t: Tree, d: Node, name: string)
    requires TreeOk(t) && IsDir(t.ns, d)
    ensures Grown(t, MkDir(t, d, name))
  {
    MkDirKeeps(t, d, name);
    var t' := MkDir(t, d, name);
    forall x | x in t'.ns && t'.ns[x].kind in {Dev, Link} ensures SameEntry(t.ns, t'.ns, x) {}
  }

  /** The path up to and including a component. */
  lemma {:induction false} UpTo(name: string, s: nat, q: nat)
    requires s <= q < |name| && q == NextSlash(name, s)
    ensures name[..q + 1] == name[..s] + name[s..q] + "/"
  {}

  /** A missing directory is made. */
  lemma {:induction false} MkDirStep(t0: Tree, t: Tree, name: string, d: Node, s: nat, q: nat)
    requires Walking(t0, t, name, d, s) && s <= q < |name| && q == NextSlash(name, s)
    requires Find(t.ns, t.ns[d].list, name[s..q]).None?
    ensures Walking(t0, MkDir(t, d, name[s..q]), name, t.next, q + 1)
  {
    MkDirKeeps(t, d, name[s..q]);
    MkDirNumbers(t, d, name[s..q]);
    MkDirGrows(t, d, name[s..q]);
    ClearInNew(t, name, d, s, q);
    UpTo(name, s, q);
    WalkOn(t0, t, MkDir(t, d, name[s..q]), name, d, s, q, t.next);
  }

  lemma {:induction false} WalkOn(t0: Tree, t: Tree, t': Tree, name: string, d: Node, s: nat, q: nat, x: Node)
    requires Walking(t0, t, name, d, s) && q < |name|
    requires TreeOk(t') && Numbered(t') && Grown(t, t') && IsDir(t'.ns, x) && DirPath(t', x) == name[..q + 1]
    requires Clear(t'.ns, x, name, q + 1) <==> Clear(t.ns, d, name, s)
    ensures Walking(t0, t', name, x, q + 1)
  {
    GrownNext(t0, t, t');
  }

  /** An existing directory is entered. */
  lemma {:induction false} FoundDir(t0: Tree, t: Tree, name: string, d: Node, s: nat, q: nat, x: Node)
    requires Walking(t0, t, name, d, s) && s <= q < |name| && q == NextSlash(name, s)
    requires Find(t.ns, t.ns[d].list, name[s..q]) == Some(x) && IsDir(t.ns, x)
    ensures Walking(t0, t, name, x, q + 1)
  {
    SubPath(t, d, x);
    assert name[..q + 1] == name[..s] + name[s..q] + "/";
  }

  lemma {:induction false} SubPath(t: Tree, d: Node, x: Node)
    requires TreeOk(t) && IsDir(t.ns, d) && x in t.ns[d].list && IsDir(t.ns, x)
    ensures DirPath(t, x) == DirPath(t, d) + t.ns[x].name + "/"
  {
    assert DirOk(t.ns, d) && DirOk(t.ns, x);
    var i :| 0 <= i < |t.ns[d].list| && t.ns[d].list[i] == x;
    assert i >= 2;
    assert ItemOk(t.ns, d, t.ns[d].list[i]);
  }

  /** The end of the path stands in b[at..len - 1], what is missing is the path of directory de; b is
    otherwise as it was, but for the terminator. */
  ghost predicate Printed(t: Tree, path: string, de: Node, was: seq<char>, b: seq<char>, at: nat, len: nat) {
    && TreeOk(t) && IsDir(t.ns, de) && at < len <= |b| == |was|
    && path == DirPath(t, de) + b[at..len - 1] && b[len - 1] == '\0'
    && b[..at] == was[..at] && b[len..] == was[len..]
  }

  lemma {:induction false} PrintStarts(t: Tree, dd: Node, name: string, was: seq<char>, b: seq<char>, at: nat, len: nat)
    requires TreeOk(t) && IsDir(t.ns, dd) && 1 <= len <= |was| && at + |name| == len - 1
    requires b == was[..at] + name + ['\0'] + was[len..]
    ensures Printed(t, DirPath(t, dd) + name, dd, was, b, at, len)
  {
    assert b[at..len - 1] == name && b[..at] == was[..at] && b[len..] == was[len..];
  }

  lemma {:induction false} TooLong(t: Tree, path: string, de: Node, was: seq<char>, b: seq<char>, at: nat, len: nat)
    requires Printed(t, path, de, was, b, at, len) && de != ROOT
    ensures at < 1 + |t.ns[de].name| ==> |path| + 1 > len
    ensures Parent(t.ns, de) < de
  {
    Climb(t, de, []);
  }

  lemma {:induction false} PrintDone(t: Tree, path: string, was: seq<char>, b: seq<char>, at: nat, len: nat)
    requires Printed(t, path, ROOT, was, b, at, len)
    ensures path == b[at..len - 1] && |path| + 1 <= len
  {
    assert DirPath(t, ROOT) == "";
  }

  lemma {:induction false} PrintNext(t: Tree, path: string, de: Node, was: seq<char>, b: seq<char>, at: nat, len: nat)
    requires Printed(t, path, de, was, b, at, len) && de != ROOT && at >= 1 + |t.ns[de].name|
    ensures var n := t.ns[de].name;
      Printed(t, path, Parent(t.ns, de), was, b[..at - 1 - |n|] + (n + "/") + b[at..], at - 1 - |n|, len)
  {
    var n := t.ns[de].name;
    var front := at - 1 - |n|;
    Climb(t, de, b[at..len - 1]);
    Spliced(b, n + "/", front, len);
    assert b[..front] == b[..at][..front] == was[..front];
  }

  /** Writing p at `front` changes nothing else. */
  lemma {:induction false} Spliced(b: seq<char>, p: string, front: nat, len: nat)
    requires front + |p| < len <= |b|
    ensures var b' := b[..front] + p + b[front + |p|..];
      && |b'| == |b| && b'[..front] == b[..front] && b'[len..] == b[len..] && b'[len - 1] == b[len - 1]
      && b'[front..len - 1] == p + b[front + |p|..len - 1]
  {
    var b' := b[..front] + p + b[front + |p|..];
    assert forall i :: 0 <= i < |b| ==> b'[i] == if front <= i < front + |p| then p[i - front] else b[i];
  }

  lemma {:induction false} Climb(t: Tree, d: Node, tail: string)
    requires TreeOk(t) && IsDir(t.ns, d) && d != ROOT
    ensures IsDir(t.ns, Parent(t.ns, d)) && Parent(t.ns, d) < d
    ensures DirPath(t, d) + tail == DirPath(t, Parent(t.ns, d)) + (t.ns[d].name + "/" + tail)
    ensures |DirPath(t, d)| >= |t.ns[d].name| + 1
  {
    assert DirOk(t.ns, d);
  }

  /** Entering one device keeps the paths and numbers of all others. */
  lemma {:induction false} EnterKeeps(t0: Tree, t: Tree, dirent: map<nat, Node>, names: map<nat, string>,
                                      d: Node, name: string, s: nat, i: nat, alias: bool)
    requires MountOk(t0, dirent, names) && TreeOk(t) && Numbered(t) && Grown(t0, t)
    requires IsDir(t.ns, d) && s <= |name| && DirPath(t, d) == name[..s] && 3 <= i < INOMOUNT && i !in dirent
    ensures MountOk(AddDev(t, d, name[s..], i, alias), dirent[i := t.next], names[i := name])
  {
    var t' := AddDev(t, d, name[s..], i, alias);
    forall x | x in t.ns && t.ns[x].kind == Dev ensures HasSlot(t, dirent, x) {
      assert SameEntry(t0.ns, t.ns, x) && HasSlot(t0, dirent, x);
    }
    AddDevKeeps(t, d, name[s..], i, alias);
    AddDevNumbers(t, d, name[s..], i, alias);
    assert name == name[..s] + name[s..];
    assert SlotOk(t', t.next, i, name);
    forall j | j in dirent ensures SlotOk(t', dirent[j], j, names[j]) && dirent[j] != t.next {
      OtherSlot(t0, t, t', dirent[j], j, names[j]);
    }
    var dirent' := dirent[i := t.next];
    forall j, k | Shared(dirent', j, k) ensures j == k { assert j != i && k != i ==> Shared(dirent, j, k); }
    forall x | x in t'.ns && t'.ns[x].kind in {Dev, Link} ensures Entered(dirent', x) {
      EnteredStays(t0, t, t', dirent, i, t.next, x);
    }
    forall x | x in t'.ns && t'.ns[x].kind == Dev ensures HasSlot(t', dirent', x) {
      assert x != t.next ==> SameEntry(t.ns, t'.ns, x) && HasSlot(t, dirent, x);
    }
  }

  lemma {:induction false} EnteredStays(t0: Tree, t: Tree, t': Tree, dirent: map<nat, Node>, i: nat, n: Node, x: Node)
    requires Grown(t0, t) && i !in dirent && x in t'.ns && t'.ns[x].kind in {Dev, Link}
    requires forall y {:trigger Entered(dirent, y)} :: y in t0.ns && t0.ns[y].kind in {Dev, Link} ==> Entered(dirent, y)
    requires x != n ==> x in t.ns && t.ns[x].kind == t'.ns[x].kind
    ensures Entered(dirent[i := n], x)
  {
    if x == n {
      assert dirent[i := n][i] == n;
    } else {
      assert SameEntry(t0.ns, t.ns, x) && Entered(dirent, x);
      var j :| j in dirent && dirent[j] == x;
      assert dirent[i := n][j] == x;
    }
  }

  lemma {:induction false} LeaveKeeps(t: Tree, dirent: map<nat, Node>, names: map<nat, string>, i: nat)
    requires MountOk(t, dirent, names) && i in dirent
    ensures dirent[i] in t.ns && t.ns[dirent[i]].dir in t.ns
    ensures MountOk(Remove(t, dirent[i]), dirent - {i}, names - {i})
  {
    assert SlotOk(t, dirent[i], i, names[i]);
    var x := dirent[i];
    RemoveKeeps(t, x);
    RemoveNumbers(t, x);
    var t', dirent', names' := Remove(t, x), dirent - {i}, names - {i};
    forall j | j in dirent' ensures SlotOk(t', dirent'[j], j, names'[j]) {
      assert SlotOk(t, dirent[j], j, names[j]) && !Shared(dirent, i, j);
      assert SameEntry(t.ns, t'.ns, dirent[j]);
      FullPathKept(t, t', dirent[j]);
    }
    forall j, k | Shared(dirent', j, k) ensures j == k { assert Shared(dirent, j, k); }
    forall y | y in t'.ns && t'.ns[y].kind == Dev ensures HasSlot(t', dirent', y) { assert HasSlot(t, dirent, y); }
    forall y | y in t'.ns && t'.ns[y].kind in {Dev, Link} ensures Entered(dirent', y) {
      assert Entered(dirent, y);
      var j :| j in dirent && dirent[j] == y;
      assert dirent'[j] == y;
    }
  }

  /** Entering a device on a mount keeps it well-formed, under the device's name. */
  lemma {:induction false} EnterOk(t: Tree, t': Tree, x: Node, dirent: map<nat, Node>, names: map<nat, string>,
      name: string, i: nat, alias: bool)
    requires MountOk(t, dirent, names) && 3 <= i < INOMOUNT && i !in dirent && EnteredAs(t, t', x, name, i, alias)
    ensures MountOk(t', dirent[i := x], names[i := name])
  {
    var u, d, s: nat :| Reached(t, u, name, d, s) && x == u.next && t' == AddDev(u, d, name[s..], i, alias);
    EnterKeeps(t, u, dirent, names, d, name, s, i, alias);
  }

  lemma {:induction false} OtherSlot(t0: Tree, t: Tree, t': Tree, x: Node, j: nat, name: string)
    requires TreeOk(t0) && TreeOk(t) && TreeOk(t') && Grown(t0, t) && DirsKept(t, t') && SlotOk(t0, x, j, name)
    requires forall x {:trigger SameEntry(t.ns, t'.ns, x)} :: x in t.ns && t.ns[x].kind != Dir ==>
      SameEntry(t.ns, t'.ns, x)
    ensures SlotOk(t', x, j, name) && x < t.next
  {
    assert SameEntry(t0.ns, t.ns, x) && SameEntry(t.ns, t'.ns, x);
    FullPathKept(t0, t, x);
    FullPathKept(t, t', x);
  }

  /** The round trip: for every device with an entry, devfs_fqpn applied to the entry's directory and
    name gives the device's own name, and the name fits the buffer of devfs_lookupx. */
  method RoundTrip(m: Mount, i: nat, buf: array<char>) returns (at: nat)
    requires m.Valid() && i in m.dirent && |m.names[i]| <= SPECNAMELEN && buf.Length == SPECNAMELEN + 1
    modifies buf
    ensures at < buf.Length && buf[at..SPECNAMELEN] == m.names[i] && buf[SPECNAMELEN] == '\0'
  {
    assert SlotOk(m.tree, m.dirent[i], i, m.names[i]);
    var e := m.tree.ns[m.dirent[i]];
    assert DevOk(m.tree.ns, m.dirent[i]);
    var r := m.Fqpn(buf, buf.Length, e.dir, e.name);
    at := r.value;
  }
}
