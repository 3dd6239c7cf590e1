/** devfs_readdir: listing a directory page by page through a buffer of limited size. */
module Readdir {
  const ENOTDIR: int := 20
  const EINVAL: int := 22

  type Length = n: nat | n > 0 witness 1

  /** A devfs_dirent as the listing sees it; `dirInode` is the inode of de_dir. */
  datatype Entry = Entry(name: string, reclen: Length, whiteout: bool, isDir: bool, inode: nat, dirInode: nat)

  /** What is copied out: the name and the number of the file that it stands for. */
  datatype Record = Record(name: string, reclen: Length, fileno: nat)

  function ToRecord(e: Entry): Record {
    Record(e.name, e.reclen, if e.isDir then e.dirInode else e.inode)
  }

  function ToRecords(es: seq<Entry>): seq<Record> {
    seq(|es|, i requires 0 <= i < |es| => ToRecord(es[i]))
  }

  /** The entries that are not whiteouts. */
  function Visible(es: seq<Entry>): seq<Entry> {
    VisibleUpTo(es, |es|)
  }

  function VisibleUpTo(es: seq<Entry>, n: nat): seq<Entry>
    requires n <= |es|
  {
    if n == 0 then []
    else VisibleUpTo(es, n - 1) + if es[n - 1].whiteout then [] else [es[n - 1]]
  }

  /** The offset at which the entries `es` end. */
  function Size(es: seq<Entry>): nat {
    if es == [] then 0 else Size(es[..|es| - 1]) + es[|es| - 1].reclen
  }

  // ---------------------------------------------------------------- one call

  /** a is the first entry that does not start before the offset. */
  ghost predicate StartsAt(v: seq<Entry>, offset: int, a: nat) {
    && a <= |v| && (a < |v| ==> Size(v[..a]) >= offset)
    && (forall j :: 0 <= j < a ==> Size(v[..j]) < offset)
  }

  /** Entry j passes the test against the room left: skipped entries are tested too. */
  ghost predicate Fits(v: seq<Entry>, a: nat, resid: nat, j: nat)
    requires j < |v| && a <= |v|
  {
    if j <= a then v[j].reclen <= resid else Size(v[..j + 1]) - Size(v[..a]) <= resid
  }

  /** The call stops in front of entry b; fault(j) is what uiomove would return for entry j. */
  ghost predicate StopsAt(v: seq<Entry>, offset: int, resid: nat, fault: nat -> int, a: nat, b: nat, error: int) {
    && StartsAt(v, offset, a) && b <= |v|
    && (forall j :: 0 <= j < b ==> Fits(v, a, resid, j) && (j >= a ==> fault(j) == 0))
    && (if error == 0 then b == |v| || !Fits(v, a, resid, b)
        else a <= b < |v| && Fits(v, a, resid, b) && fault(b) == error)
  }

  /** What one call returns and the offset it leaves. */
  ghost predicate Page(v: seq<Entry>, a: nat, b: nat, out: seq<Record>, offset': int) {
    b <= |v| && out == (if a <= b then ToRecords(v[a..b]) else []) && offset' == Size(v[..b])
  }

  /** devfs_readdir; b counts the visible entries passed. */
  method List(es: seq<Entry>, isDir: bool, offset: int, resid: nat, fault: nat -> int)
    returns (error: int, out: seq<Record>, offset': int, cookies: seq<int>, ghost a: nat, b: nat)
    ensures !isDir ==> error == ENOTDIR && out == [] && offset' == offset
    ensures isDir && offset < 0 ==> error == EINVAL && out == [] && offset' == offset
    ensures isDir && offset >= 0 ==> StopsAt(Visible(es), offset, resid, fault, a, b, error)
    ensures isDir && offset >= 0 ==> Page(Visible(es), a, b, out, offset')
    ensures isDir && offset >= 0 ==> |out| == (if a <= b then b - a else 0)
    // d_fileno is the number of de_dir for ".", ".." and directories, else the entry's own
    ensures isDir && offset >= 0 ==> forall j :: 0 <= j < |out| ==>
      && a + j < |Visible(es)| && out[j].name == Visible(es)[a + j].name && out[j].reclen == Visible(es)[a + j].reclen
      && out[j].fileno == if Visible(es)[a + j].isDir then Visible(es)[a + j].dirInode else Visible(es)[a + j].inode
    ensures isDir && offset >= 0 && error == 0 ==> |cookies| == |out|
    ensures isDir && offset >= 0 && error == 0 ==>
      forall j :: 0 <= j < |cookies| ==> a + j < |Visible(es)| && cookies[j] == offset + SpanSize(Visible(es), a, j)
  {
    out, offset', cookies, a, b := [], offset, [], 0, 0;
    if !isDir { error := ENOTDIR; return; }
    if offset < 0 { error := EINVAL; return; }
    error, out, offset', a, b := Scan(es, offset, resid, fault);
    if error == 0 { cookies := Cookies(Visible(es), offset, a, b, out); }
  }

  /** The listing loop. */
  method Scan(es: seq<Entry>, offset: int, resid: nat, fault: nat -> int)
    returns (error: int, out: seq<Record>, off: int, ghost a: nat, b: nat)
    ensures StopsAt(Visible(es), offset, resid, fault, a, b, error)
    ensures Page(Visible(es), a, b, out, off)
  {
    ghost var v := Visible(es);
    a := FindStart(v, offset);
    b, out := 0, [];
    var at, room := offset, resid;
    off, error := 0, 0;
    var i := 0;
    assert v[..0] == [];
    while i < |es|
      invariant 0 <= i <= |es| && b <= |v| && VisibleUpTo(es, i) == v[..b]
      invariant error == 0 && StartsAt(v, offset, a)
      invariant Passed(v, resid, fault, a, b) && Page(v, a, b, out, off) && Counters(v, offset, resid, a, b, at, room)
    {
      VisibleNext(es, i, b);
      if es[i].whiteout { i := i + 1; continue; }
      NextEntry(v, offset, resid, fault, a, b, out, at, room);
      if es[i].reclen > room { break; }
      if off >= at {
        error := fault(b);
        if error != 0 { break; }
        at, room := at + es[i].reclen, room - es[i].reclen;
        out := out + [ToRecord(es[i])];
      }
      off := off + es[i].reclen;
      i, b := i + 1, b + 1;
    }
  }

  /** The cookie loop: one offset for each record in the buffer. */
  method Cookies(ghost v: seq<Entry>, offset: int, ghost a: nat, ghost b: nat,
      out: seq<Record>) returns (cookies: seq<int>)
    requires b <= |v| && a <= |v| && out == if a <= b then ToRecords(v[a..b]) else []
    ensures |cookies| == |out|
    ensures forall j :: 0 <= j < |cookies| ==> a + j < |v| && cookies[j] == offset + SpanSize(v, a, j)
  {
    cookies := [];
    var old', j := offset, 0;
    while j < |out|
      invariant 0 <= j <= |out| && |cookies| == j
      invariant a + j <= |v| && old' == offset + Size(v[..a + j]) - Size(v[..a])
      invariant forall k :: 0 <= k < j ==> cookies[k] == offset + SpanSize(v, a, k)
    {
      SizeNext(v, a + j);
      assert v[a..b][j] == v[a + j] && out[j] == ToRecord(v[a + j]);
      old' := old' + out[j].reclen;
      cookies := cookies + [old'];
      j := j + 1;
    }
  }

  /** The size of entries a to a + j. */
  function SpanSize(v: seq<Entry>, a: nat, j: nat): int
    requires a + j < |v|
  {
    Size(v[..a + j + 1]) - Size(v[..a])
  }

  // ---------------------------------------------------------------- lemmas about one call

  /** The first b entries were taken or skipped. */
  ghost predicate Passed(v: seq<Entry>, resid: nat, fault: nat -> int, a: nat, b: nat) {
    && a <= |v| && b <= |v|
    && (forall j :: 0 <= j < b ==> Fits(v, a, resid, j) && (j >= a ==> fault(j) == 0))
  }

  /** uio_offset and uio_resid in front of entry b. */
  ghost predicate Counters(v: seq<Entry>, offset: int, resid: nat, a: nat, b: nat, at: int, room: int) {
    && a <= |v| && b <= |v|
    && (if b <= a then at == offset && room == resid
        else at == offset + Size(v[..b]) - Size(v[..a]) && room == resid - (Size(v[..b]) - Size(v[..a])))
  }

  /** Passing entry b keeps the books right, whether it is skipped or taken. */
  lemma {:induction false} NextEntry(v: seq<Entry>, offset: int, resid: nat, fault: nat -> int, a: nat, b: nat,
      out: seq<Record>, at: int, room: int)
    requires b < |v| && StartsAt(v, offset, a) && Passed(v, resid, fault, a, b)
    requires Page(v, a, b, out, Size(v[..b])) && Counters(v, offset, resid, a, b, at, room)
    ensures v[b].reclen > room ==> StopsAt(v, offset, resid, fault, a, b, 0)
    ensures v[b].reclen <= room ==> (Size(v[..b]) >= at <==> a <= b)
    ensures v[b].reclen <= room && a <= b && fault(b) != 0 ==> StopsAt(v, offset, resid, fault, a, b, fault(b))
    ensures v[b].reclen <= room && a <= b && fault(b) == 0 ==>
      && Passed(v, resid, fault, a, b + 1) && Page(v, a, b + 1, out + [ToRecord(v[b])], Size(v[..b]) + v[b].reclen)
      && Counters(v, offset, resid, a, b + 1, at + v[b].reclen, room - v[b].reclen)
    ensures v[b].reclen <= room && b < a ==>
      && Passed(v, resid, fault, a, b + 1) && Page(v, a, b + 1, out, Size(v[..b]) + v[b].reclen)
      && Counters(v, offset, resid, a, b + 1, at, room)
  {
    SizeNext(v, b);
    if a <= b { assert v[a..b + 1] == v[a..b] + [v[b]]; }
  }

  lemma {:induction false} SizeNext(v: seq<Entry>, k: nat)
    requires k < |v|
    ensures Size(v[..k + 1]) == Size(v[..k]) + v[k].reclen
  {
    assert v[..k + 1][..k] == v[..k];
  }

  lemma {:induction false} SizeGrows(v: seq<Entry>, j: nat, k: nat)
    requires j <= k <= |v|
    ensures Size(v[..j]) + (k - j) <= Size(v[..k])
    decreases k - j
  {
    if j < k {
      SizeNext(v, k - 1);
      SizeGrows(v, j, k - 1);
    }
  }

  lemma {:induction false} VisiblePrefix(es: seq<Entry>, i: nat, n: nat)
    requires i <= n <= |es|
    ensures VisibleUpTo(es, i) <= VisibleUpTo(es, n)
    decreases n
  {
    if i < n { VisiblePrefix(es, i, n - 1); }
  }

  /** Where the i-th entry of the list stands among the visible ones. */
  lemma {:induction false} VisibleNext(es: seq<Entry>, i: nat, b: nat)
    requires i < |es| && b <= |Visible(es)| && VisibleUpTo(es, i) == Visible(es)[..b]
    ensures es[i].whiteout ==> VisibleUpTo(es, i + 1) == Visible(es)[..b]
    ensures !es[i].whiteout ==>
      b < |Visible(es)| && Visible(es)[b] == es[i] && VisibleUpTo(es, i + 1) == Visible(es)[..b + 1]
  {
    VisiblePrefix(es, i + 1, |es|);
  }

  /** Nothing but whiteouts is left out. */
  /** The positions of entries before n that are no whiteouts. */
  function Shown(es: seq<Entry>, n: nat): set<nat>
    requires n <= |es|
  {
    set k: nat | k < n && !es[k].whiteout
  }

  lemma {:induction false} ShownCount(es: seq<Entry>, n: nat)
    requires n <= |es|
    ensures |VisibleUpTo(es, n)| == |Shown(es, n)|
  {
    if n > 0 {
      ShownCount(es, n - 1);
      assert Shown(es, n) == Shown(es, n - 1) + if es[n - 1].whiteout then {} else {n - 1};
    }
  }

  /** The listing is the directory without its whiteouts, in order: each other entry stands behind exactly those
    that stand before it in the directory. */
  lemma {:induction false} VisibleAt(es: seq<Entry>, i: nat)
    requires i < |es| && !es[i].whiteout
    ensures |Visible(es)| == |Shown(es, |es|)| && |Shown(es, i)| < |Visible(es)|
    ensures Visible(es)[|Shown(es, i)|] == es[i]
  {
    ShownCount(es, |es|);
    ShownCount(es, i);
    VisiblePrefix(es, i + 1, |es|);
    assert VisibleUpTo(es, i + 1)[|Shown(es, i)|] == es[i];
  }

  lemma {:induction false} VisibleElements(es: seq<Entry>, n: nat, e: Entry)
    requires n <= |es|
    ensures e in VisibleUpTo(es, n) <==> e in es[..n] && !e.whiteout
  {
    if n > 0 {
      VisibleElements(es, n - 1, e);
      assert es[..n] == es[..n - 1] + [es[n - 1]];
    }
  }

  lemma {:induction false} FindStartFrom(v: seq<Entry>, offset: int, k: nat) returns (a: nat)
    requires k <= |v| && forall j :: 0 <= j < k ==> Size(v[..j]) < offset
    ensures StartsAt(v, offset, a)
    decreases |v| - k
  {
    if k == |v| || Size(v[..k]) >= offset { a := k; } else { a := FindStartFrom(v, offset, k + 1); }
  }

  lemma {:induction false} FindStart(v: seq<Entry>, offset: int) returns (a: nat)
    ensures StartsAt(v, offset, a)
  {
    a := FindStartFrom(v, offset, 0);
  }

  /** From the k-th boundary the listing starts with the k-th entry. */
  lemma {:induction false} BoundaryStart(v: seq<Entry>, k: nat, a: nat)
    requires k <= |v| && StartsAt(v, Size(v[..k]), a)
    ensures a == k
  {
    if a < k { SizeGrows(v, a, k); }
  }

  /** The outcome of a call is determined. */
  lemma {:induction false} OneOutcome(v: seq<Entry>, offset: int, resid: nat, fault: nat -> int,
                   a: nat, b: nat, error: int, a': nat, b': nat, error': int)
    requires StopsAt(v, offset, resid, fault, a, b, error) && StopsAt(v, offset, resid, fault, a', b', error')
    ensures a == a' && b == b' && error == error'
  {
  }

  /** From a record boundary the call leaves a boundary; it returns something exactly if every
    record up to and including the next one fits the buffer, and moves the offset back exactly
    if an earlier record does not. */
  lemma {:induction false} ProgressIff(v: seq<Entry>, k: nat, resid: nat, fault: nat -> int, a: nat, b: nat)
    requires k <= |v| && StopsAt(v, Size(v[..k]), resid, fault, a, b, 0)
    ensures a == k
    ensures k < |v| ==> (b > k <==> (fault(k) == 0 && forall j :: 0 <= j <= k ==> v[j].reclen <= resid))
    ensures b < k <==> exists j :: 0 <= j < k && v[j].reclen > resid
    ensures b < k <==> Size(v[..b]) < Size(v[..k])
  {
    BoundaryStart(v, k, a);
    if b < k {
      SizeGrows(v, b, k);
      assert !Fits(v, a, resid, b);
    } else {
      SizeGrows(v, k, b);
      forall j | 0 <= j < k ensures v[j].reclen <= resid { assert Fits(v, a, resid, j); }
      if b > k { assert Fits(v, a, resid, k); }
    }
  }

  // ---------------------------------------------------------------- paging

  /** uiomove always succeeds. */
  function NoFault(j: nat): int {
    0
  }

  /** One successful call: the offset and the buffer it was given, what it returned. */
  datatype Call = Call(offset: int, resid: nat, out: seq<Record>, offset': int)

  ghost predicate CallOk(v: seq<Entry>, c: Call) {
    exists a, b :: StopsAt(v, c.offset, c.resid, NoFault, a, b, 0) && Page(v, a, b, c.out, c.offset')
  }

  /** A program reads the directory from the start, each call where the last one left off. */
  ghost predicate Session(v: seq<Entry>, calls: seq<Call>) {
    && (forall i :: 0 <= i < |calls| ==> CallOk(v, calls[i]))
    && (|calls| > 0 ==> calls[0].offset == 0)
    && (forall i :: 0 < i < |calls| ==> calls[i].offset == calls[i - 1].offset')
  }

  /** Every buffer holds the largest record. */
  ghost predicate Roomy(v: seq<Entry>, calls: seq<Call>) {
    forall i, j :: 0 <= i < |calls| && 0 <= j < |v| ==> v[j].reclen <= calls[i].resid
  }

  /** What the first n calls returned. */
  function Output(calls: seq<Call>, n: nat): seq<Record>
    requires n <= |calls|
  {
    if n == 0 then [] else Output(calls, n - 1) + calls[n - 1].out
  }

  function EndOffset(calls: seq<Call>, n: nat): int
    requires n <= |calls|
  {
    if n == 0 then 0 else calls[n - 1].offset'
  }

  /** A call from boundary m in a large enough buffer. */
  lemma {:induction false} RoomyCall(v: seq<Entry>, c: Call, m: nat) returns (b: nat)
    requires CallOk(v, c) && m <= |v| && c.offset == Size(v[..m]) && forall j :: 0 <= j < |v| ==> v[j].reclen <= c.resid
    ensures m <= b <= |v| && c.out == ToRecords(v[m..b]) && c.offset' == Size(v[..b])
    ensures b == m ==> m == |v|
  {
    var a: nat, b': nat :| StopsAt(v, c.offset, c.resid, NoFault, a, b', 0) && Page(v, a, b', c.out, c.offset');
    ProgressIff(v, m, c.resid, NoFault, a, b');
    b := b';
  }

  lemma {:induction false} RecordsJoin(v: seq<Entry>, m: nat, b: nat)
    requires m <= b <= |v|
    ensures ToRecords(v[..m]) + ToRecords(v[m..b]) == ToRecords(v[..b])
  {
  }

  /** After any number of calls the output is an initial part of the directory, in order and
    without repetition; the offset is the boundary behind it; each call gains at least one entry
    until the end, so |v| calls are enough. */
  lemma {:induction false} PagingIsComplete(v: seq<Entry>, calls: seq<Call>, n: nat) returns (k: nat)
    requires Session(v, calls) && Roomy(v, calls) && n <= |calls|
    ensures k <= |v| && EndOffset(calls, n) == Size(v[..k])
    ensures Output(calls, n) == ToRecords(v[..k])
    ensures n <= k || k == |v|
  {
    if n == 0 {
      k := 0;
    } else {
      var m := PagingIsComplete(v, calls, n - 1);
      assert CallOk(v, calls[n - 1]) && calls[n - 1].offset == Size(v[..m]);
      k := RoomyCall(v, calls[n - 1], m);
      RecordsJoin(v, m, k);
    }
  }

  /** A session is done, and says so by returning nothing, exactly at the end of the directory. */
  lemma {:induction false} EmptyPageMeansEnd(v: seq<Entry>, calls: seq<Call>, n: nat)
    requires Session(v, calls) && Roomy(v, calls) && n < |calls|
    ensures calls[n].out == [] <==> Output(calls, n) == ToRecords(v)
    ensures Output(calls, n + 1) == ToRecords(v) || |Output(calls, n + 1)| > |Output(calls, n)|
  {
    var m := PagingIsComplete(v, calls, n);
    assert CallOk(v, calls[n]) && calls[n].offset == Size(v[..m]);
    var b := RoomyCall(v, calls[n], m);
    RecordsJoin(v, m, b);
    assert v[..|v|] == v;
    assert |ToRecords(v[..m])| == m && |ToRecords(v)| == |v|;
  }

  /** Resuming from a cookie continues behind the record that the cookie belongs to. */
  lemma {:induction false} CookieResumes(v: seq<Entry>, k: nat, resid: nat, a: nat, b: nat, j: nat, cookie: int,
      a': nat)
    requires k <= |v| && StopsAt(v, Size(v[..k]), resid, NoFault, a, b, 0) && a + j < b
    requires cookie == Size(v[..k]) + SpanSize(v, a, j) && StartsAt(v, cookie, a')
    ensures a' == k + j + 1
  {
    BoundaryStart(v, k, a);
    BoundaryStart(v, k + j + 1, a');
  }

  /** Below that size the guarantee is lost: a buffer that holds the next record but not the first
    one returns nothing and sends the reader back to the start. */
  lemma {:induction false} SmallBufferStartsOver(x: Entry, y: Entry)
    requires x.reclen > y.reclen
    ensures StopsAt([x, y], x.reclen, y.reclen, NoFault, 1, 0, 0) && Page([x, y], 1, 0, [], 0)
  {
    var v := [x, y];
    assert v[..0] == [] && v[..1] == [x];
    SizeNext(v, 0);
    assert v[..1][..0] == [];
  }
}
