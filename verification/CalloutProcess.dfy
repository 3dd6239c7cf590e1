/** usb_callout_process with ticks standing still: it terminates, leaves no expired
  callout behind, and tells the worker a safe time to sleep. */
module CalloutProcess {
  import opened Basics
  import opened Ticks

  type Cid = nat

  /** What a callback may do to callouts. */
  datatype Op = Reset(c: Cid, ticks: nat, hasFunc: bool) | Stop(c: Cid)

  /** The n-th invocation in a call of usb_callout_process, of callout c, performs script(c, n). */
  type Script = (Cid, nat) -> seq<Op>

  datatype Entry = Entry(timeout: int, hasFunc: bool)

  /** The callouts on head_callout, in list order, and their fields. */
  datatype Queue = Queue(list: seq<Cid>, entry: map<Cid, Entry>)

  ghost predicate Valid(q: Queue) {
    Distinct(q.list) && forall c :: c in q.list ==> c in q.entry
  }

  function Remaining(q: Queue, c: Cid, now: int): int
    requires c in q.entry
  {
    Wrap(q.entry[c].timeout - now)
  }

  predicate Expired(q: Queue, c: Cid, now: int) {
    c in q.entry && Remaining(q, c, now) < 0
  }

  lemma {:induction false} DistinctExtend(list: seq<Cid>, c: Cid)
    requires Distinct(list) && c !in list
    ensures Distinct([c] + list) && Distinct(list + [c])
  {
    var front, back := [c] + list, list + [c];
    forall i, j | 0 <= i < j < |front| ensures front[i] != front[j] && back[i] != back[j] {}
  }

  function Operate(q: Queue, op: Op, now: int): Queue {
    match op
    case Stop(c) => q.(list := Without(q.list, {c}))
    case Reset(c, n, f) =>
      Queue([c] + Without(q.list, {c}), q.entry[c := Entry(Wrap(now + n), f)])
  }

  function OperateAll(q: Queue, ops: seq<Op>, now: int): Queue
    decreases |ops|
  {
    if ops == [] then q else OperateAll(Operate(q, ops[0], now), ops[1..], now)
  }

  /** Deadlines of a callback are not in the past: to_ticks stays below 2^31. */
  ghost predicate NonPast(script: Script) {
    forall c, n, i :: 0 <= i < |script(c, n)| && script(c, n)[i].Reset? ==> script(c, n)[i].ticks < HALF
  }

  function Touched(ops: seq<Op>): set<Cid> {
    set i | 0 <= i < |ops| :: ops[i].c
  }

  /** Expired callouts still on the list. */
  function Due(q: Queue, now: int): set<Cid> {
    set c | c in q.list && Expired(q, c, now)
  }

  lemma {:induction false} OperateEffect(q: Queue, op: Op, now: int)
    requires Valid(q) && -HALF <= now < HALF && (op.Reset? ==> op.ticks < HALF)
    ensures var r := Operate(q, op, now);
      && Valid(r)
      && Due(r, now) == Due(q, now) - {op.c}
      && (forall d :: d != op.c ==> (d in r.list <==> d in q.list))
      && (forall d :: d in q.entry && d != op.c ==> d in r.entry && r.entry[d] == q.entry[d])
  {
    if op.Reset? {
      DistinctExtend(Without(q.list, {op.c}), op.c);
      var r := Operate(q, op, now);
      WrapDifference(now + op.ticks, now);
      assert Wrap(Wrap(now + op.ticks) - now) == op.ticks;
      assert op.c in r.list && !Expired(r, op.c, now);
    }
  }

  /** Operations on other callouts leave c alone. */
  lemma {:induction false} OperateElsewhere(q: Queue, ops: seq<Op>, now: int, c: Cid)
    requires forall k :: 0 <= k < |ops| ==> ops[k].c != c
    ensures var r := OperateAll(q, ops, now);
      && (c in r.list <==> c in q.list) && (c in r.entry <==> c in q.entry)
      && (c in q.entry ==> r.entry[c] == q.entry[c])
    decreases |ops|
  {
    if ops != [] { OperateElsewhere(Operate(q, ops[0], now), ops[1..], now, c); }
  }

  /** The last operation on a callout decides: after a reset it is on the list with the new timeout and function,
    after a stop it is not on the list. */
  lemma {:induction false} OperateLast(q: Queue, ops: seq<Op>, now: int, i: nat)
    requires i < |ops| && forall k :: i < k < |ops| ==> ops[k].c != ops[i].c
    ensures var r, op := OperateAll(q, ops, now), ops[i];
      && (op.c in r.list <==> op.Reset?)
      && (op.Reset? ==> op.c in r.entry && r.entry[op.c] == Entry(Wrap(now + op.ticks), op.hasFunc))
    decreases |ops|
  {
    var q' := Operate(q, ops[0], now);
    if i == 0 { OperateElsewhere(q', ops[1..], now, ops[0].c); } else { OperateLast(q', ops[1..], now, i - 1); }
  }

  lemma {:induction false} OperateAllEffect(q: Queue, ops: seq<Op>, now: int)
    requires Valid(q) && -HALF <= now < HALF
    requires forall i :: 0 <= i < |ops| && ops[i].Reset? ==> ops[i].ticks < HALF
    ensures var r := OperateAll(q, ops, now);
      && Valid(r)
      && Due(r, now) == Due(q, now) - Touched(ops)
      && (forall d :: d !in Touched(ops) ==> (d in r.list <==> d in q.list))
      && (forall d :: d in q.entry && d !in Touched(ops) ==> d in r.entry && r.entry[d] == q.entry[d])
    decreases |ops|
  {
    if ops != [] {
      OperateEffect(q, ops[0], now);
      OperateAllEffect(Operate(q, ops[0], now), ops[1..], now);
      assert Touched(ops) == {ops[0].c} + Touched(ops[1..]) by {
        forall x | x in Touched(ops) ensures x in {ops[0].c} + Touched(ops[1..]) {
          var i :| 0 <= i < |ops| && ops[i].c == x;
          if i > 0 { assert ops[1..][i - 1].c == x; }
        }
        forall x | x in Touched(ops[1..]) ensures x in Touched(ops) {
          var i :| 0 <= i < |ops[1..]| && ops[1..][i].c == x;
          assert ops[i + 1].c == x;
        }
      }
    }
  }

  function Max(a: int, b: int): int { if a > b then a else b }

  /** What one callback of c does to the list, the invocations made and the callouts touched. */
  ghost predicate CalledBack(q: Queue, fired: seq<Cid>, touched: set<Cid>, q': Queue, fired': seq<Cid>,
      touched': set<Cid>, c: Cid, now: int)
    requires c in q.entry
  {
    && Valid(q') && touched <= touched' && Due(q', now) <= Due(q, now) - {c} &&
         Due(q, now) - Due(q', now) <= {c} + touched'
    && (forall d :: d != c && d !in touched' ==> (d in q'.list <==> d in q.list))
    && (c !in touched' ==> c !in q'.list)
    && (forall d :: d in q.entry && d !in touched' ==> d in q'.entry && q'.entry[d] == q.entry[d])
    && fired' == if q.entry[c].hasFunc then fired + [c] else fired
  }

  /** Between two passes: start is the list at the beginning of the call. */
  ghost predicate Passes(start: Queue, q: Queue, fired: seq<Cid>, touched: set<Cid>, now: int) {
    && Valid(q) && Due(q, now) <= Due(start, now) && Distinct(fired)
    && (forall c :: c in fired ==> c in Due(start, now) && c !in Due(q, now))
    && (forall c :: c in Due(start, now) && c !in touched && c !in Due(q, now) ==>
          (c in fired <==> start.entry[c].hasFunc) && c !in q.list)
    && (forall c :: c in start.entry && c !in touched ==> c in q.entry && q.entry[c] == start.entry[c])
    && (forall c :: c in start.list && c !in Due(start, now) && c !in touched ==> c in q.list)
  }

  lemma {:induction false} PassDone(start: Queue, q: Queue, fired: seq<Cid>, touched: set<Cid>, q': Queue,
      fired': seq<Cid>, touched': set<Cid>, c: Cid, now: int)
    requires Passes(start, q, fired, touched, now) && c in q.entry && c in Due(q, now) && Valid(start)
    requires CalledBack(q, fired, touched, q', fired', touched', c, now)
    ensures Passes(start, q', fired', touched', now) && Due(q', now) < Due(q, now)
  {
    assert c !in fired;
    DistinctExtend(fired, c);
    forall d | d in Due(start, now) && d !in touched' && d !in Due(q', now)
      ensures (d in fired' <==> start.entry[d].hasFunc) && d !in q'.list
    {
      assert d != c ==> d !in Due(q, now);
    }
  }

  /** An untouched callout that was not due is listed with the same time after the callback. */
  lemma {:induction false} StillNext(q: Queue, fired: seq<Cid>, touched: set<Cid>, q': Queue, fired': seq<Cid>,
                                     touched': set<Cid>, c: Cid, now: int, d: int)
    requires CallbackOn(q, c, now) && CalledBack(q, fired, touched, q', fired', touched', c, now) && touched' == {}
    requires NextDue(q, now, d)
    ensures NextDue(q', now, d)
  {
    var x :| x in q.list && x in q.entry && !Expired(q, x, now) && d == Remaining(q, x, now);
    assert x in q'.list && q'.entry[x] == q.entry[x];
  }

  predicate CallbackOn(q: Queue, c: Cid, now: int) {
    c in q.entry && Expired(q, c, now)
  }

  /** The first i callouts are not expired, and none is due in less than d ticks. */
  ghost predicate Scanned(q: Queue, now: int, i: int, d: int)
    requires Valid(q)
  {
    && 0 <= i <= |q.list|
    && (forall k :: 0 <= k < i ==> !Expired(q, q.list[k], now) && d <= Remaining(q, q.list[k], now))
  }

  /** Some listed callout is due in d ticks. */
  ghost predicate NextDue(q: Queue, now: int, d: int) {
    exists c :: c in q.list && c in q.entry && !Expired(q, c, now) && d == Remaining(q, c, now)
  }

  /** The list, the callbacks made by this call, and the callouts those callbacks touched. */
  class Scheduler {
    var queue: Queue
    var fired: seq<Cid>
    ghost var touched: set<Cid>

    constructor (q: Queue)
      ensures queue == q && fired == [] && touched == {}
    {
      queue, fired, touched := q, [], {};
    }

    /** usb_callout_callback for a caller that is alone: unlink, then invoke. */
    method Callback(c: Cid, now: int, script: Script)
      requires Valid(queue) && c in queue.list && Expired(queue, c, now) && -HALF <= now < HALF
      requires NonPast(script)
      modifies this
      ensures CalledBack(old(queue), old(fired), old(touched), queue, fired, touched, c, now)
      ensures var ops := if old(queue).entry[c].hasFunc then script(c, |old(fired)|) else [];
        && queue == OperateAll(old(queue).(list := Without(old(queue).list, {c})), ops, now)
        && touched == old(touched) + Touched(ops)
    {
      var n := |fired|;
      var call := queue.entry[c].hasFunc;
      queue := queue.(list := Without(queue.list, {c}));
      assert Due(queue, now) == Due(old(queue), now) - {c};
      if call {
        OperateAllEffect(queue, script(c, n), now);
        queue := OperateAll(queue, script(c, n), now);
        fired := fired + [c];
        touched := touched + Touched(script(c, n));
      }
    }

    /** One scan of the list: it stops at the first expired callout, and lowers the delay to the
      least time that remains before it. */
    method Scan(now: int, delay0: int) returns (i: nat, delay: int)
      requires Valid(queue)
      ensures Scanned(queue, now, i, delay) && delay <= delay0
      ensures i < |queue.list| ==> Expired(queue, queue.list[i], now)
      ensures delay == delay0 || NextDue(queue, now, delay)
    {
      i, delay := 0, delay0;
      while i < |queue.list| && !(Wrap(queue.entry[queue.list[i]].timeout - now) < 0)
        invariant Scanned(queue, now, i, delay) && delay <= delay0
        invariant delay == delay0 || NextDue(queue, now, delay)
      {
        var delta := Wrap(queue.entry[queue.list[i]].timeout - now);
        if delay > delta { delay := delta; }
        i := i + 1;
      }
    }

    /** usb_callout_process.  Each pass either finds nothing expired and returns, or invokes
      one expired callout and starts over; the set of expired callouts shrinks with it. */
    method Process(now: int, hz: nat, script: Script) returns (delay: int)
      requires Valid(queue) && fired == [] && touched == {} && -HALF <= now < HALF
      requires NonPast(script)
      modifies this
      ensures Valid(queue) && Due(queue, now) == {}
      ensures 1 <= delay <= Max(1, hz / 16)
      ensures forall c :: c in queue.list ==> delay <= Max(1, Remaining(queue, c, now))
      // and it is no shorter than need be, if no callback re-arms or stops a callout
      ensures touched == {} ==> delay == Max(1, hz / 16) || exists c ::
        c in queue.list && delay == Max(1, Remaining(queue, c, now))
      // each callout that was due fires exactly once unless a callback touched it or it has no function
      ensures Distinct(fired)
      ensures forall c :: c in fired ==> c in Due(old(queue), now)
      ensures forall c :: c in Due(old(queue), now) && c !in touched ==>
                (c in fired <==> old(queue).entry[c].hasFunc) && c !in queue.list
      // callouts that were not due and that no callback touched are left as they were
      ensures forall c :: c in old(queue).list && c !in Due(old(queue), now) && c !in touched ==>
                c in queue.list && queue.entry[c] == old(queue).entry[c]
    {
      var minDelay := hz / 16;
      ghost var start := queue;
      var i;
      i, minDelay := Scan(now, minDelay);
      while i < |queue.list|
        invariant Passes(start, queue, fired, touched, now) && minDelay <= hz / 16
        invariant Scanned(queue, now, i, minDelay) && (i < |queue.list| ==> Expired(queue, queue.list[i], now))
        invariant touched == {} ==> minDelay == hz / 16 || NextDue(queue, now, minDelay)
        decreases Due(queue, now)
      {
        ghost var q, f, t := queue, fired, touched;
        var c := queue.list[i];
        Callback(c, now, script);
        PassDone(start, q, f, t, queue, fired, touched, c, now);
        if touched == {} && minDelay != hz / 16 { StillNext(q, f, t, queue, fired, touched, c, now, minDelay); }
        i, minDelay := Scan(now, minDelay);
      }
      delay := if minDelay <= 0 then 1 else minDelay;
    }
  }

  // ---------------------------------------------------------------- why non-past matters

  /** One pass of the repeat loop over a list holding only c, whose callback re-arms it. */
  function Round(q: Queue, c: Cid, ticks: nat, now: int): Queue {
    Operate(q.(list := Without(q.list, {c})), Reset(c, ticks, true), now)
  }

  function Rounds(q: Queue, c: Cid, ticks: nat, now: int, n: nat): Queue {
    if n == 0 then q else Round(Rounds(q, c, ticks, now, n - 1), c, ticks, now)
  }

  /** A callback that re-arms itself 2^31 or more ticks ahead is expired again at once, so
    the repeat loop never leaves it: exactly these distances break termination. */
  lemma {:induction false} FarRearmNeverEnds(q: Queue, c: Cid, ticks: nat, now: int, n: nat)
    requires q.list == [c] && Expired(q, c, now) && -HALF <= now < HALF && 0 < n && ticks < FULL
    ensures Rounds(q, c, ticks, now, n).list == [c]
    ensures Expired(Rounds(q, c, ticks, now, n), c, now) <==> HALF <= ticks
  {
    if n > 1 { FarRearmNeverEnds(q, c, ticks, now, n - 1); }
    var p := Rounds(q, c, ticks, now, n - 1);
    assert p.list == [c];
    assert Without(p.list, {c}) == [];
    WrapDifference(now + ticks, now);
    if HALF <= ticks { WrapShift(ticks, -1); }
  }
}
