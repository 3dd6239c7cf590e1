/** What the worker does when nobody interrupts it: one scan of the list, and one callback. */
module CalloutWorker {
  import opened Basics
  import opened Ticks
  import opened Callouts
  import opened CalloutSafety
  import opened CalloutTheorems

  /** From s the worker's own statements lead to r. */
  ghost predicate Works(s: State, r: State) {
    exists steps :: (forall i :: 0 <= i < |steps| ==> steps[i] == Work) && CanExec(s, steps) && Exec(s, steps) == r
  }

  lemma {:induction false} AtRest(s: State)
    ensures Works(s, s)
  {
    var none: seq<Step> := [];
    assert CanExec(s, none) && Exec(s, none) == s;
  }

  lemma {:induction false} WorkOn(s: State, r: State, r': State)
    requires Works(s, r) && WorkEnabled(r) && r' == WorkStep(r)
    ensures Works(s, r')
  {
    var steps :| (forall i :: 0 <= i < |steps| ==> steps[i] == Work) && CanExec(s, steps) && Exec(s, steps) == r;
    ExecOneMore(s, steps, Work);
    var more := steps + [Work];
    assert forall i :: 0 <= i < |more| ==> more[i] == Work;
  }

  // ---------------------------------------------------------------- the scan

  /** The callout at position j of the list tests as expired. */
  predicate DueAt(s: State, j: nat) {
    j < |s.list| && s.list[j] in s.co && Wrap(s.co[s.list[j]].timeout - s.now) < 0
  }

  /** Position j holds the first callout of the list that tests as expired. */
  predicate FirstDue(s: State, j: nat) {
    DueAt(s, j) && forall k: nat :: k < j ==> !DueAt(s, k)
  }

  lemma {:induction false} ScanOnce(s: State, i: nat)
    requires ListInv(s) && s.w == Scan(i) && i <= |s.list|
    ensures WorkEnabled(s)
    ensures i == |s.list| ==> WorkStep(s) == s.(w := NoneExit)
    ensures i < |s.list| && !DueAt(s, i) ==> WorkStep(s) == s.(w := Scan(i + 1))
    ensures DueAt(s, i) ==> WorkStep(s) == s.(curr := Some(s.list[i]), cancel := false, w := SelExit(s.list[i]),
      log := s.log + [Selected(s.list[i], s.now)])
  {}

  /** From position i on, with nothing expired before it. */
  lemma {:induction false} ScanOn(s0: State, s: State, i: nat)
    requires Works(s0, s) && ListInv(s) && s.w == Scan(i) && i <= |s.list| && forall k: nat :: k < i ==> !DueAt(s, k)
    ensures forall j: nat :: FirstDue(s, j) ==>
      Works(s0, s.(curr := Some(s.list[j]), cancel := false, w := SelExit(s.list[j]),
                   log := s.log + [Selected(s.list[j], s.now)]))
    ensures (forall j: nat :: !DueAt(s, j)) ==> Works(s0, s.(w := NoneExit))
    decreases |s.list| - i
  {
    ScanOnce(s, i);
    WorkOn(s0, s, WorkStep(s));
    if i < |s.list| && !DueAt(s, i) {
      var s' := WorkStep(s);
      assert forall k: nat :: DueAt(s', k) <==> DueAt(s, k);
      ScanOn(s0, s', i + 1);
      assert forall j: nat :: FirstDue(s, j) ==> FirstDue(s', j);
    }
  }

  lemma {:induction false} ScanStarts(s: State)
    requires s.lk.None? && s.w.Enter?
    ensures Works(s, s.(lk := Some(WORKER), curr := None, w := Scan(0)))
  {
    AtRest(s);
    var s1 := s.(lk := Some(WORKER), w := Clear);
    WorkOn(s, s, s1);
    WorkOn(s, s1, s1.(curr := None, w := Scan(0)));
  }

  /** The worker has selected the callout at position j and dropped mtx_callout. */
  function Chosen(r: State, j: nat): State
    requires j < |r.list|
  {
    var c := r.list[j];
    r.(curr := Some(c), cancel := false, w := CbLock(c), log := r.log + [Selected(c, r.now)])
  }

  /** usb_callout_process, one scan that nobody interrupts, in any state of any run: if some callout on the list tests
    as expired, the first such is selected and becomes curr_callout, uncancelled; if none does, the worker goes to
    sleep with curr_callout NULL.  Nothing else changes. */
  lemma {:induction false} ScanUninterrupted(s: State, steps: seq<Step>, j: nat)
    requires Init(s) && CanExec(s, steps) && Exec(s, steps).w.Enter? && Exec(s, steps).lk.None?
    ensures var r := Exec(s, steps); FirstDue(r, j) ==> Works(r, Chosen(r, j))
    ensures var r := Exec(s, steps); (forall k: nat :: !DueAt(r, k)) ==> Works(r, r.(curr := None, w := Asleep))
  {
    InitInv(s);
    ExecInv(s, steps);
    var r := Exec(s, steps);
    if FirstDue(r, j) { ScanChooses(r, j); }
    if forall k: nat :: !DueAt(r, k) { ScanSleeps(r); }
  }

  lemma {:induction false} ScanChooses(r: State, j: nat)
    requires ListInv(r) && r.lk.None? && r.w.Enter? && FirstDue(r, j)
    ensures Works(r, Chosen(r, j))
  {
    var s := r.(lk := Some(WORKER), curr := None, w := Scan(0));
    ScanStarts(r);
    ScanOn(r, s, 0);
    assert FirstDue(s, j) by { assert forall k: nat :: DueAt(s, k) <==> DueAt(r, k); }
    var e := Chosen(r, j).(lk := Some(WORKER), w := SelExit(r.list[j]));
    assert Works(r, e);
    WorkOn(r, e, Chosen(r, j));
  }

  lemma {:induction false} ScanSleeps(r: State)
    requires ListInv(r) && r.lk.None? && r.w.Enter? && forall k: nat :: !DueAt(r, k)
    ensures Works(r, r.(curr := None, w := Asleep))
  {
    var s := r.(lk := Some(WORKER), curr := None, w := Scan(0));
    ScanStarts(r);
    assert forall k: nat :: DueAt(s, k) <==> DueAt(r, k);
    ScanOn(r, s, 0);
    WorkOn(r, s.(w := NoneExit), r.(curr := None, w := Asleep));
  }

  // ---------------------------------------------------------------- a callback

  /** Locks are held at a depth of one or more. */
  ghost predicate LocksOk(s: State) {
    forall m :: LockOf(s, m).Held? ==> LockOf(s, m).depth >= 1
  }

  lemma {:induction false} LockThenUnlock(l: Lock, t: Tid)
    requires CanLock(l, t) && (l.Held? ==> l.depth >= 1)
    ensures Unlocked(Locked(l, t)) == l && Locked(l, t).depth >= 1
  {}

  /** At most the lock m was written. */
  lemma {:induction false} OneLock(s: State, s': State, m: Mtx)
    requires LocksOk(s) && (s'.locks == s.locks || (m in s'.locks && s'.locks == s.locks[m := s'.locks[m]]))
    requires s'.locks != s.locks && LockOf(s', m).Held? ==> LockOf(s', m).depth >= 1
    ensures LocksOk(s')
  {
    forall x: Mtx | LockOf(s', x).Held? ensures LockOf(s', x).depth >= 1 {
      if x != m || s'.locks == s.locks { assert LockOf(s', x) == LockOf(s, x); }
    }
  }

  lemma {:induction false} StepKeepsLocks(s: State, step: Step)
    requires LocksOk(s) && Enabled(s, step)
    ensures LocksOk(Apply(s, step))
  {
    var s' := Apply(s, step);
    match step
    case Client(t) =>
      ClientFrame(s, t);
      OneLock(s, s', 0);
    case Work => WorkKeepsLocks(s);
    case Acquire(_, m) => OneLock(s, s', m);
    case Release(_, m) => OneLock(s, s', m);
    case _ => OneLock(s, s', 0);
  }

  lemma {:induction false} WorkKeepsLocks(s: State)
    requires LocksOk(s) && WorkEnabled(s)
    ensures LocksOk(WorkStep(s))
  {
    if s.w.CbLock? || s.w.CbCancel? || s.w.CbReturn? {
      OneLock(s, WorkStep(s), s.co[s.w.c].mtx);
    } else {
      OneLock(s, WorkStep(s), 0);
    }
  }

  lemma {:induction false} ExecLocks(s: State, steps: seq<Step>)
    requires LocksOk(s) && CanExec(s, steps)
    ensures LocksOk(Exec(s, steps))
    decreases |steps|
  {
    if steps != [] {
      StepKeepsLocks(s, steps[0]);
      ExecLocks(Apply(s, steps[0]), steps[1..]);
    }
  }

  /** The worker has taken c off the list and is at w, its mutex locked as l. */
  function OffList(s: State, c: Cid, l: Lock, w: WPc, log: seq<Event>): State
    requires c in s.co
  {
    s.(list := Without(s.list, {c}), co := s.co[c := s.co[c].(linked := false)], locks := s.locks[s.co[c].mtx := l],
       w := w, log := log)
  }

  lemma {:induction false} Unlinks(s: State, c: Cid)
    requires ListInv(s) && c in s.co
    ensures Unlink(s, c) == s.(list := Without(s.list, {c}), co := s.co[c := s.co[c].(linked := false)])
  {
    if c !in s.list { WithoutAbsent(s.list, c); }
    assert s.co[c].linked || s.co[c := s.co[c].(linked := false)] == s.co;
  }

  lemma {:induction false} WithoutAbsent(l: seq<Cid>, c: Cid)
    requires c !in l
    ensures Without(l, {c}) == l
  {
    if l != [] {
      assert l == [l[0]] + l[1..];
      WithoutAbsent(l[1..], c);
    }
  }

  /** Both locks, the unlink block, and back to the test of curr_cancel. */
  lemma {:induction false} UpToTest(r: State, c: Cid)
    requires ListInv(r) && c in r.co && r.w == CbLock(c) && r.lk.None? && CanLock(LockOf(r, r.co[c].mtx), WORKER)
    ensures Works(r, OffList(r, c, Locked(LockOf(r, r.co[c].mtx), WORKER), CbTest(c), r.log))
  {
    var l := Locked(LockOf(r, r.co[c].mtx), WORKER);
    AtRest(r);
    var r1 := r.(locks := r.locks[r.co[c].mtx := l], w := CbEnter(c));
    WorkOn(r, r, r1);
    var r2 := r1.(lk := Some(WORKER), w := CbBody(c));
    WorkOn(r, r1, r2);
    Unlinks(r2, c);
    var r3 := OffList(r, c, l, CbExit(c), r.log).(lk := Some(WORKER));
    WorkOn(r, r2, r3);
    WorkOn(r, r3, r3.(lk := None, w := CbTest(c)));
  }

  lemma {:induction false} Tests(s: State, c: Cid)
    requires c in s.co && s.w == CbTest(c)
    ensures WorkEnabled(s)
    ensures WorkStep(s) == if s.cancel then s.(w := CbCancel(c)) else s.(w := CbCall(c), log := s.log + [Committed(c)])
  {}

  lemma {:induction false} Calls(s: State, c: Cid)
    requires c in s.co
    ensures s.w == CbCall(c) ==>
      && WorkEnabled(s)
      && WorkStep(s) == if s.co[c].func.Some? then s.(w := CbFire(c))
           else s.(w := CbReturn(c), log := s.log + [Skipped(c)])
    ensures s.w == CbFire(c) ==>
      && WorkEnabled(s)
      && WorkStep(s) == s.(w := CbFunc(c),
           log := s.log + [Fired(c, s.co[c].func, s.co[c].arg, LockOf(s, s.co[c].mtx))])
  {}

  /** The callback gives the mutex back where it has to. */
  lemma {:induction false} GivesBack(s: State, c: Cid)
    requires c in s.co && (s.w == CbCancel(c) || s.w == CbReturn(c)) && Holds(s, WORKER, c)
    ensures WorkEnabled(s)
    ensures WorkStep(s) == if s.w == CbReturn(c) && s.co[c].returnUnlocked then s.(w := Enter)
      else s.(w := Enter, locks := s.locks[s.co[c].mtx := Unlocked(LockOf(s, s.co[c].mtx))])
  {}

  /** usb_callout_callback without interruption, cancelled: the callout is off the list, the locks are as before, and
    nothing was called. */
  lemma {:induction false} CancelledCallback(s: State, steps: seq<Step>, c: Cid)
    requires Init(s) && CanExec(s, steps)
    requires var r := Exec(s, steps);
      c in r.co && r.w == CbLock(c) && r.lk.None? && CanLock(LockOf(r, r.co[c].mtx), WORKER) && r.cancel
    ensures var r := Exec(s, steps); Works(r, OffList(r, c, LockOf(r, r.co[c].mtx), Enter, r.log))
  {
    InitInv(s);
    ExecInv(s, steps);
    ExecLocks(s, steps);
    CancelledWalk(Exec(s, steps), c);
  }

  lemma {:induction false} CancelledWalk(r: State, c: Cid)
    requires ListInv(r) && LocksOk(r) && c in r.co && r.w == CbLock(c) && r.lk.None? && r.cancel
    requires CanLock(LockOf(r, r.co[c].mtx), WORKER)
    ensures Works(r, OffList(r, c, LockOf(r, r.co[c].mtx), Enter, r.log))
  {
    var m := r.co[c].mtx;
    var l := LockOf(r, m);
    UpToTest(r, c);
    LockThenUnlock(l, WORKER);
    var r1 := OffList(r, c, Locked(l, WORKER), CbTest(c), r.log);
    Tests(r1, c);
    var r2 := r1.(w := CbCancel(c));
    WorkOn(r, r1, r2);
    GivesBack(r2, c);
    assert r.locks[m := Locked(l, WORKER)][m := l] == r.locks[m := l];
    WorkOn(r, r2, OffList(r, c, l, Enter, r.log));
  }

  /** Uncancelled and with a function: it is called with its argument, the mutex locked by the worker. */
  lemma {:induction false} CallbackCalls(s: State, steps: seq<Step>, c: Cid)
    requires Init(s) && CanExec(s, steps)
    requires var r := Exec(s, steps);
      c in r.co && r.w == CbLock(c) && r.lk.None? && CanLock(LockOf(r, r.co[c].mtx), WORKER) && !r.cancel
    requires Exec(s, steps).co[c].func.Some?
    ensures var r := Exec(s, steps); var l := Locked(LockOf(r, r.co[c].mtx), WORKER);
      Works(r, OffList(r, c, l, CbFunc(c), r.log + [Committed(c), Fired(c, r.co[c].func, r.co[c].arg, l)]))
  {
    InitInv(s);
    ExecInv(s, steps);
    CallWalk(Exec(s, steps), c);
  }

  lemma {:induction false} CallWalk(r: State, c: Cid)
    requires ListInv(r) && c in r.co && r.w == CbLock(c) && r.lk.None? && !r.cancel && r.co[c].func.Some?
    requires CanLock(LockOf(r, r.co[c].mtx), WORKER)
    ensures var l := Locked(LockOf(r, r.co[c].mtx), WORKER);
      Works(r, OffList(r, c, l, CbFunc(c), r.log + [Committed(c), Fired(c, r.co[c].func, r.co[c].arg, l)]))
  {
    var l := Locked(LockOf(r, r.co[c].mtx), WORKER);
    UpToTest(r, c);
    var r1 := OffList(r, c, l, CbTest(c), r.log);
    Tests(r1, c);
    var r2 := OffList(r, c, l, CbCall(c), r.log + [Committed(c)]);
    WorkOn(r, r1, r2);
    Calls(r2, c);
    var r3 := OffList(r, c, l, CbFire(c), r.log + [Committed(c)]);
    WorkOn(r, r2, r3);
    Calls(r3, c);
    var e := Fired(c, r.co[c].func, r.co[c].arg, l);
    assert r.log + [Committed(c)] + [e] == r.log + [Committed(c), e];
    WorkOn(r, r3, OffList(r, c, l, CbFunc(c), r.log + [Committed(c), e]));
  }

  /** When the function returns, the worker gives the mutex back once, unless CALLOUT_RETURNUNLOCKED says that the
    function did, and scans again. */
  lemma {:induction false} CallbackReturns(s: State, steps: seq<Step>, c: Cid)
    requires Init(s) && CanExec(s, steps) && Exec(s, steps).w == CbFunc(c) && Enabled(Exec(s, steps), FuncReturn)
    ensures var r := Exec(s, steps); var r' := Apply(r, FuncReturn);
      && c in r.co && r'.log == r.log + [Returned(c)] && WorkEnabled(r')
      && WorkStep(r') == if r.co[c].returnUnlocked then r.(w := Enter, log := r'.log)
           else r.(w := Enter, log := r'.log, locks := r.locks[r.co[c].mtx := Unlocked(LockOf(r, r.co[c].mtx))])
  {}
}
