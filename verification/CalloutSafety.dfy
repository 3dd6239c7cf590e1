/** Safety of the callout scheduler over every run: when a callback may fire, and
  what usb_callout_drain guarantees on return. */
module CalloutSafety {
  import opened Basics
  import opened Callouts

  // ---------------------------------------------------------------- specification

  /** What the log says about one callout: nothing pending, a reset in force, or a
    reset in force that the worker selected at time `at`. */
  datatype Status =
    | Off
    | Pending(f: Option<Func>, a: Option<Arg>, deadline: int, ticks: U32)
    | Taken(f: Option<Func>, a: Option<Arg>, deadline: int, ticks: U32, at: int)

  function Observe(st: Status, e: Event, c: Cid): Status {
    if e.c != c then st
    else match e
      case Armed(_, f, a, dl, n) => Pending(f, a, dl, n)
      case Stopped(_, _) => Off
      case Selected(_, at) => if st.Pending? then Taken(st.f, st.a, st.deadline, st.ticks, at) else Off
      case Fired(_, _, _, _) => Off
      case Skipped(_) => Off
      case _ => st
  }

  function StatusOf(log: seq<Event>, c: Cid): Status {
    if log == [] then Off
    else Observe(StatusOf(log[..|log| - 1], c), log[|log| - 1], c)
  }

  /** What the log says about drains of c that are made without its mutex: the threads inside the
    usb_callout_stop of such a drain, whether a reset of c is storing its values (lines 160-165),
    whether the worker is past its cancel test for c, and whether a drain overlapped either since c was last
    stopped properly. */
  datatype Overlap = Overlap(draining: set<Tid>, resetting: bool, committed: bool, spoiled: bool)

  function Note(m: Overlap, e: Event, c: Cid): Overlap {
    if e.c != c then m
    else match e
      case DrainBegan(_, t, locked) => if locked then m else m.(draining := m.draining + {t})
      case Arming(_, _) => m.(resetting := true)
      case Armed(_, _, _, _, _) => m.(resetting := false)
      // a stop with the mutex held clears the fields for good, unless a drain is still at it
      case Stopped(_, t) =>
        if t in m.draining then m.(draining := m.draining - {t})
        else m.(spoiled := m.spoiled && m.draining != {})
      case Committed(_) => m.(committed := true)
      case Fired(_, _, _, _) => m.(committed := false)
      case Skipped(_) => m.(committed := false)
      case _ => m
  }

  function Watch(m: Overlap, e: Event, c: Cid): Overlap {
    var n := Note(m, e, c);
    n.(spoiled := n.spoiled || (n.draining != {} && (n.resetting || n.committed)))
  }

  function WatchOf(log: seq<Event>, c: Cid): Overlap {
    if log == [] then Overlap({}, false, false, false)
    else Watch(WatchOf(log[..|log| - 1], c), log[|log| - 1], c)
  }

  /** The stop inside a drain without the mutex overlapped the part of a reset of c that follows its own
    stop, or a callback of c past its cancel test, and no stop with the mutex has come after it. */
  predicate Spoiled(log: seq<Event>, c: Cid) {
    WatchOf(log, c).spoiled
  }

  predicate InCallback(log: seq<Event>, c: Cid) {
    log != [] &&
    var e := log[|log| - 1];
    if e.c == c && e.Fired? then true
    else if e.c == c && e.Returned? then false
    else InCallback(log[..|log| - 1], c)
  }

  ghost predicate NoArmSince(log: seq<Event>, since: nat, c: Cid) {
    forall i :: since <= i < |log| ==> !(log[i].Armed? && log[i].c == c)
  }

  // ---------------------------------------------------------------- invariant

  /** The worker is dealing with the callout `w.c`. */
  predicate Busy(w: WPc) {
    !(w.Asleep? || w.Enter? || w.Clear? || w.Scan? || w.NoneExit?)
  }

  predicate About(w: WPc, c: Cid) {
    Busy(w) && w.c == c
  }

  /** The worker selected c and has not yet unlinked it. */
  predicate PreUnlink(w: WPc, c: Cid) {
    (w.SelExit? || w.CbLock? || w.CbEnter? || w.CbBody?) && w.c == c
  }

  predicate PreFire(w: WPc, c: Cid) {
    PreUnlink(w, c) || w == CbExit(c) || w == CbTest(c)
  }

  predicate OwnsMtx(w: WPc) {
    w.CbEnter? || w.CbBody? || w.CbExit? || w.CbTest? || w.CbCancel? || w.CbCall? || w.CbFire?
  }

  predicate WCritical(w: WPc) {
    w.Clear? || w.Scan? || w.NoneExit? || w.SelExit? || w.CbBody? || w.CbExit?
  }

  predicate PcCritical(pc: Pc) {
    pc.StopBody? || pc.StopExit? || pc.ArmBody? || pc.ArmExit? || pc.DrainTest? || pc.DrainExit?
  }

  predicate Critical(s: State, t: Tid) {
    PcCritical(PcOf(s, t)) || (t == WORKER && WCritical(s.w))
  }

  predicate InArm(pc: Pc) {
    pc.ArmFunc? || pc.ArmArg? || pc.ArmTime? || pc.ArmEnter? || pc.ArmBody?
  }

  /** The stop block ran and nothing has been linked since by this call. */
  predicate Cleared(pc: Pc) {
    pc.StopExit? || pc.StopFunc? || pc.StopArg? || InArm(pc)
  }

  /** A call that is made with the client mutex held. */
  predicate Guarded(pc: Pc) {
    (InStop(pc) && !pc.k.Wait?) || InArm(pc) || pc.ArmExit?
  }

  ghost predicate ThreadInv(s: State, t: Tid) {
    var pc := PcOf(s, t);
    && (!pc.Idle? ==> pc.c in s.co)
    && (s.lk == Some(t) <==> Critical(s, t))
    && (t == WORKER && !s.w.CbFunc? ==> pc.Idle?)
    && (Guarded(pc) ==> Holds(s, t, pc.c))
    && (Cleared(pc) && pc.c in s.co && Holds(s, t, pc.c) ==> pc.c !in s.list && (PreFire(s.w, pc.c) ==> s.cancel))
  }

  ghost predicate WorkerInv(s: State) {
    && (Busy(s.w) ==> s.w.c in s.co && s.curr == Some(s.w.c))
    && (OwnsMtx(s.w) ==> Holds(s, WORKER, s.w.c))
    && (s.w.Scan? ==> s.w.i <= |s.list|)
    && (s.w.Scan? ==> s.curr.None?)
    && (s.curr.Some? ==> Busy(s.w) || s.w.Enter? || s.w.Clear?)
    && (s.w.CbReturn? && !s.co[s.w.c].returnUnlocked ==> Holds(s, WORKER, s.w.c))
  }

  ghost predicate ListInv(s: State) {
    && Distinct(s.list)
    && (forall c :: c in s.list ==> c in s.co)
    && (forall c :: c in s.co ==> (s.co[c].linked <==> c in s.list))
  }

  ghost predicate LogInv(s: State) {
    forall c :: InCallback(s.log, c) <==> s.w == CbFunc(c)
  }

  ghost predicate BaseInv(s: State) {
    && (forall t :: ThreadInv(s, t))
    && WorkerInv(s)
    && ListInv(s)
    && LogInv(s)
  }

  // ---------------------------------------------------------------- BaseInv is kept

  lemma {:induction false} LogStep(log: seq<Event>, e: Event)
    ensures (log + [e])[..|log + [e]| - 1] == log
  {}

  lemma {:induction false} NoCallbackChange(log: seq<Event>, e: Event)
    requires !e.Fired? && !e.Returned?
    ensures forall c :: InCallback(log + [e], c) <==> InCallback(log, c)
  {
    LogStep(log, e);
  }

  /** Threads other than the one that moved keep their facts when locks and lists
    change only in ways that do not concern them. */
  lemma {:induction false} OtherThread(s: State, s': State, t: Tid)
    requires ThreadInv(s, t)
    requires PcOf(s', t) == PcOf(s, t)
    requires s'.co.Keys == s.co.Keys
    requires forall c :: c in s.co && Holds(s, t, c) ==> Holds(s', t, c)
    requires s'.lk == Some(t) <==> s.lk == Some(t)
    requires t == WORKER ==> s'.w == s.w
    requires forall c :: c in s'.list && c !in s.list ==> c in s.co && !Holds(s, t, c)
    requires forall c :: c in s.co && !Holds(s, t, c) && !PcOf(s, t).Idle? && PcOf(s, t).c == c ==> !Holds(s', t, c)
    requires forall c :: c in s.co && c !in s.list && PreFire(s'.w, c) ==> PreFire(s.w, c) && (s.cancel ==> s'.cancel)
    ensures ThreadInv(s', t)
  {}

  /** What a client statement leaves alone. */
  ghost predicate ClientFramed(s: State, s': State, t: Tid) {
    && s'.co.Keys == s.co.Keys && s'.locks == s.locks && s'.curr == s.curr && s'.w == s.w && s'.now == s.now &&
         (s.cancel ==> s'.cancel)
    && (forall c :: c in s.co ==> s'.co[c].mtx == s.co[c].mtx && s'.co[c].returnUnlocked == s.co[c].returnUnlocked)
    && (forall u :: u != t ==> PcOf(s', u) == PcOf(s, u))
    && (s'.log == s.log || exists e :: s'.log == s.log + [e] && !e.Fired? && !e.Returned?)
  }

  lemma {:induction false} StopFrame(s: State, t: Tid)
    requires ClientEnabled(s, t) && InStop(PcOf(s, t))
    ensures ClientFramed(s, StopStep(s, t), t)
  {
    if PcOf(s, t).StopArg? { assert StopStep(s, t).log == s.log + [Stopped(PcOf(s, t).c, t)]; }
  }

  lemma {:induction false} ArmFrame(s: State, t: Tid)
    requires ClientEnabled(s, t) && !InStop(PcOf(s, t)) && !InDrain(PcOf(s, t))
    ensures ClientFramed(s, ArmStep(s, t), t)
  {
    match PcOf(s, t)
    case ArmFunc(c, _, _, _) => assert ArmStep(s, t).log == s.log + [Arming(c, t)];
    case ArmBody(c, f, a, n, dl) => assert ArmStep(s, t).log == s.log + [Armed(c, f, a, dl, n)];
    case _ =>
  }

  lemma {:induction false} ClientFrame(s: State, t: Tid)
    requires ClientEnabled(s, t)
    ensures ClientFramed(s, ClientStep(s, t), t)
  {
    if InStop(PcOf(s, t)) { StopFrame(s, t); }
    else if InDrain(PcOf(s, t)) {
      match PcOf(s, t)
      case DrainExit(c, since) => assert DrainStep(s, t).log == s.log + [DrainDone(c, t, since)];
      case _ =>
    } else { ArmFrame(s, t); }
  }

  lemma {:induction false} OtherListKept(s: State, t: Tid)
    requires ClientEnabled(s, t) && !PcOf(s, t).StopBody? && !PcOf(s, t).ArmBody?
    ensures var s' := ClientStep(s, t);
      s'.list == s.list && s'.co.Keys == s.co.Keys && forall c :: c in s.co ==> s'.co[c].linked == s.co[c].linked
  {}

  lemma {:induction false} ClientKeepsList(s: State, t: Tid)
    requires BaseInv(s) && ClientEnabled(s, t)
    ensures ListInv(ClientStep(s, t))
    ensures var s' := ClientStep(s, t);
      forall c :: c in s'.list && c !in s.list ==> PcOf(s, t).ArmBody? && PcOf(s, t).c == c
  {
    assert ThreadInv(s, t);
    var pc, s' := PcOf(s, t), ClientStep(s, t);
    if pc.StopBody? { assert s'.list == Unlink(s, pc.c).list && s'.co == Unlink(s, pc.c).co; }
    else if pc.ArmBody? { assert pc.c !in s.list; }
    else { OtherListKept(s, t); }
  }

  lemma {:induction false} StopBodyKeepsSelf(s: State, t: Tid)
    requires ThreadInv(s, t) && ListInv(s) && WorkerInv(s) && ClientEnabled(s, t) && PcOf(s, t).StopBody?
    ensures ThreadInv(ClientStep(s, t), t)
  {}

  lemma {:induction false} StopKeepsSelf(s: State, t: Tid)
    requires ThreadInv(s, t) && ClientEnabled(s, t) && InStop(PcOf(s, t)) && !PcOf(s, t).StopBody?
    ensures ThreadInv(ClientStep(s, t), t)
  {
    if PcOf(s, t).StopFunc? || PcOf(s, t).StopArg? { ClearKeepsSelf(s, t); }
  }

  lemma {:induction false} ClearKeepsSelf(s: State, t: Tid)
    requires ThreadInv(s, t) && ClientEnabled(s, t) && (PcOf(s, t).StopFunc? || PcOf(s, t).StopArg?)
    ensures ThreadInv(ClientStep(s, t), t)
  {}

  lemma {:induction false} ArmKeepsSelf(s: State, t: Tid)
    requires ThreadInv(s, t) && ClientEnabled(s, t) && !InStop(PcOf(s, t)) && !InDrain(PcOf(s, t))
    ensures ThreadInv(ClientStep(s, t), t)
  {}

  lemma {:induction false} DrainKeepsSelf(s: State, t: Tid)
    requires ThreadInv(s, t) && ClientEnabled(s, t) && InDrain(PcOf(s, t))
    ensures ThreadInv(ClientStep(s, t), t)
  {
    var s' := DrainStep(s, t);
    assert s'.co == s.co && s'.locks == s.locks && s'.list == s.list && s'.w == s.w;
  }

  lemma {:induction false} ClientKeepsSelf(s: State, t: Tid)
    requires ThreadInv(s, t) && ListInv(s) && WorkerInv(s) && ClientEnabled(s, t)
    ensures ThreadInv(ClientStep(s, t), t)
  {
    if PcOf(s, t).StopBody? { StopBodyKeepsSelf(s, t); }
    else if InStop(PcOf(s, t)) { StopKeepsSelf(s, t); }
    else if InDrain(PcOf(s, t)) { DrainKeepsSelf(s, t); }
    else { ArmKeepsSelf(s, t); }
  }

  lemma {:induction false} ClientKeepsOthers(s: State, t: Tid, u: Tid)
    requires BaseInv(s) && ClientEnabled(s, t) && u != t
    ensures ThreadInv(ClientStep(s, t), u)
  {
    var s' := ClientStep(s, t);
    assert ThreadInv(s, t);
    assert ThreadInv(s, u);
    ClientFrame(s, t);
    ClientKeepsList(s, t);
    assert s'.lk != s.lk ==> s.lk.None? || s.lk == Some(t);
    OtherThread(s, s', u);
  }

  lemma {:induction false} ClientKeepsBase(s: State, t: Tid)
    requires BaseInv(s) && ClientEnabled(s, t)
    ensures BaseInv(ClientStep(s, t))
  {
    var s' := ClientStep(s, t);
    ClientFrame(s, t);
    ClientKeepsList(s, t);
    assert ThreadInv(s, t);
    assert ThreadInv(s, WORKER);
    assert WorkerInv(s');
    forall u ensures ThreadInv(s', u) {
      if u == t { ClientKeepsSelf(s, t); } else { ClientKeepsOthers(s, t, u); }
    }
    if s'.log != s.log {
      var e :| s'.log == s.log + [e] && !e.Fired? && !e.Returned?;
      NoCallbackChange(s.log, e);
    }
  }

  ghost predicate WorkFramed(s: State, s': State) {
    && s'.co.Keys == s.co.Keys && s'.pcs == s.pcs && s'.now == s.now
    && (forall c :: c in s.co ==> s'.co[c].(linked := s.co[c].linked) == s.co[c])
    && (forall c :: c in s'.list ==> c in s.list)
  }

  lemma {:induction false} CallbackFramed(s: State)
    requires WorkEnabled(s) && !Scanning(s.w)
    ensures WorkFramed(s, CallbackStep(s))
  {
    if s.w.CbBody? { BodyFramed(s); } else { RestFramed(s); }
  }

  lemma {:induction false} BodyFramed(s: State)
    requires WorkEnabled(s) && s.w.CbBody?
    ensures WorkFramed(s, CallbackStep(s))
  {
    var u := Unlink(s, s.w.c);
    assert CallbackStep(s) == u.(w := CbExit(s.w.c));
    assert u.pcs == s.pcs && u.now == s.now && forall c :: c in u.list ==> c in s.list;
  }

  /** Outside the unlink block the worker touches locks, its own position and the log only. */
  lemma {:induction false} RestFramed(s: State)
    requires WorkEnabled(s) && !Scanning(s.w) && !s.w.CbBody?
    ensures var s' := CallbackStep(s); s' == s.(lk := s'.lk, locks := s'.locks, w := s'.w, log := s'.log)
  {}

  lemma {:induction false} WorkFrame(s: State)
    requires WorkEnabled(s)
    ensures WorkFramed(s, WorkStep(s))
  {
    if !Scanning(s.w) { CallbackFramed(s); }
  }

  lemma {:induction false} WorkLocks(s: State, u: Tid, c: Cid)
    requires WorkEnabled(s) && WorkerInv(s) && c in s.co && Holds(s, u, c) && u != WORKER
    ensures c in WorkStep(s).co && Holds(WorkStep(s), u, c)
  {
    WorkFrame(s);
  }

  lemma {:induction false} WorkTakes(s: State, u: Tid, c: Cid)
    requires WorkEnabled(s) && c in s.co && !Holds(s, u, c) && u != WORKER
    ensures c in WorkStep(s).co && !Holds(WorkStep(s), u, c)
  {
    WorkFrame(s);
  }

  lemma {:induction false} WorkSpares(s: State, u: Tid)
    requires WorkEnabled(s) && WorkerInv(s) && u != WORKER
    ensures forall c :: c in s.co ==> c in WorkStep(s).co && (Holds(s, u, c) <==> Holds(WorkStep(s), u, c))
  {
    forall c | c in s.co ensures c in WorkStep(s).co && (Holds(s, u, c) <==> Holds(WorkStep(s), u, c)) {
      if Holds(s, u, c) { WorkLocks(s, u, c); } else { WorkTakes(s, u, c); }
    }
  }

  /** The worker comes to be about to fire c only by selecting it from the list. */
  lemma {:induction false} WorkPreFire(s: State, c: Cid)
    requires WorkEnabled(s) && WorkerInv(s) && c in s.co && c !in s.list
    ensures var s' := WorkStep(s);
      PreFire(s'.w, c) ==> PreFire(s.w, c) && s'.cancel == s.cancel
  {
    if !Scanning(s.w) { CallbackFrame(s); }
  }

  lemma {:induction false} ScanKeepsWorker(s: State)
    requires WorkerInv(s) && ListInv(s) && WorkEnabled(s) && Scanning(s.w)
    ensures WorkerInv(ScanStep(s))
  {}

  lemma {:induction false} CallbackFrame(s: State)
    requires WorkerInv(s) && WorkEnabled(s) && !Scanning(s.w)
    ensures var s' := CallbackStep(s);
      && s'.curr == s.curr && s'.cancel == s.cancel
      && (Busy(s'.w) ==> s'.w.c == s.w.c)
      && (OwnsMtx(s'.w) ==> s.w.CbLock? || (OwnsMtx(s.w) && s'.locks == s.locks))
      && !s'.w.Scan?
  {}

  lemma {:induction false} CallbackKeepsWorker(s: State)
    requires WorkerInv(s) && WorkEnabled(s) && !Scanning(s.w)
    ensures WorkerInv(CallbackStep(s))
  {
    var s' := CallbackStep(s);
    CallbackFramed(s);
    CallbackFrame(s);
    assert s.w.CbLock? ==> Holds(s', WORKER, s.w.c);
  }

  lemma {:induction false} CallbackKeepsList(s: State)
    requires ListInv(s) && WorkEnabled(s) && !Scanning(s.w)
    ensures ListInv(CallbackStep(s))
  {
    if s.w.CbBody? { assert CallbackStep(s) == Unlink(s, s.w.c).(w := CbExit(s.w.c)); }
    else { assert CallbackStep(s).list == s.list && CallbackStep(s).co == s.co; }
  }

  lemma {:induction false} ScanKeepsLog(s: State)
    requires LogInv(s) && WorkEnabled(s) && Scanning(s.w)
    ensures LogInv(ScanStep(s))
  {
    var s' := ScanStep(s);
    if s'.log != s.log { NoCallbackChange(s.log, s'.log[|s.log|]); }
  }

  lemma {:induction false} CallbackKeepsLog(s: State)
    requires LogInv(s) && WorkEnabled(s) && !Scanning(s.w)
    ensures LogInv(CallbackStep(s))
  {
    var s' := CallbackStep(s);
    if s.w.CbFire? { LogStep(s.log, s'.log[|s.log|]); }
    else if s'.log != s.log { NoCallbackChange(s.log, s'.log[|s.log|]); }
  }

  /** The worker has mtx_callout exactly inside its blocks, and takes and drops it only there. */
  lemma {:induction false} ScanBlocks(s: State)
    requires WorkEnabled(s) && Scanning(s.w) && (s.lk == Some(WORKER) <==> WCritical(s.w))
    ensures var s' := ScanStep(s);
      (s'.lk == Some(WORKER) <==> WCritical(s'.w)) && (s'.lk != s.lk ==> s.lk.None? || s.lk == Some(WORKER))
  {}

  lemma {:induction false} CallbackBlocks(s: State)
    requires WorkEnabled(s) && !Scanning(s.w) && (s.lk == Some(WORKER) <==> WCritical(s.w))
    ensures var s' := CallbackStep(s);
      (s'.lk == Some(WORKER) <==> WCritical(s'.w)) && (s'.lk != s.lk ==> s.lk.None? || s.lk == Some(WORKER))
  {
    if s.w.SelExit? || s.w.CbExit? { assert CallbackStep(s).lk.None?; }
    else if s.w.CbEnter? { assert CallbackStep(s).lk == Some(WORKER); }
    else { SameBlock(s); }
  }

  lemma {:induction false} SameBlock(s: State)
    requires WorkEnabled(s) && !Scanning(s.w) && !s.w.SelExit? && !s.w.CbExit? && !s.w.CbEnter?
    ensures CallbackStep(s).lk == s.lk && WCritical(CallbackStep(s).w) == WCritical(s.w)
  {}

  lemma {:induction false} WorkBlocks(s: State)
    requires WorkEnabled(s) && (s.lk == Some(WORKER) <==> WCritical(s.w))
    ensures var s' := WorkStep(s);
      (s'.lk == Some(WORKER) <==> WCritical(s'.w)) && (s'.lk != s.lk ==> s.lk.None? || s.lk == Some(WORKER))
  {
    if Scanning(s.w) { ScanBlocks(s); } else { CallbackBlocks(s); }
  }

  lemma {:induction false} WorkKeepsSelf(s: State)
    requires ThreadInv(s, WORKER) && WorkEnabled(s)
    ensures ThreadInv(WorkStep(s), WORKER)
  {
    assert PcOf(s, WORKER).Idle?;
    WorkFrame(s);
    WorkBlocks(s);
  }

  lemma {:induction false} WorkKeepsOthers(s: State, u: Tid)
    requires BaseInv(s) && WorkEnabled(s) && u != WORKER
    ensures ThreadInv(WorkStep(s), u)
  {
    var s' := WorkStep(s);
    assert ThreadInv(s, WORKER);
    assert ThreadInv(s, u);
    WorkFrame(s);
    WorkSpares(s, u);
    forall c | c in s.co && c !in s.list && PreFire(s'.w, c)
      ensures PreFire(s.w, c) && s'.cancel == s.cancel
    {
      WorkPreFire(s, c);
    }
    WorkBlocks(s);
    OtherThread(s, s', u);
  }

  lemma {:induction false} WorkKeepsBase(s: State)
    requires BaseInv(s) && WorkEnabled(s)
    ensures BaseInv(WorkStep(s))
  {
    assert ThreadInv(s, WORKER);
    if Scanning(s.w) {
      ScanKeepsWorker(s);
      ScanKeepsLog(s);
      assert ListInv(ScanStep(s));
    } else {
      CallbackKeepsWorker(s);
      CallbackKeepsList(s);
      CallbackKeepsLog(s);
    }
    forall u ensures ThreadInv(WorkStep(s), u) {
      if u == WORKER { WorkKeepsSelf(s); } else { WorkKeepsOthers(s, u); }
    }
  }

  /** Taking and dropping a client mutex. */
  lemma {:induction false} LockKeepsBase(s: State, step: Step)
    requires BaseInv(s) && Enabled(s, step) && (step.Acquire? || step.Release?)
    ensures BaseInv(Apply(s, step))
  {
    var s' := Apply(s, step);
    assert ThreadInv(s, WORKER);
    assert ThreadInv(s, step.t);
    assert step.t == WORKER ==> !OwnsMtx(s.w);
    forall u, c | c in s.co && u != step.t ensures Holds(s, u, c) <==> Holds(s', u, c) {}
    forall u ensures ThreadInv(s', u) {
      assert ThreadInv(s, u);
      if u != step.t { OtherThread(s, s', u); }
    }
  }

  /** Entering a call moves one program counter and logs nothing about callbacks. */
  lemma {:induction false} CallKeepsBase(s: State, s': State, t: Tid, pc: Pc)
    requires BaseInv(s) && CanRun(s, t) && PcOf(s, t).Idle? && pc.StopEnter? && pc.c in s.co
    requires !pc.k.Wait? ==> Holds(s, t, pc.c)
    requires s' == Goto(s, t, pc).(log := s'.log)
    requires s'.log == s.log || exists e :: s'.log == s.log + [e] && !e.Fired? && !e.Returned?
    ensures BaseInv(s')
  {
    forall u ensures ThreadInv(s', u) {
      assert ThreadInv(s, u);
      if u != t { OtherThread(s, s', u); }
    }
    if s'.log != s.log {
      var e :| s'.log == s.log + [e] && !e.Fired? && !e.Returned?;
      NoCallbackChange(s.log, e);
    }
  }

  lemma {:induction false} TickKeepsBase(s: State, now: int)
    requires BaseInv(s)
    ensures BaseInv(s.(now := now))
  {
    forall u ensures ThreadInv(s.(now := now), u) { assert ThreadInv(s, u); }
  }

  lemma {:induction false} WakeupKeepsBase(s: State)
    requires BaseInv(s) && s.w.Asleep?
    ensures BaseInv(s.(w := Enter))
  {
    forall u ensures ThreadInv(s.(w := Enter), u) { assert ThreadInv(s, u); }
  }

  lemma {:induction false} FuncReturnKeepsBase(s: State)
    requires BaseInv(s) && Enabled(s, FuncReturn)
    ensures BaseInv(Logged(s.(w := CbReturn(s.w.c)), Returned(s.w.c)))
  {
    var s' := Logged(s.(w := CbReturn(s.w.c)), Returned(s.w.c));
    forall u ensures ThreadInv(s', u) { assert ThreadInv(s, u); }
    LogStep(s.log, Returned(s.w.c));
  }

  lemma {:induction false} StepKeepsBase(s: State, step: Step)
    requires BaseInv(s) && Enabled(s, step)
    ensures BaseInv(Apply(s, step))
  {
    match step
    case Client(t) => ClientKeepsBase(s, t);
    case Work => WorkKeepsBase(s);
    case Acquire(_, _) => LockKeepsBase(s, step);
    case Release(_, _) => LockKeepsBase(s, step);
    case CallStop(t, c) => CallKeepsBase(s, Apply(s, step), t, StopEnter(c, Return));
    case CallReset(t, c, f, a, n) =>
      CallKeepsBase(s, Apply(s, step), t, StopEnter(c, Rearm(f, a, n)));
    case CallDrain(t, c) =>
      var s' := Apply(s, step);
      assert s'.log == s.log + [DrainBegan(c, t, Holds(s, t, c))];
      CallKeepsBase(s, s', t, StopEnter(c, Wait(|s.log|)));
    case Tick => TickKeepsBase(s, s.now + 1);
    case Wakeup => WakeupKeepsBase(s);
    case FuncReturn => FuncReturnKeepsBase(s);
  }

  /** While a thread is inside a call it neither gains nor loses a client mutex. */
  lemma {:induction false} HoldsKept(s: State, step: Step, u: Tid, c: Cid)
    requires ThreadInv(s, u) && WorkerInv(s) && Enabled(s, step) && !PcOf(s, u).Idle? && c in s.co
    ensures c in Apply(s, step).co && (Holds(Apply(s, step), u, c) <==> Holds(s, u, c))
  {
    match step
    case Client(t) => ClientFrame(s, t);
    case Work =>
      WorkFrame(s);
      if Holds(s, u, c) { WorkLocks(s, u, c); } else { WorkTakes(s, u, c); }
    case _ =>
  }
}
