/** The log knows which drains without the mutex, which reset and which callback are under way. */
module CalloutWatch {
  import opened Basics
  import opened Ticks
  import opened Callouts
  import opened CalloutSafety
  import opened CalloutDrain

  /** The event that a step appends to the log. */
  function Emits(s: State, step: Step): Option<Event>
    requires Enabled(s, step)
  {
    match step
    case CallDrain(t, c) => Some(DrainBegan(c, t, Holds(s, t, c)))
    case FuncReturn => Some(Returned(s.w.c))
    case Client(t) =>
      (match PcOf(s, t)
       case StopArg(c, _) => Some(Stopped(c, t))
       case ArmFunc(c, _, _, _) => Some(Arming(c, t))
       case ArmBody(c, f, a, n, dl) => Some(Armed(c, f, a, dl, n))
       case DrainExit(c, since) => Some(DrainDone(c, t, since))
       case _ => None)
    case Work =>
      (match s.w
       case Scan(i) => if i < |s.list| && Wrap(s.co[s.list[i]].timeout - s.now) < 0 then
         Some(Selected(s.list[i], s.now)) else None
       case CbTest(c) => if s.cancel then None else Some(Committed(c))
       case CbCall(c) => if s.co[c].func.Some? then None else Some(Skipped(c))
       case CbFire(c) => Some(Fired(c, s.co[c].func, s.co[c].arg, LockOf(s, s.co[c].mtx)))
       case _ => None)
    case _ => None
  }

  function Grown(log: seq<Event>, e: Option<Event>): seq<Event> {
    if e.Some? then log + [e.value] else log
  }

  lemma {:induction false} ClientLog(s: State, t: Tid)
    requires ClientEnabled(s, t)
    ensures ClientStep(s, t).log == Grown(s.log, Emits(s, Client(t)))
  {}

  lemma {:induction false} WorkLog(s: State)
    requires WorkEnabled(s)
    ensures WorkStep(s).log == Grown(s.log, Emits(s, Work))
  {
    if Scanning(s.w) { assert ScanStep(s).log == Grown(s.log, Emits(s, Work)); }
    else { assert CallbackStep(s).log == Grown(s.log, Emits(s, Work)); }
  }

  lemma {:induction false} LogGrows(s: State, step: Step)
    requires Enabled(s, step)
    ensures Apply(s, step).log == Grown(s.log, Emits(s, step))
  {
    match step
    case Client(t) => ClientLog(s, t);
    case Work => WorkLog(s);
    case _ =>
  }

  /** Events by other threads leave u's part of the watch alone. */
  lemma {:induction false} SparesOther(m: Overlap, e: Event, c: Cid, u: Tid)
    requires (e.DrainBegan? || e.Stopped?) ==> e.t != u
    ensures u in Watch(m, e, c).draining <==> u in m.draining
    ensures m.resetting && !(e.Armed? && e.c == c) ==> Watch(m, e, c).resetting
  {}

  lemma {:induction false} EventOfOther(s: State, step: Step, u: Tid)
    requires Enabled(s, step) && !((step.Client? || step.CallReset? || step.CallDrain?) && step.t == u)
    ensures var e := Emits(s, step); e.Some? && (e.value.DrainBegan? || e.value.Stopped?) ==> e.value.t != u
  {}

  /** The watch after a step that logs e, if anything. */
  function After(m: Overlap, e: Option<Event>, c: Cid): Overlap {
    if e.Some? then Watch(m, e.value, c) else m
  }

  lemma {:induction false} GrownWatch(log: seq<Event>, e: Option<Event>, c: Cid)
    ensures WatchOf(Grown(log, e), c) == After(WatchOf(log, c), e, c)
  {
    if e.Some? { LogStep(log, e.value); }
  }

  lemma {:induction false} WatchAfter(s: State, step: Step, c: Cid)
    requires Enabled(s, step)
    ensures WatchOf(Apply(s, step).log, c) == After(WatchOf(s.log, c), Emits(s, step), c)
  {
    LogGrows(s, step);
    GrownWatch(s.log, Emits(s, step), c);
  }

  /** The status after a step that logs e, if anything. */
  function Seen(st: Status, e: Option<Event>, c: Cid): Status {
    if e.Some? then Observe(st, e.value, c) else st
  }

  lemma {:induction false} GrownStatus(log: seq<Event>, e: Option<Event>, c: Cid)
    ensures StatusOf(Grown(log, e), c) == Seen(StatusOf(log, c), e, c)
  {
    if e.Some? { LogStep(log, e.value); }
  }

  lemma {:induction false} StatusAfter(s: State, step: Step, c: Cid)
    requires Enabled(s, step)
    ensures StatusOf(Apply(s, step).log, c) == Seen(StatusOf(s.log, c), Emits(s, step), c)
  {
    LogGrows(s, step);
    GrownStatus(s.log, Emits(s, step), c);
  }

  // ---------------------------------------------------------------- what the watch stands for

  /** t is inside the usb_callout_stop of a drain of c that it made without the mutex. */
  predicate Undermines(s: State, t: Tid, c: Cid) {
    var pc := PcOf(s, t);
    c in s.co && InStop(pc) && pc.k.Wait? && pc.c == c && !Holds(s, t, c)
  }

  /** A reset of c has begun to store its values and has not linked c yet. */
  predicate Resets(pc: Pc, c: Cid) {
    InArm(pc) && !pc.ArmFunc? && pc.c == c
  }

  /** The watch m on c is right about thread t. */
  predicate Watches(m: Overlap, s: State, t: Tid, c: Cid) {
    && (t in m.draining <==> Undermines(s, t, c))
    && (Resets(PcOf(s, t), c) ==> m.resetting)
  }

  ghost predicate Watched(s: State, t: Tid, c: Cid) {
    Watches(WatchOf(s.log, c), s, t, c)
  }

  predicate Commits(w: WPc, c: Cid) {
    w == CbCall(c) || w == CbFire(c)
  }

  ghost predicate WatchInv(s: State) {
    && (forall t, c {:trigger Watched(s, t, c)} :: c in s.co ==> Watched(s, t, c))
    && (forall c {:trigger WatchOf(s.log, c)} :: WatchOf(s.log, c).committed <==> Commits(s.w, c))
  }

  /** An unspoiled callout has no drain without the mutex next to a reset or a committed callback. */
  lemma {:induction false} WatchClosed(log: seq<Event>, c: Cid)
    ensures var m := WatchOf(log, c); m.spoiled || m.draining == {} || (!m.resetting && !m.committed)
  {}

  /** If every drain of c so far held its mutex, nothing is spoiled. */
  lemma {:induction false} LockedDrainsDoNotSpoil(log: seq<Event>, c: Cid)
    requires forall i :: 0 <= i < |log| && log[i].DrainBegan? && log[i].c == c ==> log[i].locked
    ensures WatchOf(log, c).draining == {} && !Spoiled(log, c)
  {
    if log != [] { LockedDrainsDoNotSpoil(log[..|log| - 1], c); }
  }

  // ---------------------------------------------------------------- kept by every step

  lemma {:induction false} OtherWatched(m: Overlap, s: State, step: Step, u: Tid, c: Cid)
    requires Enabled(s, step) && ThreadInv(s, u) && WorkerInv(s) && c in s.co && Watches(m, s, u, c)
    requires !((step.Client? || step.CallStop? || step.CallReset? || step.CallDrain?) && step.t == u)
    requires Emits(s, step).Some? && Emits(s, step).value.Armed? && Emits(s, step).value.c == c ==>
      !Resets(PcOf(s, u), c)
    ensures Watches(After(m, Emits(s, step), c), Apply(s, step), u, c)
  {
    var e := Emits(s, step);
    EventOfOther(s, step, u);
    if e.Some? { SparesOther(m, e.value, c, u); }
    SameUndermines(s, step, u, c);
    PcKept(s, step, u);
  }

  lemma {:induction false} SameUndermines(s: State, step: Step, u: Tid, c: Cid)
    requires Enabled(s, step) && ThreadInv(s, u) && WorkerInv(s) && c in s.co
    requires !((step.Client? || step.CallStop? || step.CallReset? || step.CallDrain?) && step.t == u)
    ensures Undermines(Apply(s, step), u, c) <==> Undermines(s, u, c)
  {
    PcKept(s, step, u);
    if !PcOf(s, u).Idle? { HoldsKept(s, step, u, c); }
  }

  /** A statement of t after which the watch is the same for t, although the program counter moved. */
  lemma {:induction false} QuietWatched(m: Overlap, s: State, s': State, t: Tid, c: Cid)
    requires Watches(m, s, t, c) && (Undermines(s', t, c) <==> Undermines(s, t, c))
    requires Resets(PcOf(s', t), c) ==> Resets(PcOf(s, t), c)
    ensures Watches(m, s', t, c)
  {}

  lemma {:induction false} CallWatched(m: Overlap, s: State, step: Step, c: Cid)
    requires Enabled(s, step) && (step.CallStop? || step.CallReset? || step.CallDrain?) && c in s.co
    requires Watches(m, s, step.t, c)
    ensures Watches(After(m, Emits(s, step), c), Apply(s, step), step.t, c)
  {
    if step.CallDrain? {
      assert !Undermines(s, step.t, c);
      BeganNote(m, step.c, c, step.t, Holds(s, step.t, step.c));
    } else {
      QuietWatched(m, s, Apply(s, step), step.t, c);
    }
  }

  lemma {:induction false} BeganNote(m: Overlap, d: Cid, c: Cid, t: Tid, locked: bool)
    ensures var w := Watch(m, DrainBegan(d, t, locked), c);
      w.resetting == m.resetting && w.draining == if d == c && !locked then m.draining + {t} else m.draining
  {}

  lemma {:induction false} StoppedNote(m: Overlap, d: Cid, c: Cid, t: Tid)
    ensures var w := Watch(m, Stopped(d, t), c);
      w.resetting == m.resetting && (d == c ==> t !in w.draining) && (d != c ==> w.draining == m.draining)
  {}

  lemma {:induction false} StopWatched(m: Overlap, s: State, t: Tid, c: Cid)
    requires ClientEnabled(s, t) && InStop(PcOf(s, t)) && c in s.co && Watches(m, s, t, c)
    ensures Watches(After(m, Emits(s, Client(t)), c), StopStep(s, t), t, c)
  {
    if PcOf(s, t).StopArg? {
      StopEndWatched(m, s, t, c);
    } else {
      StopFrame(s, t);
      QuietWatched(m, s, StopStep(s, t), t, c);
    }
  }

  lemma {:induction false} StopEndWatched(m: Overlap, s: State, t: Tid, c: Cid)
    requires ClientEnabled(s, t) && PcOf(s, t).StopArg? && c in s.co && Watches(m, s, t, c)
    ensures Watches(Watch(m, Stopped(PcOf(s, t).c, t), c), StopStep(s, t), t, c)
  {
    var pc := PcOf(s, t);
    assert PcOf(StopStep(s, t), t) == AfterStop(pc.c, pc.k);
    StoppedNote(m, pc.c, c, t);
    if pc.c != c { assert !Undermines(s, t, c); }
  }

  lemma {:induction false} ArmWatched(m: Overlap, s: State, t: Tid, c: Cid)
    requires ClientEnabled(s, t) && (PcOf(s, t).ArmFunc? || PcOf(s, t).ArmBody?) && c in s.co && Watches(m, s, t, c)
    ensures Watches(After(m, Emits(s, Client(t)), c), ClientStep(s, t), t, c)
  {
    var pc, s' := PcOf(s, t), ClientStep(s, t);
    assert PcOf(s', t) == if pc.ArmFunc? then ArmArg(pc.c, pc.f, pc.a, pc.ticks) else ArmExit(pc.c);
    assert !Undermines(s, t, c) && !Undermines(s', t, c);
  }

  lemma {:induction false} RestWatched(m: Overlap, s: State, t: Tid, c: Cid)
    requires ClientEnabled(s, t) && !InStop(PcOf(s, t)) && c in s.co && Watches(m, s, t, c)
    ensures Watches(After(m, Emits(s, Client(t)), c), ClientStep(s, t), t, c)
  {
    if PcOf(s, t).ArmFunc? || PcOf(s, t).ArmBody? { ArmWatched(m, s, t, c); }
    else { QuietWatched(m, s, ClientStep(s, t), t, c); }
  }

  /** Only one thread at a time is inside a reset of c. */
  lemma {:induction false} OneReset(s: State, t: Tid, u: Tid, c: Cid)
    requires ThreadInv(s, t) && ThreadInv(s, u) && c in s.co && Resets(PcOf(s, t), c) && Resets(PcOf(s, u), c)
    ensures t == u
  {}

  lemma {:induction false} StepWatched(m: Overlap, s: State, step: Step, u: Tid, c: Cid)
    requires BaseInv(s) && Enabled(s, step) && c in s.co && Watches(m, s, u, c)
    ensures Watches(After(m, Emits(s, step), c), Apply(s, step), u, c)
  {
    assert ThreadInv(s, u);
    if step.Client? && step.t == u {
      if InStop(PcOf(s, u)) { StopWatched(m, s, u, c); } else { RestWatched(m, s, u, c); }
    } else if (step.CallStop? || step.CallReset? || step.CallDrain?) && step.t == u {
      CallWatched(m, s, step, c);
    } else {
      if step.Client? && PcOf(s, step.t).ArmBody? && PcOf(s, step.t).c == c && Resets(PcOf(s, u), c) {
        assert ThreadInv(s, step.t);
        OneReset(s, step.t, u, c);
      }
      OtherWatched(m, s, step, u, c);
    }
  }

  lemma {:induction false} CommitNote(m: Overlap, e: Event, c: Cid)
    ensures Watch(m, e, c).committed ==
      if e.c == c && (e.Committed? || e.Fired? || e.Skipped?) then e.Committed? else m.committed
  {}

  /** Commitment begins and ends with the events that say so. */
  lemma {:induction false} WorkCommits(s: State, c: Cid)
    requires WorkEnabled(s) && (s.w.CbTest? || s.w.CbCall? || s.w.CbFire?)
    ensures var e := Emits(s, Work);
      Commits(WorkStep(s).w, c) == if e.Some? && e.value.c == c then e.value.Committed? else Commits(s.w, c)
    ensures var e := Emits(s, Work); e.Some? ==> e.value.Committed? || e.value.Fired? || e.value.Skipped?
  {}

  /** Only the worker's own statements after its cancel test concern commitment. */
  lemma {:induction false} OthersCommit(s: State, step: Step, c: Cid)
    requires Enabled(s, step) && !(step.Work? && (s.w.CbTest? || s.w.CbCall? || s.w.CbFire?))
    ensures Commits(Apply(s, step).w, c) == Commits(s.w, c)
    ensures var e := Emits(s, step); e.Some? ==> !e.value.Committed? && !e.value.Fired? && !e.value.Skipped?
  {
    if step.Client? { ClientFrame(s, step.t); }
  }

  lemma {:induction false} CommitWatched(m: Overlap, s: State, step: Step, c: Cid)
    requires Enabled(s, step) && (m.committed <==> Commits(s.w, c))
    ensures After(m, Emits(s, step), c).committed <==> Commits(Apply(s, step).w, c)
  {
    var e := Emits(s, step);
    if e.Some? { CommitNote(m, e.value, c); }
    if step.Work? && (s.w.CbTest? || s.w.CbCall? || s.w.CbFire?) {
      WorkCommits(s, c);
    } else {
      OthersCommit(s, step, c);
    }
  }

  lemma {:induction false} StepKeepsWatch(s: State, step: Step)
    requires BaseInv(s) && WatchInv(s) && Enabled(s, step)
    ensures WatchInv(Apply(s, step))
  {
    var s' := Apply(s, step);
    SameCallouts(s, step);
    forall c ensures WatchOf(s'.log, c).committed <==> Commits(s'.w, c) {
      WatchAfter(s, step, c);
      CommitWatched(WatchOf(s.log, c), s, step, c);
    }
    forall t, c | c in s'.co ensures Watched(s', t, c) {
      assert Watched(s, t, c);
      WatchAfter(s, step, c);
      StepWatched(WatchOf(s.log, c), s, step, t, c);
    }
  }

  lemma {:induction false} SameCallouts(s: State, step: Step)
    requires Enabled(s, step)
    ensures Apply(s, step).co.Keys == s.co.Keys
  {
    match step
    case Client(t) => ClientFrame(s, t);
    case Work => WorkFrame(s);
    case _ =>
  }
}
