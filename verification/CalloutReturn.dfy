/** When a call of usb_callout_drain returns.  A drain that is under way can still return if and only if the
  state is not hopeless: one half is that hopeless states stay so, the other half is a schedule. */
module CalloutReturns {
  import opened Basics
  import opened Ticks
  import opened Callouts
  import opened CalloutSafety
  import opened CalloutDrain
  import opened CalloutWatch
  import opened CalloutTheorems

  /** t is inside a call of usb_callout_drain(c). */
  predicate Drains(s: State, t: Tid, c: Cid) {
    Draining(PcOf(s, t)) && PcOf(s, t).c == c
  }

  /** The worker cannot be done with c unless it gets the mutex of c. */
  predicate NeedsMtx(s: State, c: Cid)
    requires c in s.co
  {
    s.w == SelExit(c) || s.w == CbLock(c) || (s.w == CbFunc(c) && !s.co[c].returnUnlocked)
  }

  /** A client drains c and has its mutex. */
  ghost predicate HeldUp(s: State, c: Cid)
    requires c in s.co
  {
    exists u :: u != WORKER && Drains(s, u, c) && Holds(s, u, c)
  }

  /** curr_callout is c, and either the callback of c itself drains c, or the worker needs the mutex of c
    while some client inside a drain of c holds it. */
  ghost predicate Hopeless(s: State, c: Cid) {
    c in s.co && s.curr == Some(c) && (Drains(s, WORKER, c) || (NeedsMtx(s, c) && HeldUp(s, c)))
  }

  /** Some continuation lets a drain of t return. */
  ghost predicate Returns(s: State, t: Tid) {
    exists steps :: CanExec(s, steps) && DoneIn(s.log, Exec(s, steps).log, t)
  }

  ghost predicate DoneIn(log: seq<Event>, log': seq<Event>, t: Tid) {
    exists i :: |log| <= i < |log'| && log'[i].DrainDone? && log'[i].t == t
  }

  ghost predicate Core(s: State) {
    BaseInv(s) && DrainInv(s)
  }

  lemma {:induction false} CoreStep(s: State, step: Step)
    requires Core(s) && Enabled(s, step)
    ensures Core(Apply(s, step))
  {
    StepKeepsBase(s, step);
    StepKeepsDrain(s, step);
  }

  // ---------------------------------------------------------------- hopeless for ever

  /** While curr_callout is c, a drain of c goes on. */
  lemma {:induction false} DrainGoesOn(s: State, step: Step, t: Tid, c: Cid)
    requires DrainThread(s, t) && Enabled(s, step) && Drains(s, t, c) && s.curr == Some(c)
    ensures Drains(Apply(s, step), t, c)
    ensures !(Emits(s, step).Some? && Emits(s, step).value.DrainDone? && Emits(s, step).value.t == t)
  {
    if !(step.Client? && step.t == t) { PcKept(s, step, t); }
  }

  lemma {:induction false} HopelessCurr(s: State, step: Step, c: Cid)
    requires BaseInv(s) && Hopeless(s, c) && Enabled(s, step)
    ensures var s' := Apply(s, step); s'.curr == s.curr && (s'.w == s.w || (s.w == SelExit(c) && s'.w == CbLock(c)))
  {
    assert ThreadInv(s, WORKER);
    match step
    case Client(u) => ClientFrame(s, u);
    case Work => assert s.w == SelExit(c) && WorkStep(s) == s.(lk := None, w := CbLock(c));
    case _ =>
  }

  lemma {:induction false} HopelessStep(s: State, step: Step, c: Cid)
    requires Core(s) && Hopeless(s, c) && Enabled(s, step)
    ensures Hopeless(Apply(s, step), c)
  {
    var s' := Apply(s, step);
    SameCallouts(s, step);
    HopelessCurr(s, step, c);
    if Drains(s, WORKER, c) {
      assert DrainThread(s, WORKER);
      DrainGoesOn(s, step, WORKER, c);
    } else {
      var u :| u != WORKER && Drains(s, u, c) && Holds(s, u, c);
      assert DrainThread(s, u) && ThreadInv(s, u);
      DrainGoesOn(s, step, u, c);
      HoldsKept(s, step, u, c);
      FlagKept(s, step, c);
    }
  }

  lemma {:induction false} FlagKept(s: State, step: Step, c: Cid)
    requires Enabled(s, step) && c in s.co
    ensures var s' := Apply(s, step);
      c in s'.co && s'.co[c].returnUnlocked == s.co[c].returnUnlocked && s'.co[c].mtx == s.co[c].mtx
  {
    match step
    case Client(u) => ClientFrame(s, u);
    case Work =>
      WorkFrame(s);
      assert s.co[c] == WorkStep(s).co[c].(linked := s.co[c].linked);
    case _ =>
  }

  /** In a hopeless state no drain of c ever returns, whatever anybody does. */
  lemma {:induction false} HopelessForever(s: State, steps: seq<Step>, t: Tid, c: Cid)
    requires Core(s) && Hopeless(s, c) && Drains(s, t, c) && CanExec(s, steps)
    ensures s.log <= Exec(s, steps).log && !DoneIn(s.log, Exec(s, steps).log, t)
    decreases |steps|
  {
    LogKept(s, steps);
    if steps != [] {
      var s' := Apply(s, steps[0]);
      CoreStep(s, steps[0]);
      HopelessStep(s, steps[0], c);
      assert DrainThread(s, t);
      DrainGoesOn(s, steps[0], t, c);
      LogGrows(s, steps[0]);
      HopelessForever(s', steps[1..], t, c);
    }
  }

  // ---------------------------------------------------------------- towards the return

  ghost predicate Leads(s: State, r: State) {
    exists steps :: CanExec(s, steps) && Exec(s, steps) == r
  }

  lemma {:induction false} LeadsOn(s: State, r: State, step: Step)
    requires Leads(s, r) && Enabled(r, step)
    ensures Leads(s, Apply(r, step))
  {
    var steps :| CanExec(s, steps) && Exec(s, steps) == r;
    ExecOneMore(s, steps, step);
  }

  /** s is on the way from s0 to a return of t's drain of c. */
  ghost predicate Open(s0: State, s: State, t: Tid, c: Cid) {
    Leads(s0, s) && Core(s) && c in s.co && Drains(s, t, c) && !Hopeless(s, c)
  }

  /** What finishing client calls leaves alone. */
  ghost predicate Kept(s: State, r: State) {
    && r.w == s.w && r.curr == s.curr && r.locks == s.locks && r.co.Keys == s.co.Keys
    && (forall d :: d in s.co ==> r.co[d].mtx == s.co[d].mtx && r.co[d].returnUnlocked == s.co[d].returnUnlocked)
    && (forall x :: PcOf(s, x).Idle? ==> PcOf(r, x).Idle?)
  }

  /** No client statement begins a drain. */
  lemma {:induction false} NoNewDrain(s: State, u: Tid, x: Tid, c: Cid)
    requires ClientEnabled(s, u) && Drains(ClientStep(s, u), x, c)
    ensures Drains(s, x, c)
  {
    if x != u { ClientFrame(s, u); }
  }

  lemma {:induction false} ByClient(s0: State, s: State, u: Tid, t: Tid, c: Cid) returns (r: State)
    requires Open(s0, s, t, c) && ClientEnabled(s, u) && !(u == t && PcOf(s, t).DrainExit?)
    ensures r == ClientStep(s, u) && Open(s0, r, t, c) && ClientFramed(s, r, u) && Kept(s, r)
  {
    r := ClientStep(s, u);
    LeadsOn(s0, s, Client(u));
    CoreStep(s, Client(u));
    ClientFrame(s, u);
    assert Drains(r, t, c);
    if Hopeless(r, c) { HopelessBefore(s, u, c); }
  }

  lemma {:induction false} HopelessBefore(s: State, u: Tid, c: Cid)
    requires ClientEnabled(s, u) && Hopeless(ClientStep(s, u), c)
    ensures Hopeless(s, c)
  {
    var r := ClientStep(s, u);
    ClientFrame(s, u);
    if Drains(r, WORKER, c) {
      NoNewDrain(s, u, WORKER, c);
    } else {
      var x :| x != WORKER && Drains(r, x, c) && Holds(r, x, c);
      NoNewDrain(s, u, x, c);
      assert Holds(s, x, c);
    }
  }

  lemma {:induction false} ByOther(s0: State, s: State, step: Step, t: Tid, c: Cid) returns (r: State)
    requires Open(s0, s, t, c) && Enabled(s, step)
    requires step.Tick? || step.Release? || (step.Acquire? && step.t == WORKER) || step.FuncReturn?
    ensures r == Apply(s, step) && Open(s0, r, t, c)
  {
    r := Apply(s, step);
    LeadsOn(s0, s, step);
    CoreStep(s, step);
    if HeldUp(r, c) {
      var x :| x != WORKER && Drains(r, x, c) && Holds(r, x, c);
      assert Drains(s, x, c) && Holds(s, x, c);
    }
  }

  /** The worker moves and does not select c. */
  lemma {:induction false} ByWorker(s0: State, s: State, t: Tid, c: Cid) returns (r: State)
    requires Open(s0, s, t, c) && WorkEnabled(s)
    requires s.w.Scan? && s.w.i < |s.list| && s.list[s.w.i] == c ==> Wrap(s.co[c].timeout - s.now) >= 0
    ensures r == WorkStep(s) && Open(s0, r, t, c) && r.pcs == s.pcs && (!Scanning(s.w) ==> r.curr == s.curr)
  {
    r := WorkStep(s);
    LeadsOn(s0, s, Work);
    CoreStep(s, Work);
    WorkFrame(s);
    FlagKept(s, Work, c);
    if !Scanning(s.w) { CallbackFrame(s); }
    assert ThreadInv(s, WORKER);
    WorkNeeds(s, c);
    if HeldUp(r, c) {
      var u :| u != WORKER && Drains(r, u, c) && Holds(r, u, c);
      if !Holds(s, u, c) { WorkTakes(s, u, c); }
      assert HeldUp(s, c);
    }
  }

  /** The worker comes to need the mutex of c only by selecting c, or it already has the mutex. */
  lemma {:induction false} WorkNeeds(s: State, c: Cid)
    requires WorkerInv(s) && WorkEnabled(s) && c in s.co && c in WorkStep(s).co
    requires s.w.Scan? && s.w.i < |s.list| && s.list[s.w.i] == c ==> Wrap(s.co[c].timeout - s.now) >= 0
    ensures NeedsMtx(WorkStep(s), c) ==> s.w == SelExit(c) || (s.w == CbFire(c) && Holds(s, WORKER, c))
  {}

  /** How far a call is from its end, if it need not wait. */
  function Rank(pc: Pc): nat {
    match pc
    case Idle => 0
    case StopEnter(_, _) => 11
    case StopBody(_, _) => 10
    case StopExit(_, _) => 9
    case StopFunc(_, _) => 8
    case StopArg(_, _) => 7
    case ArmFunc(_, _, _, _) => 6
    case ArmArg(_, _, _, _) => 5
    case ArmTime(_, _, _, _) => 4
    case ArmEnter(_, _, _, _, _) => 3
    case ArmBody(_, _, _, _, _) => 2
    case ArmExit(_) => 1
    case DrainEnter(_, _) => 3
    case DrainTest(_, _) => 2
    case DrainSleep(_, _) => 3
    case DrainExit(_, _) => 1
  }

  lemma {:induction false} RankFalls(s: State, u: Tid)
    requires ClientEnabled(s, u) && !(PcOf(s, u).DrainTest? && s.curr == Some(PcOf(s, u).c))
    ensures Rank(PcOf(ClientStep(s, u), u)) < Rank(PcOf(s, u))
  {}

  /** A thread inside a call can go on if nobody else has mtx_callout. */
  lemma {:induction false} CanGo(s: State, u: Tid)
    requires ThreadInv(s, u) && !PcOf(s, u).Idle? && (s.lk.None? || s.lk == Some(u))
    ensures ClientEnabled(s, u)
  {}

  /** A client statement takes mtx_callout only for itself; from inside its block it is two statements to the end. */
  lemma {:induction false} LeavesBlock(s: State, u: Tid)
    requires ThreadInv(s, u) && ClientEnabled(s, u) && s.lk == Some(u)
    ensures var r := ClientStep(s, u); r.lk.None? || (r.lk == Some(u) && LastInBlock(PcOf(r, u)))
    ensures LastInBlock(PcOf(s, u)) ==> ClientStep(s, u).lk.None?
  {}

  /** A client that has mtx_callout leaves its block. */
  lemma {:induction false} FreeList(s0: State, s: State, t: Tid, c: Cid) returns (r: State)
    requires Open(s0, s, t, c) && !(s.lk == Some(WORKER) && WCritical(s.w)) && (s.lk == Some(t) ==> s.curr == Some(c))
    ensures Open(s0, r, t, c) && Kept(s, r) && r.lk.None?
    ensures forall x: Tid :: s.lk != Some(x) ==> PcOf(r, x) == PcOf(s, x)
  {
    r := s;
    if s.lk.Some? {
      r := OneOut(s0, s, t, c);
      if r.lk.Some? { r := OneOut(s0, r, t, c); }
    }
  }

  predicate LastInBlock(pc: Pc) {
    pc.StopExit? || pc.ArmExit? || pc.DrainExit?
  }

  lemma {:induction false} OneOut(s0: State, s: State, t: Tid, c: Cid) returns (r: State)
    requires Open(s0, s, t, c) && s.lk.Some? && !(s.lk == Some(WORKER) && WCritical(s.w))
    requires s.lk == Some(t) ==> s.curr == Some(c)
    ensures Open(s0, r, t, c) && Kept(s, r) && (r.lk.None? || (r.lk == s.lk && LastInBlock(PcOf(r, s.lk.value))))
    ensures LastInBlock(PcOf(s, s.lk.value)) ==> r.lk.None?
    ensures forall x: Tid :: s.lk != Some(x) ==> PcOf(r, x) == PcOf(s, x)
  {
    var u := s.lk.value;
    assert ThreadInv(s, u) && DrainThread(s, u);
    CanGo(s, u);
    LeavesBlock(s, u);
    r := ByClient(s0, s, u, t, c);
  }

  /** A call on another callout than c, or one that does not wait, comes to its end. */
  lemma {:induction false} Finish(s0: State, s: State, u: Tid, t: Tid, c: Cid) returns (r: State)
    requires Open(s0, s, t, c) && CanRun(s, u) && s.curr == Some(c) && !Drains(s, u, c) && !WCritical(s.w)
    ensures Open(s0, r, t, c) && Kept(s, r) && PcOf(r, u).Idle?
    decreases Rank(PcOf(s, u)), if s.lk.None? || s.lk == Some(u) then 0 else 1
  {
    if PcOf(s, u).Idle? {
      r := s;
    } else if s.lk.None? || s.lk == Some(u) {
      assert ThreadInv(s, u);
      CanGo(s, u);
      RankFalls(s, u);
      r := ByClient(s0, s, u, t, c);
      if Drains(r, u, c) { NoNewDrain(s, u, u, c); }
      r := Finish(s0, r, u, t, c);
    } else {
      r := FreeList(s0, s, t, c);
      r := Finish(s0, r, u, t, c);
    }
  }

  function Depth(l: Lock): nat {
    if l.Free? then 0 else l.depth + 1
  }

  /** The client that has the mutex of c ends its call and gives the mutex back. */
  lemma {:induction false} LetGo(s0: State, s: State, t: Tid, c: Cid) returns (r: State)
    requires Open(s0, s, t, c) && s.curr == Some(c) && NeedsMtx(s, c) && !WCritical(s.w)
    ensures Open(s0, r, t, c) && r.w == s.w && r.curr == s.curr && CanLock(LockOf(r, r.co[c].mtx), WORKER)
    ensures (PcOf(s, WORKER).Idle? ==> PcOf(r, WORKER).Idle?) && r.co[c].returnUnlocked == s.co[c].returnUnlocked
    decreases Depth(LockOf(s, s.co[c].mtx))
  {
    var m := s.co[c].mtx;
    if CanLock(LockOf(s, m), WORKER) {
      r := s;
    } else {
      var u := LockOf(s, m).owner;
      assert !Drains(s, u, c);
      r := Finish(s0, s, u, t, c);
      r := ByOther(s0, r, Release(u, m), t, c);
      r := LetGo(s0, r, t, c);
    }
  }

  function WorkRank(w: WPc): nat {
    match w
    case SelExit(_) => 11
    case CbLock(_) => 10
    case CbEnter(_) => 9
    case CbBody(_) => 8
    case CbExit(_) => 7
    case CbTest(_) => 6
    case CbCall(_) => 5
    case CbFire(_) => 4
    case CbFunc(_) => 3
    case CbReturn(_) => 2
    case CbCancel(_) => 1
    case _ => 0
  }

  /** The callback of c comes back. */
  lemma {:induction false} EndFunc(s0: State, s: State, t: Tid, c: Cid) returns (r: State)
    requires Open(s0, s, t, c) && s.w == CbFunc(c) && s.curr == Some(c)
    ensures Open(s0, r, t, c) && r.w == CbReturn(c) && r.curr == Some(c)
  {
    assert ThreadInv(s, WORKER);
    r := Finish(s0, s, WORKER, t, c);
    if !r.co[c].returnUnlocked && !Holds(r, WORKER, c) {
      r := LetGo(s0, r, t, c);
      r := ByOther(s0, r, Acquire(WORKER, r.co[c].mtx), t, c);
    }
    r := ByOther(s0, r, FuncReturn, t, c);
  }

  /** The worker's next statement on c. */
  lemma {:induction false} WorkFalls(s: State, c: Cid)
    requires WorkEnabled(s) && About(s.w, c)
    ensures WorkRank(WorkStep(s).w) < WorkRank(s.w)
  {}

  /** The worker is done with c. */
  lemma {:induction false} EndCallback(s0: State, s: State, t: Tid, c: Cid) returns (r: State)
    requires Open(s0, s, t, c) && s.curr == Some(c)
    ensures Open(s0, r, t, c) && r.curr == Some(c) && (r.w.Enter? || r.w.Clear?)
    decreases WorkRank(s.w)
  {
    r := s;
    if About(s.w, c) {
      if s.w.CbFunc? {
        r := EndFunc(s0, s, t, c);
      } else {
        if s.w.CbLock? { r := LetGo(s0, s, t, c); }
        if s.w.CbEnter? { r := FreeList(s0, s, t, c); }
        WorkFalls(r, c);
        r := ByWorker(s0, r, t, c);
      }
      r := EndCallback(s0, r, t, c);
    }
  }

  /** The worker sets curr_callout to NULL. */
  lemma {:induction false} Forget(s0: State, s: State, t: Tid, c: Cid) returns (r: State)
    requires Open(s0, s, t, c) && s.curr == Some(c)
    ensures Open(s0, r, t, c) && r.curr.None?
  {
    r := EndCallback(s0, s, t, c);
    if r.w.Enter? {
      r := FreeList(s0, r, t, c);
      r := ByWorker(s0, r, t, c);
    }
    r := ByWorker(s0, r, t, c);
  }

  // ---------------------------------------------------------------- out of the wait

  /** Time passes until the timeout of c is now. */
  lemma {:induction false} LetTimePass(s0: State, s: State, t: Tid, c: Cid, n: nat) returns (r: State)
    requires Open(s0, s, t, c)
    ensures Open(s0, r, t, c) && r == s.(now := s.now + n)
    decreases n
  {
    r := s;
    if n > 0 {
      r := ByOther(s0, s, Tick, t, c);
      r := LetTimePass(s0, r, t, c, n - 1);
    }
  }

  lemma {:induction false} NotYet(timeout: int, now: int) returns (n: nat)
    ensures Wrap(timeout - (now + n)) >= 0
  {
    n := (timeout - now) % 0x1_0000_0000;
  }

  /** How far the worker is from dropping mtx_callout. */
  function ScanRank(s: State): int {
    match s.w
    case Clear => |s.list| + 4
    case Scan(i) => |s.list| - i + 3
    case CbBody(_) => 2
    case SelExit(_) => 1
    case NoneExit => 1
    case CbExit(_) => 1
    case _ => 0
  }

  lemma {:induction false} ScanFalls(s: State)
    requires WorkEnabled(s) && WCritical(s.w) && WorkerInv(s)
    ensures ScanRank(s) > 0
    ensures WorkStep(s).lk.None? || (WorkStep(s).lk == s.lk && WCritical(WorkStep(s).w) &&
      0 <= ScanRank(WorkStep(s)) < ScanRank(s))
  {}

  /** The worker drops mtx_callout without selecting c. */
  lemma {:induction false} PassBy(s0: State, s: State, t: Tid, c: Cid) returns (r: State)
    requires Open(s0, s, t, c) && s.curr != Some(c) && WCritical(s.w) && t != WORKER
    ensures Open(s0, r, t, c) && r.curr != Some(c) && r.lk.None?
    decreases ScanRank(s)
  {
    assert ThreadInv(s, WORKER);
    r := s;
    if s.w.Scan? && s.w.i < |s.list| && s.list[s.w.i] == c {
      var n := NotYet(s.co[c].timeout, s.now);
      r := LetTimePass(s0, s, t, c, n);
    }
    ScanFalls(r);
    r := ByWorker(s0, r, t, c);
    if r.lk.Some? { r := PassBy(s0, r, t, c); }
  }

  /** With mtx_callout free, t goes through to the end of its drain. */
  lemma {:induction false} GoThrough(s0: State, s: State, t: Tid, c: Cid)
    requires Open(s0, s, t, c) && s.curr != Some(c) && (s.lk.None? || s.lk == Some(t))
    ensures Returns(s0, t)
    decreases Rank(PcOf(s, t))
  {
    assert ThreadInv(s, t);
    CanGo(s, t);
    if PcOf(s, t).DrainExit? {
      var steps :| CanExec(s0, steps) && Exec(s0, steps) == s;
      LogKept(s0, steps);
      ExecOneMore(s0, steps, Client(t));
      LogGrows(s, Client(t));
      assert Apply(s, Client(t)).log[|s.log|].DrainDone?;
    } else {
      RankFalls(s, t);
      var r := ByClient(s0, s, t, t, c);
      GoThrough(s0, r, t, c);
    }
  }

  lemma {:induction false} SomeReturn(s: State, t: Tid, c: Cid)
    requires Core(s) && c in s.co && Drains(s, t, c) && !Hopeless(s, c)
    ensures Returns(s, t)
  {
    assert CanExec(s, []) && Exec(s, []) == s;
    var r := s;
    if s.curr == Some(c) { r := Forget(s, s, t, c); }
    if !(r.lk.None? || r.lk == Some(t)) {
      assert ThreadInv(r, WORKER) && ThreadInv(r, t);
      if r.lk == Some(WORKER) && WCritical(r.w) { r := PassBy(s, r, t, c); } else { r := FreeList(s, r, t, c); }
    }
    GoThrough(s, r, t, c);
  }

  /** In every run, a drain of c that is under way, by whichever thread and however far it has come, can
    still return if and only if the state is not hopeless for c. */
  lemma {:induction false} ReturnsIff(s: State, steps: seq<Step>, t: Tid, c: Cid)
    requires Init(s) && CanExec(s, steps) && Drains(Exec(s, steps), t, c)
    ensures Returns(Exec(s, steps), t) <==> !Hopeless(Exec(s, steps), c)
  {
    InitInv(s);
    ExecInv(s, steps);
    var r := Exec(s, steps);
    assert ThreadInv(r, t);
    if Hopeless(r, c) {
      forall more | CanExec(r, more) ensures !DoneIn(r.log, Exec(r, more).log, t) { HopelessForever(r, more, t, c); }
    } else {
      SomeReturn(r, t, c);
    }
  }

  /** Who holds the mutex inside a drain can be read off the log: who entered the drain with it. */
  lemma {:induction false} HoldsIffEntered(s: State, steps: seq<Step>, t: Tid, c: Cid)
    requires Init(s) && CanExec(s, steps) && Drains(Exec(s, steps), t, c)
    ensures var r := Exec(s, steps); c in r.co && Began(r.log, Since(PcOf(r, t)), c, t)
    ensures var r := Exec(s, steps); Holds(r, t, c) <==> r.log[Since(PcOf(r, t))].locked
  {
    InitInv(s);
    ExecInv(s, steps);
    var r := Exec(s, steps);
    assert ThreadInv(r, t) && DrainThread(r, t);
  }
}
