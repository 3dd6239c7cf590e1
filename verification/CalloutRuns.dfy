/** Runs of one callout, two clients and the worker that show where the theorems need their
  conditions.  The runs are followed on a record without maps, which the step system simulates. */
module CalloutRuns {
  import opened Basics
  import opened Ticks
  import opened Callouts
  import opened CalloutSafety
  import opened CalloutDrain
  import opened CalloutWatch
  import opened CalloutTheorems
  import opened CalloutReturns

  ghost predicate Reach(s: State) {
    exists s0, steps :: Init(s0) && CanExec(s0, steps) && Exec(s0, steps) == s
  }

  lemma {:induction false} ReachStep(s: State, step: Step)
    requires Reach(s) && Enabled(s, step)
    ensures Reach(Apply(s, step))
  {
    var s0, steps :| Init(s0) && CanExec(s0, steps) && Exec(s0, steps) == s;
    ExecOneMore(s0, steps, step);
  }

  // ---------------------------------------------------------------- one callout

  const C: Cid := 7
  const M: Mtx := 5

  /** The fields of the callout, the locks, and where the worker's callback and clients 1 and 2 are. */
  datatype Conf = Conf(f: Option<Func>, a: Option<Arg>, to: int, linked: bool, lock: Lock, curr: Option<Cid>,
      cancel: bool, lk: Option<Tid>, now: int, p0: Pc, p1: Pc, p2: Pc, w: WPc, log: seq<Event>)

  const START := Conf(None, None, 0, false, Free, None, false, None, 0, Idle, Idle, Idle, Asleep, [])

  function St(k: Conf): State {
    State(map[C := Callout(M, false, k.f, k.a, k.to, k.linked)], map[M := k.lock], if k.linked then [C] else [],
          k.curr, k.cancel, k.lk, k.now, map[0 := k.p0, 1 := k.p1, 2 := k.p2], k.w, k.log)
  }

  function P(k: Conf, t: Tid): Pc {
    if t == 0 then k.p0 else if t == 1 then k.p1 else k.p2
  }

  function Set(k: Conf, t: Tid, pc: Pc): Conf {
    if t == 0 then k.(p0 := pc) else if t == 1 then k.(p1 := pc) else k.(p2 := pc)
  }

  function Log(k: Conf, e: Event): Conf {
    k.(log := k.log + [e])
  }

  /** A statement of client t. */
  function Client(k: Conf, t: Tid): Conf {
    match P(k, t)
    case StopEnter(_, x) => Set(k.(lk := Some(t)), t, StopBody(C, x))
    case StopBody(_, x) => Set(k.(linked := false, cancel := k.cancel || k.curr == Some(C)), t, StopExit(C, x))
    case StopExit(_, x) => Set(k.(lk := None), t, StopFunc(C, x))
    case StopFunc(_, x) => Set(k.(f := None), t, StopArg(C, x))
    case StopArg(_, x) => Set(Log(k.(a := None), Stopped(C, t)), t, AfterStop(C, x))
    case ArmFunc(_, f, a, n) => Set(Log(k.(f := f), Arming(C, t)), t, ArmArg(C, f, a, n))
    case ArmArg(_, f, a, n) => Set(k.(a := a), t, ArmTime(C, f, a, n))
    case ArmTime(_, f, a, n) => Set(k.(to := Wrap(k.now + n)), t, ArmEnter(C, f, a, n, k.now + n))
    case ArmEnter(_, f, a, n, dl) => Set(k.(lk := Some(t)), t, ArmBody(C, f, a, n, dl))
    case ArmBody(_, f, a, n, dl) => Set(Log(k.(linked := true), Armed(C, f, a, dl, n)), t, ArmExit(C))
    case ArmExit(_) => Set(k.(lk := None), t, Idle)
    case _ => k
  }

  /** A statement of the worker. */
  function Work(k: Conf): Conf {
    match k.w
    case Enter => k.(lk := Some(WORKER), w := Clear)
    case Clear => k.(curr := None, w := Scan(0))
    case Scan(i) => if Wrap(k.to - k.now) < 0 then
      Log(k.(curr := Some(C), cancel := false, w := SelExit(C)), Selected(C, k.now)) else k.(w := Scan(i + 1))
    case SelExit(_) => k.(lk := None, w := CbLock(C))
    case CbLock(_) => k.(lock := Held(WORKER, 1), w := CbEnter(C))
    case CbEnter(_) => k.(lk := Some(WORKER), w := CbBody(C))
    case CbBody(_) => k.(linked := false, w := CbExit(C))
    case CbExit(_) => k.(lk := None, w := CbTest(C))
    case CbTest(_) => if k.cancel then k.(w := CbCancel(C)) else Log(k.(w := CbCall(C)), Committed(C))
    case CbCall(_) => if k.f.Some? then k.(w := CbFire(C)) else Log(k.(w := CbReturn(C)), Skipped(C))
    case CbFire(_) => Log(k.(w := CbFunc(C)), Fired(C, k.f, k.a, k.lock))
    case _ => k
  }

  lemma {:induction false} SetPc(k: Conf, t: Tid, pc: Pc)
    requires t <= 2
    ensures St(k).pcs[t := pc] == St(Set(k, t, pc)).pcs && PcOf(St(k), t) == P(k, t)
  {}

  lemma {:induction false} StartReached()
    ensures Reach(St(START))
  {
    assert CanExec(St(START), []) && Exec(St(START), []) == St(START);
    assert Init(St(START));
  }

  lemma {:induction false} OneCallout(o: Callout, o': Callout)
    ensures map[C := o][C := o'] == map[C := o'] && Without([C], {C}) == [] && [C] + [] == [C]
  {
    assert [C][1..] == [];
  }

  /** The callout of k, with other fields. */
  function Co(k: Conf): Callout {
    Callout(M, false, k.f, k.a, k.to, k.linked)
  }

  lemma {:induction false} SameState(k: Conf, r: Conf, t: Tid, s: State)
    requires t <= 2
    requires r == Set(k.(f := r.f, a := r.a, to := r.to, linked := r.linked, cancel := r.cancel, lk := r.lk,
      log := r.log), t, P(r, t))
    requires s.co == map[C := Co(r)] && s.list == (if r.linked then [C] else []) && s.pcs == St(k).pcs[t := P(r, t)]
    requires s == St(k).(co := s.co, list := s.list, cancel := r.cancel, lk := r.lk, log := r.log, pcs := s.pcs)
    ensures s == St(r)
  {
    SetPc(k, t, P(r, t));
  }

  lemma {:induction false} ClientStops(k: Conf, t: Tid)
    requires t <= 2 && InStop(P(k, t)) && P(k, t).c == C && PcOf(St(k), t) == P(k, t) && ClientEnabled(St(k), t)
    ensures ClientStep(St(k), t) == St(Client(k, t))
  {
    if P(k, t).StopFunc? || P(k, t).StopArg? {
      ClientClears(k, t);
    } else {
      OneCallout(Co(k), Co(Client(k, t)));
      SameState(k, Client(k, t), t, ClientStep(St(k), t));
    }
  }

  lemma {:induction false} ClientClears(k: Conf, t: Tid)
    requires t <= 2 && (P(k, t).StopFunc? || P(k, t).StopArg?) && P(k, t).c == C
    requires PcOf(St(k), t) == P(k, t) && ClientEnabled(St(k), t)
    ensures ClientStep(St(k), t) == St(Client(k, t))
  {
    var s := ClientStep(St(k), t);
    OneCallout(Co(k), Co(Client(k, t)));
    assert s.co == map[C := Co(k)][C := Co(Client(k, t))];
    SameState(k, Client(k, t), t, s);
  }

  lemma {:induction false} ClientSets(k: Conf, t: Tid)
    requires t <= 2 && (P(k, t).ArmFunc? || P(k, t).ArmArg?) && P(k, t).c == C
    requires PcOf(St(k), t) == P(k, t) && ClientEnabled(St(k), t)
    ensures ClientStep(St(k), t) == St(Client(k, t))
  {
    var s := ClientStep(St(k), t);
    OneCallout(Co(k), Co(Client(k, t)));
    assert s.co == map[C := Co(k)][C := Co(Client(k, t))];
    SameState(k, Client(k, t), t, s);
  }

  lemma {:induction false} ClientTimes(k: Conf, t: Tid)
    requires t <= 2 && P(k, t).ArmTime? && P(k, t).c == C && PcOf(St(k), t) == P(k, t) && ClientEnabled(St(k), t)
    ensures ClientStep(St(k), t) == St(Client(k, t))
  {
    var s := ClientStep(St(k), t);
    OneCallout(Co(k), Co(Client(k, t)));
    assert s.co == map[C := Co(k)][C := Co(Client(k, t))];
    SameState(k, Client(k, t), t, s);
  }

  lemma {:induction false} ClientLinks(k: Conf, t: Tid)
    requires t <= 2 && (P(k, t).ArmEnter? || P(k, t).ArmBody? || P(k, t).ArmExit?) && P(k, t).c == C
    requires P(k, t).ArmBody? ==> !k.linked
    requires PcOf(St(k), t) == P(k, t) && ClientEnabled(St(k), t)
    ensures ClientStep(St(k), t) == St(Client(k, t))
  {
    OneCallout(Co(k), Co(Client(k, t)));
    SameState(k, Client(k, t), t, ClientStep(St(k), t));
  }

  lemma {:induction false} GoClient(k: Conf, t: Tid) returns (r: Conf)
    requires Reach(St(k)) && t <= 2 && (t == 0 ==> k.w == CbFunc(C))
    requires (InStop(P(k, t)) || InArm(P(k, t)) || P(k, t).ArmExit?) && P(k, t).c == C
    requires P(k, t).StopEnter? || P(k, t).ArmEnter? ==> k.lk.None?
    requires P(k, t).ArmBody? ==> !k.linked
    ensures r == Client(k, t) && Reach(St(r))
  {
    SetPc(k, t, Idle);
    if InStop(P(k, t)) { ClientStops(k, t); }
    else if P(k, t).ArmFunc? || P(k, t).ArmArg? { ClientSets(k, t); }
    else if P(k, t).ArmTime? { ClientTimes(k, t); }
    else { ClientLinks(k, t); }
    ReachStep(St(k), Step.Client(t));
    r := Client(k, t);
  }

  lemma {:induction false} WorkScans(k: Conf)
    requires Scanning(k.w) && !k.w.NoneExit? && (k.w.Scan? ==> k.w.i == 0 && k.linked) && WorkEnabled(St(k))
    ensures WorkStep(St(k)) == St(Work(k))
  {}

  lemma {:induction false} WorkCalls(k: Conf)
    requires !Scanning(k.w) && !k.w.Asleep? && !k.w.CbFunc? && !k.w.CbReturn? && !k.w.CbCancel? && k.w.c == C
    requires (k.w.CbLock? ==> k.lock.Free?) && (k.w.CbBody? ==> k.linked) && WorkEnabled(St(k))
    ensures WorkStep(St(k)) == St(Work(k))
  {
    if k.w.CbBody? {
      assert Without([C], {C}) == [] by { assert [C][1..] == []; }
    } else {
      WorkGoesOn(k);
    }
  }

  lemma {:induction false} WorkGoesOn(k: Conf)
    requires !Scanning(k.w) && !k.w.Asleep? && !k.w.CbBody? && !k.w.CbFunc? && !k.w.CbReturn? && !k.w.CbCancel?
    requires k.w.c == C && (k.w.CbLock? ==> k.lock.Free?) && WorkEnabled(St(k))
    ensures WorkStep(St(k)) == St(Work(k))
  {
    RestFramed(St(k));
    if k.w.CbLock? { LockChanges(k, Held(WORKER, 1)); } else { assert WorkStep(St(k)).locks == St(k).locks; }
  }

  lemma {:induction false} GoWork(k: Conf) returns (r: Conf)
    requires Reach(St(k)) && !k.w.Asleep? && !k.w.NoneExit? && !k.w.CbFunc? && !k.w.CbReturn? && !k.w.CbCancel?
    requires if Scanning(k.w) then k.w.Scan? ==> k.w.i == 0 && k.linked else k.w.c == C
    requires k.w.Enter? || k.w.CbEnter? ==> k.lk.None?
    requires (k.w.CbLock? ==> k.lock.Free?) && (k.w.CbBody? ==> k.linked)
    ensures r == Work(k) && Reach(St(r))
  {
    if Scanning(k.w) { WorkScans(k); } else { WorkCalls(k); }
    ReachStep(St(k), Step.Work);
    r := Work(k);
  }

  lemma {:induction false} GoReset(k: Conf, t: Tid, f: Option<Func>, a: Option<Arg>, n: U32) returns (r: Conf)
    requires Reach(St(k)) && 1 <= t <= 2 && P(k, t).Idle? && k.lock.Held? && k.lock.owner == t
    ensures r == Set(k, t, StopEnter(C, Rearm(f, a, n))) && Reach(St(r))
  {
    SetPc(k, t, Idle);
    ReachStep(St(k), CallReset(t, C, f, a, n));
    r := Set(k, t, StopEnter(C, Rearm(f, a, n)));
    SameState(k, r, t, Apply(St(k), CallReset(t, C, f, a, n)));
  }

  lemma {:induction false} GoDrain(k: Conf, t: Tid) returns (r: Conf)
    requires Reach(St(k)) && t <= 2 && P(k, t).Idle? && (t == 0 ==> k.w == CbFunc(C))
    ensures r == Set(Log(k, DrainBegan(C, t, k.lock.Held? && k.lock.owner == t)), t, StopEnter(C, Wait(|k.log|)))
    ensures Reach(St(r))
  {
    r := Set(Log(k, DrainBegan(C, t, k.lock.Held? && k.lock.owner == t)), t, StopEnter(C, Wait(|k.log|)));
    DrainStarts(k, t, r);
    ReachStep(St(k), CallDrain(t, C));
  }

  lemma {:induction false} DrainStarts(k: Conf, t: Tid, r: Conf)
    requires t <= 2 && P(k, t).Idle? && (t == 0 ==> k.w == CbFunc(C))
    requires r == Set(Log(k, DrainBegan(C, t, k.lock.Held? && k.lock.owner == t)), t, StopEnter(C, Wait(|k.log|)))
    ensures Enabled(St(k), CallDrain(t, C)) && Apply(St(k), CallDrain(t, C)) == St(r)
  {
    SetPc(k, t, Idle);
    assert Holds(St(k), t, C) <==> k.lock.Held? && k.lock.owner == t;
    SameState(k, r, t, Apply(St(k), CallDrain(t, C)));
  }

  /** Client 1 takes or drops the mutex, time passes, the worker wakes up. */
  lemma {:induction false} GoLock(k: Conf) returns (r: Conf)
    requires Reach(St(k)) && k.p1.Idle? && k.lock.Free?
    ensures r == k.(lock := Held(1, 1)) && Reach(St(r))
  {
    r := k.(lock := Held(1, 1));
    LockChanges(k, Held(1, 1));
    SetPc(k, 1, Idle);
    ReachStep(St(k), Acquire(1, M));
  }

  lemma {:induction false} LockChanges(k: Conf, l: Lock)
    ensures St(k).(locks := St(k).locks[M := l]) == St(k.(lock := l)) && LockOf(St(k), M) == k.lock
  {
    assert map[M := k.lock][M := l] == map[M := l];
  }

  lemma {:induction false} GoUnlock(k: Conf) returns (r: Conf)
    requires Reach(St(k)) && k.p1.Idle? && k.lock == Held(1, 1)
    ensures r == k.(lock := Free) && Reach(St(r))
  {
    r := k.(lock := Free);
    LockChanges(k, Free);
    SetPc(k, 1, Idle);
    ReachStep(St(k), Release(1, M));
  }

  lemma {:induction false} GoTick(k: Conf) returns (r: Conf)
    requires Reach(St(k))
    ensures r == k.(now := k.now + 1) && Reach(St(r))
  {
    ReachStep(St(k), Tick);
    r := k.(now := k.now + 1);
  }

  lemma {:induction false} GoWake(k: Conf) returns (r: Conf)
    requires Reach(St(k)) && k.w.Asleep?
    ensures r == k.(w := Enter) && Reach(St(r))
  {
    ReachStep(St(k), Wakeup);
    r := k.(w := Enter);
  }

  // ---------------------------------------------------------------- stretches of a run

  /** The first and the second half of a stop, up to the point where it clears c->arg. */
  lemma {:induction false} GoUnlink(k: Conf, t: Tid) returns (r: Conf)
    requires Reach(St(k)) && t <= 2 && (t == 0 ==> k.w == CbFunc(C)) && P(k, t).StopEnter? && P(k, t).c == C
    requires k.lk.None?
    ensures r == Set(k.(linked := false, cancel := k.cancel || k.curr == Some(C), lk := Some(t)), t,
      StopExit(C, P(k, t).k))
    ensures Reach(St(r))
  {
    r := GoClient(k, t);
    r := GoClient(r, t);
  }

  lemma {:induction false} GoClear(k: Conf, t: Tid) returns (r: Conf)
    requires Reach(St(k)) && t <= 2 && (t == 0 ==> k.w == CbFunc(C)) && P(k, t).StopExit? && P(k, t).c == C
    ensures r == Set(k.(lk := None, f := None), t, StopArg(C, P(k, t).k)) && Reach(St(r))
  {
    r := GoClient(k, t);
    r := GoClient(r, t);
  }

  lemma {:induction false} GoStop(k: Conf, t: Tid) returns (r: Conf)
    requires Reach(St(k)) && t <= 2 && (t == 0 ==> k.w == CbFunc(C)) && P(k, t).StopEnter? && P(k, t).c == C
    requires k.lk.None?
    ensures r == Set(k.(linked := false, cancel := k.cancel || k.curr == Some(C), f := None), t, StopArg(C, P(k, t).k))
    ensures Reach(St(r))
  {
    r := GoUnlink(k, t);
    r := GoClear(r, t);
  }

  /** A reset by client 1, from the point where its stop clears c->arg. */
  lemma {:induction false} GoFunc(k: Conf) returns (r: Conf)
    requires Reach(St(k)) && k.p1.StopArg? && k.p1.c == C && k.p1.k.Rearm?
    ensures var x := k.p1.k;
      r == k.(f := x.f, a := None, log := k.log + [Stopped(C, 1)] + [Arming(C, 1)],
        p1 := ArmArg(C, x.f, x.a, x.ticks))
    ensures Reach(St(r))
  {
    r := GoClient(k, 1);
    r := GoClient(r, 1);
  }

  lemma {:induction false} GoTime(k: Conf) returns (r: Conf)
    requires Reach(St(k)) && k.p1.ArmArg? && k.p1.c == C
    ensures var x := k.p1;
      r == k.(a := x.a, to := Wrap(k.now + x.ticks), p1 := ArmEnter(C, x.f, x.a, x.ticks, k.now + x.ticks))
    ensures Reach(St(r))
  {
    r := GoSetArg(k);
    r := GoClient(r, 1);
  }

  lemma {:induction false} GoSetArg(k: Conf) returns (r: Conf)
    requires Reach(St(k)) && k.p1.ArmArg? && k.p1.c == C
    ensures r == k.(a := k.p1.a, p1 := ArmTime(C, k.p1.f, k.p1.a, k.p1.ticks)) && Reach(St(r))
  {
    r := GoClient(k, 1);
  }

  lemma {:induction false} GoLink(k: Conf) returns (r: Conf)
    requires Reach(St(k)) && k.p1.ArmEnter? && k.p1.c == C && k.lk.None? && !k.linked
    ensures var x := k.p1; r == k.(linked := true, log := k.log + [Armed(C, x.f, x.a, x.deadline, x.ticks)], p1 := Idle)
    ensures Reach(St(r))
  {
    var x := k.p1;
    r := GoClient(k, 1);
    assert r == k.(lk := Some(1), p1 := ArmBody(C, x.f, x.a, x.ticks, x.deadline));
    r := GoClient(r, 1);
    assert r.p1 == ArmExit(C);
    r := GoClient(r, 1);
  }

  lemma {:induction false} GoArm(k: Conf) returns (r: Conf)
    requires Reach(St(k)) && k.p1.StopArg? && k.p1.c == C && k.p1.k.Rearm? && k.lk.None? && !k.linked
    ensures var x := k.p1.k;
      r == k.(f := x.f, a := x.a, to := Wrap(k.now + x.ticks), linked := true, p1 := Idle,
        log := k.log + [Stopped(C, 1)] + [Arming(C, 1)] + [Armed(C, x.f, x.a, k.now + x.ticks, x.ticks)])
    ensures Reach(St(r))
  {
    r := GoFunc(k);
    r := GoTime(r);
    r := GoLink(r);
  }

  /** The worker wakes up, selects the callout and drops the lock of the list. */
  lemma {:induction false} GoSelect(k: Conf) returns (r: Conf)
    requires Reach(St(k)) && k.w.Asleep? && k.lk.None? && k.linked && Wrap(k.to - k.now) < 0
    ensures r == k.(curr := Some(C), cancel := false, w := CbLock(C), log := k.log + [Selected(C, k.now)])
    ensures Reach(St(r))
  {
    r := GoScan(k);
    r := GoWork(r);
    r := GoWork(r);
  }

  lemma {:induction false} GoScan(k: Conf) returns (r: Conf)
    requires Reach(St(k)) && k.w.Asleep? && k.lk.None?
    ensures r == k.(curr := None, lk := Some(WORKER), w := Scan(0)) && Reach(St(r))
  {
    r := GoWake(k);
    r := GoWork(r);
    r := GoWork(r);
  }

  /** The worker takes both locks. */
  lemma {:induction false} GoBody(k: Conf) returns (r: Conf)
    requires Reach(St(k)) && k.w == CbLock(C) && k.lk.None? && k.lock.Free?
    ensures r == k.(lock := Held(WORKER, 1), lk := Some(WORKER), w := CbBody(C)) && Reach(St(r))
  {
    r := GoWork(k);
    r := GoWork(r);
  }

  /** The worker unlinks the callout and passes both tests. */
  lemma {:induction false} GoCommit(k: Conf) returns (r: Conf)
    requires Reach(St(k)) && k.w == CbBody(C) && k.linked && !k.cancel && k.f.Some?
    ensures r == k.(linked := false, lk := None, w := CbFire(C), log := k.log + [Committed(C)]) && Reach(St(r))
  {
    r := GoWork(k);
    r := GoWork(r);
    r := GoWork(r);
    r := GoWork(r);
  }

  /** Client 1 has taken the mutex and made a reset. */
  lemma {:induction false} GoFirst(f: Func, a: Arg, n: U32) returns (r: Conf)
    ensures r == START.(f := Some(f), a := Some(a), to := Wrap(n), linked := true, lock := Held(1, 1),
      log := [Stopped(C, 1), Arming(C, 1), Armed(C, Some(f), Some(a), n, n)])
    ensures Reach(St(r))
  {
    StartReached();
    r := GoLock(START);
    r := GoReset(r, 1, Some(f), Some(a), n);
    r := GoStop(r, 1);
    r := GoArm(r);
    assert r.log == [Stopped(C, 1), Arming(C, 1), Armed(C, Some(f), Some(a), n, n)];
  }

  // ---------------------------------------------------------------- the runs

  /** A drain without the mutex overlaps a reset: the callback is invoked without its argument. */
  lemma {:induction false} DrainOverResetLosesArgument(f: Func, a: Arg) returns (k: Conf)
    ensures Reach(St(k))
    ensures k.log == [DrainBegan(C, 2, false), Stopped(C, 1), Arming(C, 1), Armed(C, Some(f), Some(a), 0, 0),
      Stopped(C, 2), Selected(C, 1), Committed(C), Fired(C, Some(f), None, Held(WORKER, 1))]
    ensures forall x, j, dl, n: U32, at :: !Invokes(k.log, 7, x, j, dl, n, at)
  {
    k := ResetInDrain(f, a);
    k := GoClient(k, 2);
    k := FireNow(k);
    assert k.log == [DrainBegan(C, 2, false), Stopped(C, 1), Arming(C, 1), Armed(C, Some(f), Some(a), 0, 0)] +
                    [Stopped(C, 2)] + [Selected(C, 1)] + [Committed(C)] + [Fired(C, Some(f), None, Held(WORKER, 1))];
    assert k.log[..7][4] == Stopped(C, 2);
  }

  lemma {:induction false} ResetInDrain(f: Func, a: Arg) returns (k: Conf)
    ensures Reach(St(k))
    ensures k == START.(f := Some(f), a := Some(a), linked := true, lock := Held(1, 1), p2 := StopArg(C, Wait(0)),
      log := [DrainBegan(C, 2, false), Stopped(C, 1), Arming(C, 1), Armed(C, Some(f), Some(a), 0, 0)])
  {
    k := DrainHalfway();
    k := GoReset(k, 1, Some(f), Some(a), 0);
    k := GoStop(k, 1);
    k := GoArm(k);
    assert k.log == [DrainBegan(C, 2, false)] + [Stopped(C, 1)] + [Arming(C, 1)] + [Armed(C, Some(f), Some(a), 0, 0)];
  }

  /** Client 1 has the mutex, and client 2 is in a drain, about to clear c->arg. */
  lemma {:induction false} DrainHalfway() returns (k: Conf)
    ensures Reach(St(k))
    ensures k == START.(lock := Held(1, 1), p2 := StopArg(C, Wait(0)), log := [DrainBegan(C, 2, false)])
  {
    StartReached();
    k := GoLock(START);
    k := GoDrain(k, 2);
    assert k.log == [DrainBegan(C, 2, false)];
    k := GoStop(k, 2);
  }

  /** Client 1 drops the mutex, a tick passes, and the worker invokes the callout. */
  lemma {:induction false} FireNow(k: Conf) returns (r: Conf)
    requires Reach(St(k)) && k.w.Asleep? && k.lk.None? && k.linked && k.now == 0 && k.to == 0 && k.p1.Idle?
    requires k.lock == Held(1, 1) && k.f.Some?
    ensures r == k.(now := 1, lock := Held(WORKER, 1), curr := Some(C), cancel := false, linked := false,
      w := CbFunc(C), log := k.log + [Selected(C, 1)] + [Committed(C)] + [Fired(C, k.f, k.a, Held(WORKER, 1))])
    ensures Reach(St(r))
  {
    r := GoUnlock(k);
    r := GoTick(r);
    r := GoSelect(r);
    r := GoBody(r);
    r := GoCommit(r);
    r := GoWork(r);
  }

  /** Client 1 makes a reset and drops the mutex, and the worker is about to make the call. */
  lemma {:induction false} AboutToFire(f: Func, a: Arg) returns (k: Conf)
    ensures Reach(St(k))
    ensures k == START.(f := Some(f), a := Some(a), lock := Held(WORKER, 1), curr := Some(C), now := 1, w := CbFire(C),
      log := [Stopped(C, 1), Arming(C, 1), Armed(C, Some(f), Some(a), 0, 0), Selected(C, 1), Committed(C)])
  {
    k := GoFirst(f, a, 0);
    k := GoUnlock(k);
    k := GoTick(k);
    k := GoSelect(k);
    k := GoBody(k);
    k := GoCommit(k);
    assert k.log == [Stopped(C, 1), Arming(C, 1), Armed(C, Some(f), Some(a), 0, 0)] + [Selected(C, 1)] + [Committed(C)];
  }

  /** A drain without the mutex overlaps a callback past its tests: NULL is called. */
  lemma {:induction false} DrainOverCallbackCallsNull(f: Func, a: Arg) returns (k: Conf)
    ensures Reach(St(k))
    ensures k.log == [Stopped(C, 1), Arming(C, 1), Armed(C, Some(f), Some(a), 0, 0), Selected(C, 1), Committed(C),
      DrainBegan(C, 2, false), Stopped(C, 2), Fired(C, None, None, Held(WORKER, 1))]
    ensures forall x, j, dl, n: U32, at :: !Invokes(k.log, 7, x, j, dl, n, at)
  {
    k := AboutToFire(f, a);
    var log := k.log;
    k := GoDrain(k, 2);
    k := GoStop(k, 2);
    k := GoClient(k, 2);
    k := GoWork(k);
    assert k.log == log + [DrainBegan(C, 2, false)] + [Stopped(C, 2)] + [Fired(C, None, None, Held(WORKER, 1))];
  }

  /** A reset 2^31 or more ticks ahead is invoked at once. */
  lemma {:induction false} FarResetFiresEarly(f: Func, a: Arg, n: U32) returns (k: Conf)
    requires n >= HALF
    ensures Reach(St(k))
    ensures k.log == [Stopped(C, 1), Arming(C, 1), Armed(C, Some(f), Some(a), n, n), Selected(C, 0), Committed(C),
      Fired(C, Some(f), Some(a), Held(WORKER, 1))]
  {
    FarTestsNegative(n);
    k := GoFirst(f, a, n);
    k := GoUnlock(k);
    WrapDifference(n, 0);
    k := GoSelect(k);
    k := GoBody(k);
    k := GoCommit(k);
    k := GoWork(k);
    assert k.log == [Stopped(C, 1), Arming(C, 1), Armed(C, Some(f), Some(a), n, n)] + [Selected(C, 0)] +
      [Committed(C)] + [Fired(C, Some(f), Some(a), Held(WORKER, 1))];
  }

  /** Some unspoiled reset n ticks ahead is invoked although its deadline had not passed at selection. */
  ghost predicate FiresEarly(n: U32) {
    exists s, i, k, j, dl, at :: Reach(s) && EarlyIn(s.log, i, k, j, dl, n, at)
  }

  ghost predicate EarlyIn(log: seq<Event>, i: nat, k: int, j: int, dl: int, n: U32, at: int) {
    Invokes(log, i, k, j, dl, n, at) && !Spoiled(log[..i], log[i].c) && at <= dl
  }

  lemma {:induction false} EarlyOnlyIfFar(s: State, i: nat, k: int, j: int, dl: int, n: U32, at: int)
    requires Reach(s) && EarlyIn(s.log, i, k, j, dl, n, at)
    ensures n >= HALF
  {
    var s0, steps :| Init(s0) && CanExec(s0, steps) && Exec(s0, steps) == s;
    FireSafety(s0, steps, i);
    var k', j', dl', n': U32, at' :| Invokes(s.log, i, k', j', dl', n', at') && (dl' < at' <==> dl' - at' < HALF) &&
      (n' < HALF ==> dl' < at');
    OneInvoked(s.log, i, k, j, dl, n, at, k', j', dl', n', at');
  }

  /** The distances at which this can happen. */
  lemma {:induction false} EarlyIff(n: U32)
    ensures FiresEarly(n) <==> n >= HALF
  {
    if FiresEarly(n) {
      var s, i, k, j, dl, at :| Reach(s) && EarlyIn(s.log, i, k, j, dl, n, at);
      EarlyOnlyIfFar(s, i, k, j, dl, n, at);
    }
    if n >= HALF {
      var k := FarResetFiresEarly(0, 0, n);
      FarIsEarly(k.log, n);
      assert St(k).log == k.log;
    }
  }

  lemma {:induction false} FarIsEarly(log: seq<Event>, n: U32)
    requires log == [Stopped(C, 1), Arming(C, 1), Armed(C, Some(0), Some(0), n, n), Selected(C, 0), Committed(C),
      Fired(C, Some(0), Some(0), Held(WORKER, 1))]
    ensures EarlyIn(log, 5, 2, 3, n, n, 0)
  {
    LockedDrainsDoNotSpoil(log[..5], C);
    assert InForceTaken(log[..5], C, 2, 3, Some(0), Some(0), n, n, 0);
  }

  /** A run in which a reset lands between the selection and the callback: it is the reset in force, and
    the worker takes it off the list and will never invoke it. */
  lemma {:induction false} LateResetIsDropped(f: Func, a: Arg, g: Func, b: Arg) returns (k: Conf)
    ensures Reach(St(k)) && k.w == CbBody(C) && StatusOf(k.log, C) == Pending(Some(g), Some(b), 1, 0)
    ensures Decided(St(k), C) && Lost(ToTest(St(k), C), C)
  {
    k := LateReset(f, a, g, b);
    LastArmed(k.log, C);
    LockedDrainsDoNotSpoil(k.log, C);
    assert C in St(k).list;
    DropsIt(St(k), C);
  }

  lemma {:induction false} DropsIt(s: State, c: Cid)
    requires Reach(s) && s.w == CbBody(c) && c in s.list && !Spoiled(s.log, c) && StatusOf(s.log, c).Pending?
    ensures c in s.co && Decided(s, c) && Lost(ToTest(s, c), c)
  {
    var s0, steps :| Init(s0) && CanExec(s0, steps) && Exec(s0, steps) == s;
    DroppedIff(s0, steps, c);
  }

  lemma {:induction false} LastArmed(log: seq<Event>, c: Cid)
    requires log != [] && log[|log| - 1].Armed? && log[|log| - 1].c == c
    ensures var e := log[|log| - 1]; StatusOf(log, c) == Pending(e.f, e.a, e.deadline, e.ticks)
  {}

  lemma {:induction false} LateReset(f: Func, a: Arg, g: Func, b: Arg) returns (k: Conf)
    ensures Reach(St(k)) && k.w == CbBody(C) && k.linked && k.cancel
    ensures k.log == [Stopped(C, 1), Arming(C, 1), Armed(C, Some(f), Some(a), 0, 0), Selected(C, 1),
      Stopped(C, 1), Arming(C, 1), Armed(C, Some(g), Some(b), 1, 0)]
  {
    k := SelectedOnly(f, a);
    k := GoReset(k, 1, Some(g), Some(b), 0);
    k := GoStop(k, 1);
    k := GoArm(k);
    k := GoUnlock(k);
    k := GoBody(k);
    assert k.log == [Stopped(C, 1), Arming(C, 1), Armed(C, Some(f), Some(a), 0, 0), Selected(C, 1)] +
                    [Stopped(C, 1)] + [Arming(C, 1)] + [Armed(C, Some(g), Some(b), 1, 0)];
  }

  /** Client 1 made a reset and still has the mutex when the worker selects the callout. */
  lemma {:induction false} SelectedOnly(f: Func, a: Arg) returns (k: Conf)
    ensures Reach(St(k))
    ensures k == START.(f := Some(f), a := Some(a), linked := true, lock := Held(1, 1), curr := Some(C), now := 1,
      w := CbLock(C), log := [Stopped(C, 1), Arming(C, 1), Armed(C, Some(f), Some(a), 0, 0), Selected(C, 1)])
  {
    k := GoFirst(f, a, 0);
    k := GoTick(k);
    k := GoSelect(k);
    assert k.log == [Stopped(C, 1), Arming(C, 1), Armed(C, Some(f), Some(a), 0, 0)] + [Selected(C, 1)];
  }

  /** In k clients t and u are inside drains of the callout that can never return. */
  ghost predicate Wedged(k: Conf, t: Tid, u: Tid) {
    Reach(St(k)) && Drains(St(k), t, C) && Drains(St(k), u, C) && Hopeless(St(k), C) && !Returns(St(k), t) &&
      !Returns(St(k), u)
  }

  lemma {:induction false} WedgedThere(k: Conf, t: Tid, u: Tid)
    requires Reach(St(k)) && t <= 2 && u <= 2 && P(k, t).StopEnter? && P(k, t).c == C && P(k, t).k.Wait?
    requires P(k, u).StopEnter? && P(k, u).c == C && P(k, u).k.Wait? && k.curr == Some(C)
    requires if t == 0 then k.w == CbFunc(C)
             else (k.w == CbLock(C) || k.w == CbFunc(C)) && k.lock.Held? && k.lock.owner == t
    ensures Wedged(k, t, u)
  {
    SetPc(k, t, Idle);
    SetPc(k, u, Idle);
    assert t != WORKER ==> Holds(St(k), t, C);
    NoReturn(St(k), t, C);
    NoReturn(St(k), u, C);
  }

  lemma {:induction false} NoReturn(s: State, t: Tid, c: Cid)
    requires Reach(s) && Drains(s, t, c) && Hopeless(s, c)
    ensures !Returns(s, t)
  {
    var s0, steps :| Init(s0) && CanExec(s0, steps) && Exec(s0, steps) == s;
    ReturnsIff(s0, steps, t, c);
  }

  /** Client 1 drains with the mutex held after the selection: it waits for the worker, which waits for it.
    Client 2, which drains without the mutex, waits with it. */
  lemma {:induction false} LockedDrainWedges(f: Func, a: Arg) returns (k: Conf)
    ensures Wedged(k, 1, 2) && k.w == CbLock(C) && k.lock == Held(1, 1)
  {
    k := SelectedOnly(f, a);
    k := GoDrain(k, 1);
    k := GoDrain(k, 2);
    WedgedThere(k, 1, 2);
  }

  /** A callback drops its mutex for a while; client 1 takes it and drains.  The callback cannot get it back. */
  lemma {:induction false} BorrowedMutexWedges(f: Func, a: Arg) returns (k: Conf)
    ensures Wedged(k, 1, 2) && k.w == CbFunc(C) && k.lock == Held(1, 1)
  {
    k := GoFirst(f, a, 0);
    k := FireNow(k);
    k := GoGiveBack(k);
    k := GoLock(k);
    k := GoDrain(k, 1);
    k := GoDrain(k, 2);
    WedgedThere(k, 1, 2);
  }

  lemma {:induction false} GoGiveBack(k: Conf) returns (r: Conf)
    requires Reach(St(k)) && k.w == CbFunc(C) && k.p0.Idle? && k.lock == Held(WORKER, 1)
    ensures r == k.(lock := Free) && Reach(St(r))
  {
    r := k.(lock := Free);
    LockChanges(k, Free);
    SetPc(k, 0, Idle);
    ReachStep(St(k), Release(WORKER, M));
  }

  /** A callback drains its own callout: the worker waits for itself, and client 2 for the worker. */
  lemma {:induction false} OwnDrainWedges(f: Func, a: Arg) returns (k: Conf)
    ensures Wedged(k, WORKER, 2)
  {
    k := GoFirst(f, a, 0);
    k := FireNow(k);
    k := GoDrain(k, 0);
    k := GoDrain(k, 2);
    WedgedThere(k, 0, 2);
  }
}
