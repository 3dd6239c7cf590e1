/** When a callback is invoked: only for the reset in force, with the client mutex held, after
  selection, and not after a completed stop. */
module CalloutFire {
  import opened Basics
  import opened Ticks
  import opened Callouts
  import opened CalloutSafety
  import opened CalloutDrain
  import opened CalloutWatch

  /** The log entry at i is an invocation that the events before it justify. */
  ghost predicate FirePermitted(log: seq<Event>, i: nat)
    requires i < |log| && log[i].Fired?
  {
    var e := log[i];
    var st := StatusOf(log[..i], e.c);
    && e.lock.Held? && e.lock.owner == WORKER
    && (!Spoiled(log[..i], e.c) ==> st.Taken? && st.f == e.fn && st.a == e.fa && e.fn.Some? && Ripe(st))
  }

  /** The reset described by `st` is the one stored in the callout. */
  predicate Stored(o: Callout, st: Status) {
    !st.Off? && st.f == o.func && st.a == o.arg && Wrap(st.deadline) == o.timeout
  }

  /** The selected reset tested as expired, not before it was made. */
  predicate Ripe(st: Status)
    requires st.Taken?
  {
    Wrap(st.deadline - st.at) < 0 && st.deadline - st.ticks <= st.at
  }

  predicate Timely(st: Status, now: int) {
    !st.Off? ==> st.deadline - st.ticks <= now && (st.Taken? ==> Ripe(st))
  }

  /** Facts about an unspoiled callout.  As long as the worker has not unlinked it, it is cancelled
    exactly if the reset in force was made after the selection. */
  ghost predicate OneInv(s: State, c: Cid)
    requires c in s.co
  {
    OneAs(s, StatusOf(s.log, c), c)
  }

  predicate OneAs(s: State, st: Status, c: Cid)
    requires c in s.co
  {
    && (c in s.list ==>
          Stored(s.co[c], st) && (st.Taken? ==> PreUnlink(s.w, c)) &&
            (PreUnlink(s.w, c) ==> (s.cancel <==> st.Pending?)))
    && ((PreFire(s.w, c) && !s.cancel) || Commits(s.w, c) ==> Stored(s.co[c], st) && st.Taken?)
    && (s.w == CbFire(c) ==> s.co[c].func.Some?)
    && Timely(st, s.now)
  }

  /** Facts about one thread's call on an unspoiled callout. */
  ghost predicate CallInv(s: State, t: Tid) {
    var pc := PcOf(s, t);
    !pc.Idle? && pc.c in s.co && !Spoiled(s.log, pc.c) ==> CallFacts(s, pc)
  }

  ghost predicate CallFacts(s: State, pc: Pc)
    requires !pc.Idle? && pc.c in s.co
  {
    && (Cleared(pc) ==> pc.c !in s.list && (PreFire(s.w, pc.c) ==> s.cancel))
    && (pc.ArmArg? || pc.ArmTime? || pc.ArmEnter? || pc.ArmBody? ==> s.co[pc.c].func == pc.f)
    && (pc.ArmTime? || pc.ArmEnter? || pc.ArmBody? ==> s.co[pc.c].arg == pc.a)
    && (pc.ArmEnter? || pc.ArmBody? ==> s.co[pc.c].timeout == Wrap(pc.deadline) && pc.deadline - pc.ticks <= s.now)
  }

  ghost predicate FireInv(s: State) {
    && (forall c {:trigger OneInv(s, c)} :: c in s.co && !Spoiled(s.log, c) ==> OneInv(s, c))
    && (forall t :: CallInv(s, t))
    && (forall i {:trigger FirePermitted(s.log, i)} :: 0 <= i < |s.log| && s.log[i].Fired? ==> FirePermitted(s.log, i))
  }

  // ---------------------------------------------------------------- who can be at c together

  /** A stop in progress on an unspoiled callout meets neither a reset by another thread that has begun
    to store its values nor a committed callback. */
  lemma {:induction false} StopAlone(m: Overlap, s: State, t: Tid, u: Tid, c: Cid)
    requires ThreadInv(s, t) && ThreadInv(s, u) && ThreadInv(s, WORKER) && WorkerInv(s) && c in s.co
    requires Watches(m, s, t, c) && Watches(m, s, u, c)
    requires (m.committed <==> Commits(s.w, c)) && (m.draining == {} || (!m.resetting && !m.committed))
    requires (InStop(PcOf(s, t)) || InArm(PcOf(s, t))) && PcOf(s, t).c == c && t != u
    ensures !Commits(s.w, c) && !Resets(PcOf(s, u), c)
  {
    if !Undermines(s, t, c) { assert Holds(s, t, c); }
  }

  // ---------------------------------------------------------------- one callout, client statements

  lemma {:induction false} StopBodyOne(s: State, t: Tid, st: Status, c: Cid)
    requires ListInv(s) && WorkerInv(s) && ClientEnabled(s, t) && PcOf(s, t).StopBody? && c in s.co && OneAs(s, st, c)
    ensures c in StopStep(s, t).co && OneAs(StopStep(s, t), st, c)
  {}

  /** Writing a field of a callout that is off the list and that nobody will fire. */
  lemma {:induction false} FieldOne(s: State, t: Tid, st: Status, c: Cid)
    requires ClientEnabled(s, t) && c in s.co && OneAs(s, st, c)
    requires PcOf(s, t).StopFunc? || PcOf(s, t).ArmFunc? || PcOf(s, t).ArmArg? || PcOf(s, t).ArmTime?
    requires PcOf(s, t).c == c ==> !Commits(s.w, c) && CallFacts(s, PcOf(s, t))
    ensures c in ClientStep(s, t).co && OneAs(ClientStep(s, t), st, c)
  {}

  lemma {:induction false} StopArgOne(s: State, t: Tid, st: Status, c: Cid)
    requires ClientEnabled(s, t) && PcOf(s, t).StopArg? && c in s.co && OneAs(s, st, c)
    requires PcOf(s, t).c == c ==> !Commits(s.w, c) && CallFacts(s, PcOf(s, t))
    ensures c in ClientStep(s, t).co && OneAs(ClientStep(s, t), Observe(st, Stopped(PcOf(s, t).c, t), c), c)
  {}

  lemma {:induction false} ArmBodyOne(s: State, t: Tid, st: Status, c: Cid)
    requires ClientEnabled(s, t) && PcOf(s, t).ArmBody? && c in s.co && OneAs(s, st, c)
    requires PcOf(s, t).c == c ==> !Commits(s.w, c) && CallFacts(s, PcOf(s, t))
    ensures c in ClientStep(s, t).co && OneAs(ClientStep(s, t), Seen(st, Emits(s, Client(t)), c), c)
  {
    assert forall x :: x in ClientStep(s, t).list <==> x == PcOf(s, t).c || x in s.list;
  }

  /** The remaining statements touch neither fields nor list. */
  lemma {:induction false} QuietOne(s: State, t: Tid, st: Status, c: Cid)
    requires ClientEnabled(s, t) && c in s.co && OneAs(s, st, c)
    requires var pc := PcOf(s, t); pc.StopEnter? || pc.StopExit? || pc.ArmEnter? || pc.ArmExit? || InDrain(pc)
    ensures c in ClientStep(s, t).co && OneAs(ClientStep(s, t), st, c)
  {
    var s' := ClientStep(s, t);
    assert s' == s.(lk := s'.lk, pcs := s'.pcs, log := s'.log);
  }

  lemma {:induction false} ClientOne(s: State, t: Tid, st: Status, c: Cid)
    requires ListInv(s) && WorkerInv(s) && ClientEnabled(s, t) && c in s.co && OneAs(s, st, c)
    requires var pc := PcOf(s, t);
      (InStop(pc) || InArm(pc)) && pc.c == c ==> !Commits(s.w, c) && CallFacts(s, pc)
    ensures c in ClientStep(s, t).co && OneAs(ClientStep(s, t), Seen(st, Emits(s, Client(t)), c), c)
  {
    match PcOf(s, t)
    case StopBody(_, _) => StopBodyOne(s, t, st, c);
    case StopArg(_, _) => StopArgOne(s, t, st, c);
    case ArmBody(_, _, _, _, _) => ArmBodyOne(s, t, st, c);
    case _ => RestOne(s, t, st, c);
  }

  lemma {:induction false} RestOne(s: State, t: Tid, st: Status, c: Cid)
    requires ClientEnabled(s, t) && c in s.co && OneAs(s, st, c)
    requires var pc := PcOf(s, t); !pc.StopBody? && !pc.StopArg? && !pc.ArmBody?
    requires var pc := PcOf(s, t);
      (InStop(pc) || InArm(pc)) && pc.c == c ==> !Commits(s.w, c) && CallFacts(s, pc)
    ensures c in ClientStep(s, t).co && OneAs(ClientStep(s, t), Seen(st, Emits(s, Client(t)), c), c)
  {
    var pc := PcOf(s, t);
    assert Seen(st, Emits(s, Client(t)), c) == st;
    if pc.StopFunc? || pc.ArmFunc? || pc.ArmArg? || pc.ArmTime? { FieldOne(s, t, st, c); }
    else { QuietOne(s, t, st, c); }
  }

  // ---------------------------------------------------------------- one callout, the worker

  /** The scan stands at an expired callout. */
  predicate Selects(s: State)
    requires WorkEnabled(s)
  {
    s.w.Scan? && s.w.i < |s.list| && Wrap(s.co[s.list[s.w.i]].timeout - s.now) < 0
  }

  /** Selecting a callout makes the reset in force the taken one. */
  lemma {:induction false} ScanSelects(s: State, st: Status, c: Cid)
    requires WorkEnabled(s) && Selects(s) && c in s.co && OneAs(s, st, c)
    ensures c in ScanStep(s).co && OneAs(ScanStep(s), Observe(st, Selected(s.list[s.w.i], s.now), c), c)
  {
    if c == s.list[s.w.i] { WrapDifference(st.deadline, s.now); }
  }

  lemma {:induction false} ScanQuiet(s: State, st: Status, c: Cid)
    requires WorkEnabled(s) && Scanning(s.w) && !Selects(s) && c in s.co && OneAs(s, st, c)
    ensures c in ScanStep(s).co && OneAs(ScanStep(s), st, c)
  {
    var s' := ScanStep(s);
    assert s' == s.(lk := s'.lk, curr := s'.curr, w := s'.w) && !Busy(s'.w);
  }

  lemma {:induction false} CallbackThis(s: State, st: Status)
    requires WorkerInv(s) && ListInv(s) && WorkEnabled(s) && !Scanning(s.w)
    requires s.w.c in s.co && OneAs(s, st, s.w.c)
    ensures s.w.c in CallbackStep(s).co && OneAs(CallbackStep(s), Seen(st, Emits(s, Work), s.w.c), s.w.c)
  {
    if s.w.CbTest? || s.w.CbCall? || s.w.CbFire? { CommitThis(s, st); }
  }

  lemma {:induction false} CommitThis(s: State, st: Status)
    requires WorkEnabled(s) && (s.w.CbTest? || s.w.CbCall? || s.w.CbFire?) && s.w.c in s.co && OneAs(s, st, s.w.c)
    ensures s.w.c in CallbackStep(s).co && OneAs(CallbackStep(s), Seen(st, Emits(s, Work), s.w.c), s.w.c)
  {}

  lemma {:induction false} CallbackOther(s: State, st: Status, c: Cid)
    requires WorkerInv(s) && ListInv(s) && WorkEnabled(s) && !Scanning(s.w)
    requires c in s.co && c != s.w.c && OneAs(s, st, c)
    ensures c in CallbackStep(s).co && OneAs(CallbackStep(s), Seen(st, Emits(s, Work), c), c)
  {
    CallbackElsewhere(s, c);
    assert Seen(st, Emits(s, Work), c) == st;
  }

  /** The worker's statements on one callout leave the others alone. */
  lemma {:induction false} CallbackElsewhere(s: State, c: Cid)
    requires WorkerInv(s) && ListInv(s) && WorkEnabled(s) && !Scanning(s.w) && c in s.co && c != s.w.c
    ensures var s' := CallbackStep(s);
      && c in s'.co && s'.co[c] == s.co[c] && (c in s'.list <==> c in s.list) && s'.now == s.now && !About(s'.w, c)
      && (Emits(s, Work).Some? ==> Emits(s, Work).value.c != c)
  {
    CallbackFramed(s);
    CallbackFrame(s);
  }

  lemma {:induction false} WorkOne(s: State, st: Status, c: Cid)
    requires WorkerInv(s) && ListInv(s) && WorkEnabled(s) && c in s.co && OneAs(s, st, c)
    ensures c in WorkStep(s).co && OneAs(WorkStep(s), Seen(st, Emits(s, Work), c), c)
  {
    if Scanning(s.w) {
      if Selects(s) { ScanSelects(s, st, c); } else { ScanQuiet(s, st, c); }
    } else if c == s.w.c {
      CallbackThis(s, st);
    } else {
      CallbackOther(s, st, c);
    }
  }

  lemma {:induction false} OuterOne(s: State, step: Step, st: Status, c: Cid)
    requires Enabled(s, step) && !step.Client? && !step.Work? && c in s.co && OneAs(s, st, c)
    ensures c in Apply(s, step).co && OneAs(Apply(s, step), Seen(st, Emits(s, step), c), c)
  {}

  // ---------------------------------------------------------------- per thread

  /** The facts of t's own call, if it goes on, after one of its statements. */
  ghost predicate GoesOn(s': State, t: Tid, c: Cid) {
    c in s'.co && (!PcOf(s', t).Idle? ==> PcOf(s', t).c == c && CallFacts(s', PcOf(s', t)))
  }

  lemma {:induction false} StopCall(s: State, t: Tid)
    requires ThreadInv(s, t) && ListInv(s) && WorkerInv(s) && ClientEnabled(s, t) && InStop(PcOf(s, t))
    requires CallFacts(s, PcOf(s, t))
    ensures GoesOn(StopStep(s, t), t, PcOf(s, t).c)
  {}

  lemma {:induction false} ArmCall(s: State, t: Tid)
    requires ThreadInv(s, t) && ClientEnabled(s, t) && !InStop(PcOf(s, t)) && CallFacts(s, PcOf(s, t))
    ensures GoesOn(ClientStep(s, t), t, PcOf(s, t).c)
  {}

  /** A statement changes only the callout it names. */
  lemma {:induction false} OthersUntouched(s: State, t: Tid, c: Cid)
    requires ClientEnabled(s, t) && c in s.co
    requires PcOf(s, t).c != c || (!InStop(PcOf(s, t)) && !InArm(PcOf(s, t)))
    ensures var s' := ClientStep(s, t);
      c in s'.co && s'.co[c] == s.co[c] && (c in s'.list <==> c in s.list) && (s.cancel ==> s'.cancel)
  {}

  /** A stop never puts its callout on the list, nor does the first statement of a reset that follows it. */
  lemma {:induction false} StopUnlinks(s: State, t: Tid, c: Cid)
    requires ClientEnabled(s, t) && (InStop(PcOf(s, t)) || PcOf(s, t).ArmFunc?) && c in s.co
    ensures var s' := ClientStep(s, t); (c in s'.list ==> c in s.list) && (s.cancel ==> s'.cancel)
  {}

  /** Another client's statement does not disturb a call in progress. */
  lemma {:induction false} OtherCallClient(s: State, t: Tid, u: Tid)
    requires ClientEnabled(s, t) && u != t && ClientFramed(s, ClientStep(s, t), t)
    requires !PcOf(s, u).Idle? && PcOf(s, u).c in s.co && CallFacts(s, PcOf(s, u))
    requires var c := PcOf(s, u).c;
      PcOf(s, t).c == c && (InStop(PcOf(s, t)) || InArm(PcOf(s, t))) ==>
        !Resets(PcOf(s, u), c) && (Cleared(PcOf(s, u)) ==> !Resets(PcOf(s, t), c))
    ensures GoesOn(ClientStep(s, t), u, PcOf(s, u).c)
  {
    var c := PcOf(s, u).c;
    if PcOf(s, t).c == c && (InStop(PcOf(s, t)) || InArm(PcOf(s, t))) {
      if Cleared(PcOf(s, u)) { StopUnlinks(s, t, c); }
    } else {
      OthersUntouched(s, t, c);
    }
  }

  lemma {:induction false} OtherCallWork(s: State, u: Tid)
    requires WorkerInv(s) && WorkEnabled(s) && WorkFramed(s, WorkStep(s))
    requires !PcOf(s, u).Idle? && PcOf(s, u).c in s.co && CallFacts(s, PcOf(s, u))
    ensures GoesOn(WorkStep(s), u, PcOf(s, u).c)
  {
    if Cleared(PcOf(s, u)) { WorkPreFire(s, PcOf(s, u).c); }
  }

  lemma {:induction false} OuterCall(s: State, step: Step, u: Tid)
    requires Enabled(s, step) && !step.Client? && !step.Work?
    requires !PcOf(s, u).Idle? && PcOf(s, u).c in s.co && CallFacts(s, PcOf(s, u))
    ensures GoesOn(Apply(s, step), u, PcOf(s, u).c)
  {}

  // ---------------------------------------------------------------- recovery

  lemma {:induction false} CleanNote(m: Overlap, e: Event, c: Cid)
    ensures m.spoiled && !Watch(m, e, c).spoiled ==> e.Stopped? && e.c == c && m.draining == {}
  {}

  /** A callout is unspoiled after a step only if it was before, or a stop with the mutex just ended
    while no drain without it was under way. */
  lemma {:induction false} WasClean(s: State, step: Step, c: Cid)
    requires Enabled(s, step) && !Spoiled(Apply(s, step).log, c) && Spoiled(s.log, c)
    ensures step.Client? && PcOf(s, step.t).StopArg? && PcOf(s, step.t).c == c && WatchOf(s.log, c).draining == {}
  {
    WatchAfter(s, step, c);
    if Emits(s, step).Some? { CleanNote(WatchOf(s.log, c), Emits(s, step).value, c); }
  }

  lemma {:induction false} EndsLocked(s: State, t: Tid, c: Cid)
    requires ThreadInv(s, t) && ThreadInv(s, WORKER) && WorkerInv(s) && c in s.co && !Undermines(s, t, c)
    requires PcOf(s, t).StopArg? && PcOf(s, t).c == c
    ensures Holds(s, t, c) && c !in s.list && (PreFire(s.w, c) ==> s.cancel) && !Commits(s.w, c)
  {}

  lemma {:induction false} RecoverOne(s: State, t: Tid, st: Status, c: Cid)
    requires ClientEnabled(s, t) && c in s.co && PcOf(s, t).StopArg? && PcOf(s, t).c == c
    requires c !in s.list && (PreFire(s.w, c) ==> s.cancel) && !Commits(s.w, c)
    ensures c in ClientStep(s, t).co && OneAs(ClientStep(s, t), Observe(st, Stopped(c, t), c), c)
  {}

  lemma {:induction false} RecoverCall(s: State, t: Tid, u: Tid, c: Cid)
    requires ThreadInv(s, t) && ThreadInv(s, u) && ClientEnabled(s, t) && c in s.co && !Undermines(s, u, c)
    requires !PcOf(s, u).Idle? && PcOf(s, u).c == c && PcOf(s, t).StopArg? && PcOf(s, t).c == c && Holds(s, t, c)
    requires c !in s.list && (PreFire(s.w, c) ==> s.cancel)
    ensures GoesOn(ClientStep(s, t), u, c)
  {
    if u != t { assert !Cleared(PcOf(s, u)); }
  }

  // ---------------------------------------------------------------- the invariant is kept

  /** What the watch on an unspoiled callout tells about a thread at it. */
  lemma {:induction false} Alone(s: State, t: Tid, u: Tid, c: Cid)
    requires BaseInv(s) && WatchInv(s) && c in s.co && !Spoiled(s.log, c) && t != u
    requires (InStop(PcOf(s, t)) || InArm(PcOf(s, t))) && PcOf(s, t).c == c
    ensures !Commits(s.w, c) && !Resets(PcOf(s, u), c)
  {
    assert ThreadInv(s, t) && ThreadInv(s, u) && ThreadInv(s, WORKER);
    assert Watched(s, t, c) && Watched(s, u, c);
    WatchClosed(s.log, c);
    StopAlone(WatchOf(s.log, c), s, t, u, c);
  }

  lemma {:induction false} CleanOne(s: State, step: Step, c: Cid)
    requires BaseInv(s) && WatchInv(s) && FireInv(s) && Enabled(s, step) && c in s.co && !Spoiled(s.log, c)
    ensures c in Apply(s, step).co && OneAs(Apply(s, step), Seen(StatusOf(s.log, c), Emits(s, step), c), c)
  {
    var st := StatusOf(s.log, c);
    assert OneInv(s, c);
    match step
    case Client(t) =>
      assert CallInv(s, t);
      if (InStop(PcOf(s, t)) || InArm(PcOf(s, t))) && PcOf(s, t).c == c { Alone(s, t, t + 1, c); }
      ClientOne(s, t, st, c);
    case Work => WorkOne(s, st, c);
    case _ => OuterOne(s, step, st, c);
  }

  lemma {:induction false} StepKeepsOne(s: State, step: Step, c: Cid)
    requires BaseInv(s) && WatchInv(s) && FireInv(s) && Enabled(s, step)
    requires c in s.co && !Spoiled(Apply(s, step).log, c)
    ensures c in Apply(s, step).co && OneInv(Apply(s, step), c)
  {
    StatusAfter(s, step, c);
    if Spoiled(s.log, c) {
      WasClean(s, step, c);
      assert ThreadInv(s, step.t) && ThreadInv(s, WORKER) && Watched(s, step.t, c);
      EndsLocked(s, step.t, c);
      RecoverOne(s, step.t, StatusOf(s.log, c), c);
    } else {
      CleanOne(s, step, c);
    }
  }

  lemma {:induction false} CleanCall(s: State, step: Step, u: Tid)
    requires BaseInv(s) && WatchInv(s) && Enabled(s, step)
    requires !PcOf(s, u).Idle? && PcOf(s, u).c in s.co && CallFacts(s, PcOf(s, u)) && !Spoiled(s.log, PcOf(s, u).c)
    ensures GoesOn(Apply(s, step), u, PcOf(s, u).c)
  {
    var c := PcOf(s, u).c;
    assert ThreadInv(s, u);
    match step
    case Client(t) =>
      ClientFrame(s, t);
      if t == u {
        if InStop(PcOf(s, t)) { StopCall(s, t); } else { ArmCall(s, t); }
      } else {
        if PcOf(s, t).c == c && (InStop(PcOf(s, t)) || InArm(PcOf(s, t))) {
          Alone(s, t, u, c);
          if Cleared(PcOf(s, u)) { Alone(s, u, t, c); }
        }
        OtherCallClient(s, t, u);
      }
    case Work =>
      WorkFrame(s);
      OtherCallWork(s, u);
    case _ => OuterCall(s, step, u);
  }

  lemma {:induction false} StepKeepsCall(s: State, step: Step, u: Tid)
    requires BaseInv(s) && WatchInv(s) && CallInv(s, u) && Enabled(s, step)
    ensures CallInv(Apply(s, step), u)
  {
    var pc := PcOf(s, u);
    assert ThreadInv(s, u);
    if pc.Idle? {
      NewCall(s, step, u);
    } else if !Spoiled(s.log, pc.c) {
      CleanCall(s, step, u);
    } else {
      SpoiledCall(s, step, u);
    }
  }

  /** A thread between calls has nothing to keep, and a call begins with no claim. */
  lemma {:induction false} NewCall(s: State, step: Step, u: Tid)
    requires BaseInv(s) && Enabled(s, step) && PcOf(s, u).Idle?
    ensures CallInv(Apply(s, step), u)
  {
    if (step.CallStop? || step.CallReset? || step.CallDrain?) && step.t == u {
      assert PcOf(Apply(s, step), u).StopEnter?;
    } else if step.Client? && step.t == u {
      assert false;
    } else {
      PcKept(s, step, u);
    }
  }

  lemma {:induction false} SpoiledCall(s: State, step: Step, u: Tid)
    requires BaseInv(s) && WatchInv(s) && Enabled(s, step) && !PcOf(s, u).Idle? && Spoiled(s.log, PcOf(s, u).c)
    ensures CallInv(Apply(s, step), u)
  {
    var c := PcOf(s, u).c;
    assert ThreadInv(s, u);
    if !Spoiled(Apply(s, step).log, c) {
      WasClean(s, step, c);
      assert ThreadInv(s, step.t) && ThreadInv(s, WORKER) && Watched(s, step.t, c) && Watched(s, u, c);
      EndsLocked(s, step.t, c);
      RecoverCall(s, step.t, u, c);
    } else {
      SameTarget(s, step, u);
    }
  }

  lemma {:induction false} SameTarget(s: State, step: Step, u: Tid)
    requires Enabled(s, step) && !PcOf(s, u).Idle?
    ensures var pc' := PcOf(Apply(s, step), u); pc'.Idle? || pc'.c == PcOf(s, u).c
  {
    if !(step.Client? && step.t == u) { PcKept(s, step, u); }
  }

  lemma {:induction false} FiresKept(s: State, step: Step, i: nat)
    requires BaseInv(s) && FireInv(s) && Enabled(s, step)
    requires i < |Apply(s, step).log| && Apply(s, step).log[i].Fired?
    ensures FirePermitted(Apply(s, step).log, i)
  {
    var s' := Apply(s, step);
    LogGrows(s, step);
    if i < |s.log| {
      assert s'.log[i] == s.log[i] && s'.log[..i] == s.log[..i];
      assert FirePermitted(s.log, i);
    } else {
      assert s'.log[..i] == s.log;
      var c := s.w.c;
      assert s.w == CbFire(c) && OwnsMtx(s.w) && About(s.w, c);
      assert !Spoiled(s.log, c) ==> OneInv(s, c);
    }
  }

  lemma {:induction false} StepKeepsFire(s: State, step: Step)
    requires BaseInv(s) && WatchInv(s) && FireInv(s) && Enabled(s, step)
    ensures FireInv(Apply(s, step))
  {
    var s' := Apply(s, step);
    SameCallouts(s, step);
    forall c | c in s'.co && !Spoiled(s'.log, c) ensures OneInv(s', c) { StepKeepsOne(s, step, c); }
    forall u ensures CallInv(s', u) {
      assert CallInv(s, u);
      StepKeepsCall(s, step, u);
    }
    forall i | 0 <= i < |s'.log| && s'.log[i].Fired? ensures FirePermitted(s'.log, i) { FiresKept(s, step, i); }
  }
}
