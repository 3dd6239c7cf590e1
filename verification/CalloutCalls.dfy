/** What the calls usb_callout_stop, usb_callout_reset and usb_callout_drain do, from the call to the return. */
module CalloutCalls {
  import opened Basics
  import opened Ticks
  import opened Callouts
  import opened CalloutSafety
  import opened CalloutDrain
  import opened CalloutWatch
  import opened CalloutFire
  import opened CalloutTheorems
  import opened CalloutWorker

  // ---------------------------------------------------------------- the events of a call

  predicate IsCall(step: Step) {
    step.CallStop? || step.CallReset? || step.CallDrain?
  }

  /** The events that the statements of t log in a run. */
  function Acts(s: State, steps: seq<Step>, t: Tid): seq<Event>
    requires CanExec(s, steps)
    decreases |steps|
  {
    if steps == [] then []
    else OwnEvent(s, steps[0], t) + Acts(Apply(s, steps[0]), steps[1..], t)
  }

  function OwnEvent(s: State, step: Step, t: Tid): seq<Event>
    requires Enabled(s, step)
  {
    var e := Emits(s, step);
    if step == Client(t) && e.Some? then [e.value] else []
  }

  /** What a call that was made at time `start` and has returned by `now` has logged. */
  predicate Done(call: Step, acts: seq<Event>, start: int, now: int)
    requires IsCall(call)
  {
    match call
    case CallStop(t, c) => acts == [Stopped(c, t)]
    case CallReset(t, c, f, a, n) =>
      && |acts| == 3 && acts[0] == Stopped(c, t) && acts[1] == Arming(c, t)
      && acts[2].Armed? && acts[2] == Armed(c, f, a, acts[2].deadline, n) && start <= acts[2].deadline - n <= now
    case CallDrain(t, c) =>
      |acts| == 2 && acts[0] == Stopped(c, t) && acts[1].DrainDone? && acts[1].c == c && acts[1].t == t
  }

  /** The stop goes on as the call demands. */
  predicate GoesOnWith(k: After, call: Step)
    requires IsCall(call)
  {
    match call
    case CallStop(_, _) => k.Return?
    case CallReset(_, _, f, a, n) => k == Rearm(f, a, n)
    case CallDrain(_, _) => k.Wait?
  }

  /** t is inside the call, or has returned from it, having logged `acts`. */
  predicate InCall(s: State, call: Step, acts: seq<Event>, start: int)
    requires IsCall(call)
  {
    var t, c := call.t, call.c;
    match PcOf(s, t)
    case Idle => Done(call, acts, start, s.now)
    case ArmFunc(x, f, a, n) => call == CallReset(t, x, f, a, n) && acts == [Stopped(c, t)] && start <= s.now
    case ArmArg(x, f, a, n) =>
      call == CallReset(t, x, f, a, n) && acts == [Stopped(c, t), Arming(c, t)] && start <= s.now
    case ArmTime(x, f, a, n) =>
      call == CallReset(t, x, f, a, n) && acts == [Stopped(c, t), Arming(c, t)] && start <= s.now
    case ArmEnter(x, f, a, n, dl) =>
      call == CallReset(t, x, f, a, n) && acts == [Stopped(c, t), Arming(c, t)] && start <= dl - n <= s.now
    case ArmBody(x, f, a, n, dl) =>
      call == CallReset(t, x, f, a, n) && acts == [Stopped(c, t), Arming(c, t)] && start <= dl - n <= s.now
    case ArmExit(x) => x == c && call.CallReset? && Done(call, acts, start, s.now)
    case DrainEnter(x, _) => x == c && call.CallDrain? && acts == [Stopped(c, t)]
    case DrainTest(x, _) => x == c && call.CallDrain? && acts == [Stopped(c, t)]
    case DrainSleep(x, _) => x == c && call.CallDrain? && acts == [Stopped(c, t)]
    case DrainExit(x, _) => x == c && call.CallDrain? && acts == [Stopped(c, t)]
    case _ => PcOf(s, t).c == c && GoesOnWith(PcOf(s, t).k, call) && acts == [] && start <= s.now
  }

  lemma {:induction false} OwnMove(s: State, call: Step, acts: seq<Event>, start: int)
    requires IsCall(call) && ClientEnabled(s, call.t) && InCall(s, call, acts, start)
    ensures InCall(ClientStep(s, call.t), call, acts + OwnEvent(s, Client(call.t), call.t), start)
  {
    var t := call.t;
    assert acts + [] == acts;
    if InStop(PcOf(s, t)) { StopMove(s, call, acts, start); }
    else if InDrain(PcOf(s, t)) { DrainMove(s, call, acts, start); }
    else { ArmMove(s, call, acts, start); }
  }

  lemma {:induction false} StopMove(s: State, call: Step, acts: seq<Event>, start: int)
    requires IsCall(call) && ClientEnabled(s, call.t) && InStop(PcOf(s, call.t)) && InCall(s, call, acts, start)
    ensures InCall(StopStep(s, call.t), call, acts + OwnEvent(s, Client(call.t), call.t), start)
  {
    assert acts + [] == acts;
    StopFrame(s, call.t);
  }

  lemma {:induction false} DrainMove(s: State, call: Step, acts: seq<Event>, start: int)
    requires IsCall(call) && ClientEnabled(s, call.t) && InDrain(PcOf(s, call.t)) && InCall(s, call, acts, start)
    ensures InCall(DrainStep(s, call.t), call, acts + OwnEvent(s, Client(call.t), call.t), start)
  {
    assert acts + [] == acts;
  }

  lemma {:induction false} ArmMove(s: State, call: Step, acts: seq<Event>, start: int)
    requires IsCall(call) && ClientEnabled(s, call.t) && InCall(s, call, acts, start)
    requires !InStop(PcOf(s, call.t)) && !InDrain(PcOf(s, call.t))
    ensures InCall(ArmStep(s, call.t), call, acts + OwnEvent(s, Client(call.t), call.t), start)
  {
    assert acts + [] == acts;
    ArmFrame(s, call.t);
  }

  /** Any other step leaves the call where it is; time may pass. */
  lemma {:induction false} OtherMove(s: State, step: Step, call: Step, acts: seq<Event>, start: int)
    requires IsCall(call) && Enabled(s, step) && InCall(s, call, acts, start) && step != Client(call.t)
    requires !(IsCall(step) && step.t == call.t)
    ensures InCall(Apply(s, step), call, acts, start)
  {
    PcKept(s, step, call.t);
    TimePasses(s, step);
  }

  lemma {:induction false} TimePasses(s: State, step: Step)
    requires Enabled(s, step)
    ensures s.now <= Apply(s, step).now
  {
    match step
    case Client(t) => ClientFrame(s, t);
    case Work => WorkFrame(s);
    case _ =>
  }

  predicate NoCall(steps: seq<Step>, t: Tid) {
    forall i :: 0 <= i < |steps| ==> !(IsCall(steps[i]) && steps[i].t == t)
  }

  lemma {:induction false} Rejoin(a: seq<Event>, b: seq<Event>, c: seq<Event>)
    ensures a + b + c == a + (b + c)
  {}

  lemma {:induction false} CallGoesOn(s: State, steps: seq<Step>, call: Step, acts: seq<Event>, start: int)
    requires IsCall(call) && CanExec(s, steps) && NoCall(steps, call.t) && InCall(s, call, acts, start)
    ensures InCall(Exec(s, steps), call, acts + Acts(s, steps, call.t), start)
    decreases |steps|
  {
    if steps == [] {
      assert acts + [] == acts;
    } else {
      var more := OwnEvent(s, steps[0], call.t);
      assert acts + [] == acts && !(IsCall(steps[0]) && steps[0].t == call.t);
      if steps[0] == Client(call.t) { OwnMove(s, call, acts, start); }
      else { OtherMove(s, steps[0], call, acts, start); }
      assert NoCall(steps[1..], call.t);
      CallGoesOn(Apply(s, steps[0]), steps[1..], call, acts + more, start);
      Rejoin(acts, more, Acts(Apply(s, steps[0]), steps[1..], call.t));
    }
  }

  /** The call is made after `before`, and `after` follows without another call of the same thread. */
  ghost predicate Calling(s: State, before: seq<Step>, call: Step, after: seq<Step>) {
    && IsCall(call) && Init(s) && CanExec(s, before) && Enabled(Exec(s, before), call)
    && CanExec(Apply(Exec(s, before), call), after) && NoCall(after, call.t)
  }

  lemma {:induction false} CallIsInside(s: State, before: seq<Step>, call: Step, after: seq<Step>)
    requires Calling(s, before, call, after)
    ensures var r := Apply(Exec(s, before), call);
      InCall(Exec(r, after), call, Acts(r, after, call.t), Exec(s, before).now)
  {
    var r := Apply(Exec(s, before), call);
    assert InCall(r, call, [], Exec(s, before).now);
    CallGoesOn(r, after, call, [], Exec(s, before).now);
    assert [] + Acts(r, after, call.t) == Acts(r, after, call.t);
  }

  /** In every run, when a call has returned its thread has logged: for stop, that the callout was stopped; for
    reset, that it was stopped, is being stored, and was armed with the function, the argument and the distance
    given, counted from a time during the call; for drain, that it was stopped and that the drain is over. */
  lemma {:induction false} CallReturns(s: State, before: seq<Step>, call: Step, after: seq<Step>)
    requires Calling(s, before, call, after)
    requires PcOf(Exec(Apply(Exec(s, before), call), after), call.t).Idle?
    ensures var r := Exec(s, before); var r' := Apply(r, call);
      Done(call, Acts(r', after, call.t), r.now, Exec(r', after).now)
  {
    CallIsInside(s, before, call, after);
  }

  /** The callout of an Armed event was reset by a call with that function, argument and distance. */
  ghost predicate Ordered(calls: seq<Step>, c: Cid, f: Option<Func>, a: Option<Arg>, n: U32) {
    exists t: Tid :: CallReset(t, c, f, a, n) in calls
  }

  ghost predicate FromCalls(s: State, calls: seq<Step>) {
    && (forall t {:trigger PcOf(s, t)} :: FromCall(PcOf(s, t), t, calls))
    && (forall j :: 0 <= j < |s.log| && s.log[j].Armed? ==>
          Ordered(calls, s.log[j].c, s.log[j].f, s.log[j].a, s.log[j].ticks))
  }

  predicate FromCall(pc: Pc, t: Tid, calls: seq<Step>) {
    && (InStop(pc) && pc.k.Rearm? ==> CallReset(t, pc.c, pc.k.f, pc.k.a, pc.k.ticks) in calls)
    && (InArm(pc) ==> CallReset(t, pc.c, pc.f, pc.a, pc.ticks) in calls)
  }

  lemma {:induction false} OwnFrom(s: State, t: Tid, calls: seq<Step>)
    requires ClientEnabled(s, t) && FromCall(PcOf(s, t), t, calls)
    ensures FromCall(PcOf(ClientStep(s, t), t), t, calls)
  {}

  lemma {:induction false} EventFrom(s: State, step: Step, calls: seq<Step>)
    requires Enabled(s, step) && FromCalls(s, calls)
    ensures var e := Emits(s, step);
      e.Some? && e.value.Armed? ==> Ordered(calls, e.value.c, e.value.f, e.value.a, e.value.ticks)
  {
    if step.Client? && PcOf(s, step.t).ArmBody? {
      var pc := PcOf(s, step.t);
      assert FromCall(pc, step.t, calls);
      assert CallReset(step.t, pc.c, pc.f, pc.a, pc.ticks) in calls;
    }
  }

  lemma {:induction false} StepFrom(s: State, step: Step, calls: seq<Step>)
    requires Enabled(s, step) && FromCalls(s, calls)
    ensures FromCalls(Apply(s, step), calls + [step])
  {
    var s', more := Apply(s, step), calls + [step];
    LogGrows(s, step);
    EventFrom(s, step, calls);
    forall t ensures FromCall(PcOf(s', t), t, more) {
      assert FromCall(PcOf(s, t), t, calls);
      if step == Client(t) { OwnFrom(s, t, calls); }
      else if !(IsCall(step) && step.t == t) { PcKept(s, step, t); }
    }
    forall j | 0 <= j < |s'.log| && s'.log[j].Armed?
      ensures Ordered(more, s'.log[j].c, s'.log[j].f, s'.log[j].a, s'.log[j].ticks)
    {
      var e := s'.log[j];
      assert j < |s.log| ==> s.log[j] == e;
      assert Ordered(calls, e.c, e.f, e.a, e.ticks);
      var t: Tid :| CallReset(t, e.c, e.f, e.a, e.ticks) in calls;
      assert CallReset(t, e.c, e.f, e.a, e.ticks) in more;
    }
  }

  lemma {:induction false} RunFrom(s: State, done: seq<Step>, steps: seq<Step>)
    requires CanExec(s, steps) && FromCalls(s, done)
    ensures FromCalls(Exec(s, steps), done + steps)
    decreases |steps|
  {
    if steps == [] {
      assert done + [] == done;
    } else {
      StepFrom(s, steps[0], done);
      RunFrom(Apply(s, steps[0]), done + [steps[0]], steps[1..]);
      assert done + [steps[0]] + steps[1..] == done + steps;
    }
  }

  /** In every run, whatever is armed was ordered by a call of usb_callout_reset with that function, argument
    and distance. */
  lemma {:induction false} ArmedWasOrdered(s: State, steps: seq<Step>, j: nat)
    requires Init(s) && CanExec(s, steps) && j < |Exec(s, steps).log| && Exec(s, steps).log[j].Armed?
    ensures var e := Exec(s, steps).log[j]; Ordered(steps, e.c, e.f, e.a, e.ticks)
  {
    assert FromCalls(s, []);
    RunFrom(s, [], steps);
    assert [] + steps == steps;
  }

  // ---------------------------------------------------------------- what stop leaves behind

  /** A thread that has the mutex and has cleared c->func finds it cleared. */
  ghost predicate Wiped(s: State, t: Tid) {
    var pc := PcOf(s, t);
    pc.StopArg? && pc.c in s.co && Holds(s, t, pc.c) ==> s.co[pc.c].func.None?
  }

  lemma {:induction false} FuncWritten(s: State, step: Step, c: Cid)
    requires Enabled(s, step) && c in s.co && s.co[c].func.None? && c in Apply(s, step).co
    ensures Apply(s, step).co[c].func.Some? ==> step.Client? && PcOf(s, step.t).ArmFunc? && PcOf(s, step.t).c == c
  {
    match step
    case Client(t) => ClientFuncWritten(s, t, c);
    case Work =>
      WorkFrame(s);
      assert WorkStep(s).co[c].(linked := s.co[c].linked) == s.co[c];
    case _ =>
  }

  lemma {:induction false} ClientFuncWritten(s: State, t: Tid, c: Cid)
    requires ClientEnabled(s, t) && c in s.co && s.co[c].func.None? && c in ClientStep(s, t).co
    ensures ClientStep(s, t).co[c].func.Some? ==> PcOf(s, t).ArmFunc? && PcOf(s, t).c == c
  {}

  lemma {:induction false} StepKeepsWiped(s: State, step: Step, t: Tid)
    requires BaseInv(s) && Enabled(s, step) && Wiped(s, t)
    ensures Wiped(Apply(s, step), t)
  {
    var s' := Apply(s, step);
    assert ThreadInv(s, t);
    if step == Client(t) {
      OwnWiped(s, t);
    } else if !(IsCall(step) && step.t == t) {
      PcKept(s, step, t);
      var pc := PcOf(s, t);
      if pc.StopArg? && pc.c in s'.co && Holds(s', t, pc.c) {
        HoldsKept(s, step, t, pc.c);
        FuncWritten(s, step, pc.c);
        if step.Client? { assert ThreadInv(s, step.t); }
      }
    }
  }

  lemma {:induction false} OwnWiped(s: State, t: Tid)
    requires ClientEnabled(s, t)
    ensures Wiped(ClientStep(s, t), t)
  {}

  ghost predicate AllWiped(s: State) {
    forall t :: Wiped(s, t)
  }

  lemma {:induction false} ExecWiped(s: State, steps: seq<Step>)
    requires BaseInv(s) && AllWiped(s) && CanExec(s, steps)
    ensures AllWiped(Exec(s, steps))
    decreases |steps|
  {
    if steps != [] {
      forall t ensures Wiped(Apply(s, steps[0]), t) { StepKeepsWiped(s, steps[0], t); }
      StepKeepsBase(s, steps[0]);
      ExecWiped(Apply(s, steps[0]), steps[1..]);
    }
  }

  /** In every run, at the moment at which a stop or the stop inside a reset is over: the callout is not on the list,
    has neither function nor argument, and cannot be invoked before it is armed again. */
  lemma {:induction false} StopLeaves(s: State, steps: seq<Step>, t: Tid)
    requires Init(s) && CanExec(s, steps) && Enabled(Exec(s, steps), Client(t))
    requires PcOf(Exec(s, steps), t).StopArg? && !PcOf(Exec(s, steps), t).k.Wait?
    ensures var r := Exec(s, steps); var r', c := Apply(r, Client(t)), PcOf(r, t).c;
      && c in r'.co && !r'.co[c].linked && c !in r'.list && r'.co[c].func.None? && r'.co[c].arg.None?
      && r'.log == r.log + [Stopped(c, t)] && ProperStop(r'.log, |r.log|) && Lost(r', c)
  {
    InitInv(s);
    ExecInv(s, steps);
    ExecWiped(s, steps);
    var r := Exec(s, steps);
    assert ThreadInv(r, t) && ThreadInv(r, WORKER) && Wiped(r, t);
    EndsLocked(r, t, PcOf(r, t).c);
    assert Watched(r, t, PcOf(r, t).c);
    assert (r.log + [Stopped(PcOf(r, t).c, t)])[..|r.log|] == r.log;
  }

  // ---------------------------------------------------------------- a stop is final

  /** log[p] ends a stop that was made with the mutex held: of usb_callout_stop, of a reset, or of a drain that
    holds the mutex. */
  ghost predicate ProperStop(log: seq<Event>, p: nat) {
    p < |log| && log[p].Stopped? && log[p].t !in WatchOf(log[..p], log[p].c).draining
  }

  /** Nothing is invoked between a proper stop and the next arming. */
  ghost predicate StopsHold(log: seq<Event>) {
    forall p: nat, i: nat :: ProperStop(log, p) && p < i < |log| && log[i].Fired? && log[i].c == log[p].c ==>
      !NoArmSince(log[..i], p, log[p].c)
  }

  ghost predicate SettledAt(s: State, p: nat)
    requires p < |s.log|
  {
    var c := s.log[p].c;
    c in s.co && (NoArmSince(s.log, p, c) ==> Lost(s, c))
  }

  ghost predicate StopInv(s: State) {
    && StopsHold(s.log)
    && (forall p {:trigger ProperStop(s.log, p)} :: ProperStop(s.log, p) ==> SettledAt(s, p))
  }

  lemma {:induction false} SamePrefix(log: seq<Event>, e: Option<Event>, p: nat)
    requires p < |log|
    ensures Grown(log, e)[..p] == log[..p] && Grown(log, e)[p] == log[p]
    ensures ProperStop(Grown(log, e), p) <==> ProperStop(log, p)
    ensures forall c :: NoArmSince(Grown(log, e), p, c) ==> NoArmSince(log, p, c)
  {
    forall c | NoArmSince(Grown(log, e), p, c) ensures NoArmSince(log, p, c) {
      forall i | p <= i < |log| ensures !(log[i].Armed? && log[i].c == c) { assert Grown(log, e)[i] == log[i]; }
    }
  }

  lemma {:induction false} OldStops(s: State, step: Step, p: nat)
    requires BaseInv(s) && StopInv(s) && Enabled(s, step) && p < |s.log| && ProperStop(Apply(s, step).log, p)
    ensures SettledAt(Apply(s, step), p)
  {
    var s', e := Apply(s, step), Emits(s, step);
    LogGrows(s, step);
    SamePrefix(s.log, e, p);
    SameCallouts(s, step);
    assert SettledAt(s, p);
    var c := s.log[p].c;
    if NoArmSince(s'.log, p, c) {
      LostStep(s, step, c);
      if e.Some? { assert s'.log[|s.log|] == e.value; }
    }
  }

  lemma {:induction false} NewStop(s: State, step: Step)
    requires Inv(s) && Enabled(s, step) && Emits(s, step).Some? && Emits(s, step).value.Stopped?
    requires Emits(s, step).value.t !in WatchOf(s.log, Emits(s, step).value.c).draining
    ensures var c := Emits(s, step).value.c; c in Apply(s, step).co && Lost(Apply(s, step), c)
  {
    var t, c := step.t, PcOf(s, step.t).c;
    assert ThreadInv(s, t) && ThreadInv(s, WORKER);
    assert Watched(s, t, c);
    EndsLocked(s, t, c);
  }

  lemma {:induction false} FiredLate(s: State, step: Step, p: nat)
    requires BaseInv(s) && StopInv(s) && Enabled(s, step) && ProperStop(s.log, p)
    requires Emits(s, step).Some? && Emits(s, step).value.Fired? && Emits(s, step).value.c == s.log[p].c
    ensures !NoArmSince(s.log, p, s.log[p].c)
  {
    assert SettledAt(s, p);
    if Lost(s, s.log[p].c) { LostStep(s, step, s.log[p].c); }
  }

  lemma {:induction false} StepKeepsStops(s: State, step: Step)
    requires Inv(s) && StopInv(s) && Enabled(s, step)
    ensures StopInv(Apply(s, step))
  {
    var s', e := Apply(s, step), Emits(s, step);
    LogGrows(s, step);
    forall p: nat | ProperStop(s'.log, p) ensures SettledAt(s', p) {
      if p < |s.log| {
        OldStops(s, step, p);
      } else {
        assert s'.log[..p] == s.log && e == Some(s'.log[p]);
        NewStop(s, step);
      }
    }
    forall p: nat, i: nat | ProperStop(s'.log, p) && p < i < |s'.log| && s'.log[i].Fired? && s'.log[i].c == s'.log[p].c
      ensures !NoArmSince(s'.log[..i], p, s'.log[p].c)
    {
      SamePrefix(s.log, e, p);
      if i < |s.log| {
        assert s'.log[..i] == s.log[..i] && s'.log[i] == s.log[i];
      } else {
        assert s'.log[..i] == s.log && e == Some(s'.log[i]);
        FiredLate(s, step, p);
      }
    }
  }

  lemma {:induction false} ExecStops(s: State, steps: seq<Step>)
    requires Inv(s) && StopInv(s) && CanExec(s, steps)
    ensures StopInv(Exec(s, steps))
    decreases |steps|
  {
    if steps != [] {
      StepKeepsStops(s, steps[0]);
      OneStep(s, steps);
      ExecInv(s, steps[..1]);
      ExecStops(Apply(s, steps[0]), steps[1..]);
    }
  }

  /** In every run, after a stop that was made with the mutex held, nothing of that callout is invoked until it has
    been armed again. */
  lemma {:induction false} StopIsFinal(s: State, steps: seq<Step>, p: nat, i: nat)
    requires Init(s) && CanExec(s, steps)
    requires var log := Exec(s, steps).log;
      ProperStop(log, p) && p < i < |log| && log[i].Fired? && log[i].c == log[p].c
    ensures var log := Exec(s, steps).log; exists m :: p < m < i && log[m].Armed? && log[m].c == log[p].c
  {
    InitInv(s);
    ExecStops(s, steps);
    var log := Exec(s, steps).log;
    assert !NoArmSince(log[..i], p, log[p].c);
    var m :| p <= m < i && log[..i][m].Armed? && log[..i][m].c == log[p].c;
    assert log[m] == log[..i][m];
  }

  // ---------------------------------------------------------------- what reset leaves behind

  /** In every run, at the moment at which a reset links the callout: unless a drain without the mutex got in between,
    the callout is on the list with the function and the argument given to the call, and its timeout is the
    distance given, counted from a time during the call. */
  lemma {:induction false} ResetLinks(s: State, before: seq<Step>, t: Tid, c: Cid, f: Option<Func>, a: Option<Arg>,
      n: U32, after: seq<Step>)
    requires Calling(s, before, CallReset(t, c, f, a, n), after)
    requires var e := Exec(Apply(Exec(s, before), CallReset(t, c, f, a, n)), after);
      PcOf(e, t).ArmBody? && Enabled(e, Client(t)) && !Spoiled(e.log, c)
    ensures var r := Exec(s, before); var e := Exec(Apply(r, CallReset(t, c, f, a, n)), after);
      var e' := Apply(e, Client(t)); var dl := PcOf(e, t).deadline;
      && r.now <= dl - n <= e.now && e'.log == e.log + [Armed(c, f, a, dl, n)]
      && e'.list == [c] + e.list && c !in e.list && c in e'.co && e'.co[c].linked
      && e'.co[c].func == f && e'.co[c].arg == a && e'.co[c].timeout == Wrap(dl)
  {
    var call := CallReset(t, c, f, a, n);
    var r := Exec(s, before);
    var e := Exec(Apply(r, call), after);
    CallIsInside(s, before, call, after);
    InitInv(s);
    ExecInv(s, before);
    NextInv(r, call);
    ExecInv(Apply(r, call), after);
    assert ThreadInv(e, t) && CallInv(e, t);
  }

  lemma {:induction false} NextInv(r: State, call: Step)
    requires Inv(r) && Enabled(r, call)
    ensures Inv(Apply(r, call))
  {
    var steps := [call];
    assert steps[1..] == [] && CanExec(Apply(r, call), []);
    ExecInv(r, steps);
    assert Exec(r, steps) == Exec(Apply(r, call), steps[1..]);
  }

  // ---------------------------------------------------------------- calls without interruption

  /** Only statements of t. */
  predicate OnlyBy(steps: seq<Step>, t: Tid) {
    forall i :: 0 <= i < |steps| ==> steps[i] == Client(t)
  }

  ghost predicate Walks(s: State, t: Tid, r: State) {
    exists steps :: OnlyBy(steps, t) && CanExec(s, steps) && Exec(s, steps) == r
  }

  lemma {:induction false} StandStill(s: State, t: Tid)
    ensures Walks(s, t, s)
  {
    assert OnlyBy([], t) && CanExec(s, []) && Exec(s, []) == s;
  }

  lemma {:induction false} WalkOn(s: State, t: Tid, r: State, r': State)
    requires Walks(s, t, r) && ClientEnabled(r, t) && r' == ClientStep(r, t)
    ensures Walks(s, t, r')
  {
    var steps :| OnlyBy(steps, t) && CanExec(s, steps) && Exec(s, steps) == r;
    ExecOneMore(s, steps, Client(t));
    assert OnlyBy(steps + [Client(t)], t);
  }

  /** A thread has one way to its return. */
  lemma {:induction false} OneWay(s: State, t: Tid, steps: seq<Step>, others: seq<Step>)
    requires OnlyBy(steps, t) && CanExec(s, steps) && PcOf(Exec(s, steps), t).Idle?
    requires OnlyBy(others, t) && CanExec(s, others) && PcOf(Exec(s, others), t).Idle?
    ensures Exec(s, steps) == Exec(s, others)
    decreases |steps|
  {
    if steps != [] && others != [] { OneWay(Apply(s, steps[0]), t, steps[1..], others[1..]); }
  }

  /** The state with c stopped by t, which goes on at pc. */
  function AfterStopBy(s: State, t: Tid, c: Cid, pc: Pc): State
    requires c in s.co
  {
    s.(list := Without(s.list, {c}), cancel := s.cancel || s.curr == Some(c), log := s.log + [Stopped(c, t)],
       co := s.co[c := s.co[c].(linked := false, func := None, arg := None)], pcs := s.pcs[t := pc])
  }

  /** The state with c armed by t. */
  function AfterArmBy(s: State, t: Tid, c: Cid, f: Option<Func>, a: Option<Arg>, n: U32): State
    requires c in s.co
  {
    s.(list := [c] + s.list, log := s.log + [Arming(c, t), Armed(c, f, a, s.now + n, n)],
       co := s.co[c := s.co[c].(linked := true, func := f, arg := a, timeout := Wrap(s.now + n))],
       pcs := s.pcs[t := Idle])
  }

  /** One field of c and the position of t are written. */
  function Wrote(s: State, t: Tid, c: Cid, o: Callout, pc: Pc): State {
    s.(co := s.co[c := o], pcs := s.pcs[t := pc])
  }

  lemma {:induction false} WroteTwice(s: State, t: Tid, c: Cid, o: Callout, pc: Pc, o': Callout, pc': Pc)
    ensures Wrote(Wrote(s, t, c, o, pc), t, c, o', pc') == Wrote(s, t, c, o', pc')
    ensures PcOf(Wrote(s, t, c, o, pc), t) == pc && c in Wrote(s, t, c, o, pc).co && Wrote(s, t, c, o, pc).co[c] == o
  {
    assert s.co[c := o][c := o'] == s.co[c := o'] && s.pcs[t := pc][t := pc'] == s.pcs[t := pc'];
  }

  lemma {:induction false} StopEnters(s: State, t: Tid, c: Cid, k: After)
    requires CanRun(s, t) && s.lk.None? && PcOf(s, t) == StopEnter(c, k)
    ensures ClientEnabled(s, t) && ClientStep(s, t) == s.(lk := Some(t), pcs := s.pcs[t := StopBody(c, k)])
  {}

  lemma {:induction false} StopUnlinking(s: State, t: Tid, c: Cid, k: After)
    requires ListInv(s) && c in s.co && CanRun(s, t) && PcOf(s, t) == StopBody(c, k)
    ensures ClientEnabled(s, t)
    ensures ClientStep(s, t) == Wrote(s, t, c, s.co[c].(linked := false), StopExit(c, k)).(
      list := Without(s.list, {c}), cancel := s.cancel || s.curr == Some(c))
  {
    if c !in s.list { WithoutAbsent(s.list, c); }
    assert s.co[c].linked || s.co[c := s.co[c].(linked := false)] == s.co;
  }

  lemma {:induction false} StopClears(s: State, t: Tid, c: Cid, k: After)
    requires c in s.co && CanRun(s, t)
    ensures PcOf(s, t) == StopExit(c, k) ==>
      ClientEnabled(s, t) && ClientStep(s, t) == s.(lk := None, pcs := s.pcs[t := StopFunc(c, k)])
    ensures PcOf(s, t) == StopFunc(c, k) ==>
      ClientEnabled(s, t) && ClientStep(s, t) == Wrote(s, t, c, s.co[c].(func := None), StopArg(c, k))
    ensures PcOf(s, t) == StopArg(c, k) ==>
      && ClientEnabled(s, t)
      && ClientStep(s, t) ==
           Wrote(s, t, c, s.co[c].(arg := None), AfterStop(c, k)).(log := s.log + [Stopped(c, t)])
  {}

  lemma {:induction false} StopUnlinkWalk(s: State, t: Tid, c: Cid, k: After) returns (r: State)
    requires ListInv(s) && c in s.co && CanRun(s, t) && s.lk.None? && PcOf(s, t) == StopEnter(c, k)
    ensures r == Wrote(s, t, c, s.co[c].(linked := false), StopFunc(c, k)).(
      list := Without(s.list, {c}), cancel := s.cancel || s.curr == Some(c))
    ensures Walks(s, t, r)
  {
    var r1 := s.(lk := Some(t), pcs := s.pcs[t := StopBody(c, k)]);
    StandStill(s, t);
    StopEnters(s, t, c, k);
    WalkOn(s, t, s, r1);
    var r2 := ClientStep(r1, t);
    StopUnlinking(r1, t, c, k);
    WalkOn(s, t, r1, r2);
    StopClears(r2, t, c, k);
    r := ClientStep(r2, t);
    WalkOn(s, t, r2, r);
    assert s.pcs[t := StopBody(c, k)][t := StopExit(c, k)][t := StopFunc(c, k)] == s.pcs[t := StopFunc(c, k)];
  }

  lemma {:induction false} StopWalk(s: State, t: Tid, c: Cid, k: After) returns (r: State)
    requires ListInv(s) && c in s.co && CanRun(s, t) && s.lk.None? && PcOf(s, t) == StopEnter(c, k)
    ensures r == AfterStopBy(s, t, c, AfterStop(c, k)) && Walks(s, t, r)
  {
    var r3 := StopUnlinkWalk(s, t, c, k);
    StopClears(r3, t, c, k);
    var r4 := ClientStep(r3, t);
    WalkOn(s, t, r3, r4);
    StopClears(r4, t, c, k);
    r := ClientStep(r4, t);
    WalkOn(s, t, r4, r);
    var o := s.co[c].(linked := false);
    WroteTwice(s, t, c, o, StopFunc(c, k), o.(func := None), StopArg(c, k));
    WroteTwice(s, t, c, o.(func := None), StopArg(c, k), o.(func := None, arg := None), AfterStop(c, k));
  }

  lemma {:induction false} Stores(s: State, t: Tid, c: Cid, f: Option<Func>, a: Option<Arg>, n: U32)
    requires c in s.co && CanRun(s, t)
    ensures PcOf(s, t) == ArmFunc(c, f, a, n) ==>
      && ClientEnabled(s, t)
      && ClientStep(s, t) == Wrote(s, t, c, s.co[c].(func := f), ArmArg(c, f, a, n)).(log := s.log + [Arming(c, t)])
    ensures PcOf(s, t) == ArmArg(c, f, a, n) ==>
      ClientEnabled(s, t) && ClientStep(s, t) == Wrote(s, t, c, s.co[c].(arg := a), ArmTime(c, f, a, n))
    ensures PcOf(s, t) == ArmTime(c, f, a, n) ==>
      && ClientEnabled(s, t)
      && ClientStep(s, t) == Wrote(s, t, c, s.co[c].(timeout := Wrap(s.now + n)), ArmEnter(c, f, a, n, s.now + n))
  {}

  /** The three stores of a reset. */
  lemma {:induction false} StoreWalk(s0: State, s: State, t: Tid, c: Cid, f: Option<Func>, a: Option<Arg>, n: U32)
      returns (r: State)
    requires Walks(s0, t, s) && c in s.co && CanRun(s, t) && PcOf(s, t) == ArmFunc(c, f, a, n)
    ensures r == s.(co := s.co[c := s.co[c].(func := f, arg := a, timeout := Wrap(s.now + n))],
      log := s.log + [Arming(c, t)], pcs := s.pcs[t := ArmEnter(c, f, a, n, s.now + n)])
    ensures Walks(s0, t, r)
  {
    var o := s.co[c].(func := f, arg := a);
    var r2 := StoreTwo(s0, s, t, c, f, a, n);
    Stores(r2, t, c, f, a, n);
    r := ClientStep(r2, t);
    WalkOn(s0, t, r2, r);
    WroteTwice(s, t, c, o, ArmTime(c, f, a, n), o.(timeout := Wrap(s.now + n)), ArmEnter(c, f, a, n, s.now + n));
  }

  lemma {:induction false} StoreTwo(s0: State, s: State, t: Tid, c: Cid, f: Option<Func>, a: Option<Arg>, n: U32)
      returns (r: State)
    requires Walks(s0, t, s) && c in s.co && CanRun(s, t) && PcOf(s, t) == ArmFunc(c, f, a, n)
    ensures r == Wrote(s, t, c, s.co[c].(func := f, arg := a), ArmTime(c, f, a, n)).(log := s.log + [Arming(c, t)])
    ensures Walks(s0, t, r)
  {
    var o := s.co[c].(func := f);
    Stores(s, t, c, f, a, n);
    var r1 := ClientStep(s, t);
    WalkOn(s0, t, s, r1);
    Stores(r1, t, c, f, a, n);
    r := ClientStep(r1, t);
    WalkOn(s0, t, r1, r);
    WroteTwice(s, t, c, o, ArmArg(c, f, a, n), o.(arg := a), ArmTime(c, f, a, n));
  }

  /** The block that links it. */
  lemma {:induction false} LinkWalk(s0: State, s: State, t: Tid, c: Cid, f: Option<Func>, a: Option<Arg>, n: U32,
      dl: int) returns (r: State)
    requires Walks(s0, t, s) && c in s.co && CanRun(s, t) && s.lk.None? && PcOf(s, t) == ArmEnter(c, f, a, n, dl)
    ensures r == s.(list := [c] + s.list, co := s.co[c := s.co[c].(linked := true)],
      log := s.log + [Armed(c, f, a, dl, n)], pcs := s.pcs[t := Idle])
    ensures Walks(s0, t, r)
  {
    Links(s, t, c, f, a, n, dl);
    var r1 := ClientStep(s, t);
    WalkOn(s0, t, s, r1);
    Links(r1, t, c, f, a, n, dl);
    var r2 := ClientStep(r1, t);
    WalkOn(s0, t, r1, r2);
    Links(r2, t, c, f, a, n, dl);
    r := ClientStep(r2, t);
    WalkOn(s0, t, r2, r);
    assert s.pcs[t := ArmBody(c, f, a, n, dl)][t := ArmExit(c)][t := Idle] == s.pcs[t := Idle];
  }

  lemma {:induction false} Links(s: State, t: Tid, c: Cid, f: Option<Func>, a: Option<Arg>, n: U32, dl: int)
    requires c in s.co && CanRun(s, t)
    ensures PcOf(s, t) == ArmEnter(c, f, a, n, dl) && s.lk.None? ==>
      ClientEnabled(s, t) && ClientStep(s, t) == s.(lk := Some(t), pcs := s.pcs[t := ArmBody(c, f, a, n, dl)])
    ensures PcOf(s, t) == ArmBody(c, f, a, n, dl) ==>
      && ClientEnabled(s, t)
      && ClientStep(s, t) == Wrote(s, t, c, s.co[c].(linked := true), ArmExit(c)).(
           list := [c] + s.list, log := s.log + [Armed(c, f, a, dl, n)])
    ensures PcOf(s, t) == ArmExit(c) ==>
      ClientEnabled(s, t) && ClientStep(s, t) == s.(lk := None, pcs := s.pcs[t := Idle])
  {}

  lemma {:induction false} ArmWalk(s0: State, s: State, t: Tid, c: Cid, f: Option<Func>, a: Option<Arg>, n: U32)
      returns (r: State)
    requires Walks(s0, t, s) && c in s.co && CanRun(s, t) && s.lk.None? && PcOf(s, t) == ArmFunc(c, f, a, n)
    ensures r == AfterArmBy(s, t, c, f, a, n) && Walks(s0, t, r)
  {
    var r3 := StoreWalk(s0, s, t, c, f, a, n);
    r := LinkWalk(s0, r3, t, c, f, a, n, s.now + n);
    var e := AfterArmBy(s, t, c, f, a, n);
    assert r.co == e.co && r.pcs == e.pcs;
    assert s.log + [Arming(c, t)] + [Armed(c, f, a, s.now + n, n)] == e.log;
  }

  /** usb_callout_stop by a thread that nobody interrupts, in any state of any run: it comes to its end, and whichever
    way of its own statements it comes there, the callout is off the list and has neither function nor argument,
    one event is logged, a selected callout is cancelled, and nothing else has changed. */
  lemma {:induction false} StopUninterrupted(s: State, steps: seq<Step>, t: Tid, c: Cid, own: seq<Step>)
    requires Init(s) && CanExec(s, steps) && Enabled(Exec(s, steps), CallStop(t, c)) && Exec(s, steps).lk.None?
    ensures var r := Exec(s, steps); Walks(Apply(r, CallStop(t, c)), t, AfterStopBy(r, t, c, Idle))
    ensures var r := Exec(s, steps); var r' := Apply(r, CallStop(t, c));
      OnlyBy(own, t) && CanExec(r', own) && PcOf(Exec(r', own), t).Idle? ==> Exec(r', own) == AfterStopBy(r, t, c, Idle)
  {
    InitInv(s);
    ExecInv(s, steps);
    var r := Exec(s, steps);
    var r' := Apply(r, CallStop(t, c));
    var e := StopWalk(r', t, c, Return);
    assert r.pcs[t := StopEnter(c, Return)][t := Idle] == r.pcs[t := Idle];
    assert e == AfterStopBy(r, t, c, Idle);
    SameEnd(r', t, e, own);
  }

  lemma {:induction false} SameEnd(s: State, t: Tid, e: State, own: seq<Step>)
    requires Walks(s, t, e) && PcOf(e, t).Idle?
    ensures OnlyBy(own, t) && CanExec(s, own) && PcOf(Exec(s, own), t).Idle? ==> Exec(s, own) == e
  {
    var w :| OnlyBy(w, t) && CanExec(s, w) && Exec(s, w) == e;
    if OnlyBy(own, t) && CanExec(s, own) && PcOf(Exec(s, own), t).Idle? { OneWay(s, t, w, own); }
  }

  /** From r to e, t has reset c and nothing else has happened. */
  predicate WasReset(r: State, e: State, t: Tid, c: Cid, f: Option<Func>, a: Option<Arg>, n: U32) {
    && c in r.co && e.list == [c] + Without(r.list, {c})
    && e.co == r.co[c := r.co[c].(linked := true, func := f, arg := a, timeout := Wrap(r.now + n))]
    && e.log == r.log + [Stopped(c, t), Arming(c, t), Armed(c, f, a, r.now + n, n)]
    && e.cancel == (r.cancel || r.curr == Some(c)) && e.pcs == r.pcs[t := Idle]
    && e == r.(list := e.list, log := e.log, co := e.co, cancel := e.cancel, pcs := e.pcs)
  }

  /** usb_callout_reset likewise: the callout is stopped and then armed, at the head of the list, with the function, the
    argument and the timeout given. */
  lemma {:induction false} ResetUninterrupted(s: State, steps: seq<Step>, t: Tid, c: Cid, f: Option<Func>,
      a: Option<Arg>, n: U32, own: seq<Step>)
    requires Init(s) && CanExec(s, steps) && Enabled(Exec(s, steps), CallReset(t, c, f, a, n))
    requires Exec(s, steps).lk.None?
    ensures var r := Exec(s, steps);
      exists e :: Walks(Apply(r, CallReset(t, c, f, a, n)), t, e) && WasReset(r, e, t, c, f, a, n)
    ensures var r := Exec(s, steps); var r' := Apply(r, CallReset(t, c, f, a, n));
      OnlyBy(own, t) && CanExec(r', own) && PcOf(Exec(r', own), t).Idle? ==>
        WasReset(r, Exec(r', own), t, c, f, a, n)
  {
    InitInv(s);
    ExecInv(s, steps);
    var r := Exec(s, steps);
    var e := ResetWalk(r, t, c, f, a, n);
    SameEnd(Apply(r, CallReset(t, c, f, a, n)), t, e, own);
  }

  lemma {:induction false} ResetWalk(r: State, t: Tid, c: Cid, f: Option<Func>, a: Option<Arg>, n: U32)
      returns (e: State)
    requires ListInv(r) && Enabled(r, CallReset(t, c, f, a, n)) && r.lk.None?
    ensures WasReset(r, e, t, c, f, a, n) && PcOf(e, t).Idle? && Walks(Apply(r, CallReset(t, c, f, a, n)), t, e)
  {
    var r' := Goto(r, t, StopEnter(c, Rearm(f, a, n)));
    var m := StopWalk(r', t, c, Rearm(f, a, n));
    e := ArmWalk(r', m, t, c, f, a, n);
    ResetEnd(r, r', t, c, f, a, n, e);
  }

  lemma {:induction false} ResetEnd(r: State, r': State, t: Tid, c: Cid, f: Option<Func>, a: Option<Arg>, n: U32,
      e: State)
    requires c in r.co && r' == Goto(r, t, StopEnter(c, Rearm(f, a, n)))
    requires e == AfterArmBy(AfterStopBy(r', t, c, ArmFunc(c, f, a, n)), t, c, f, a, n)
    ensures WasReset(r, e, t, c, f, a, n) && PcOf(e, t).Idle?
  {
    var off := r.co[c].(linked := false, func := None, arg := None);
    var on := r.co[c].(linked := true, func := f, arg := a, timeout := Wrap(r.now + n));
    Overwritten(r.co, c, off, on);
    Overwritten(r.pcs[t := StopEnter(c, Rearm(f, a, n))], t, ArmFunc(c, f, a, n), Idle);
    Overwritten(r.pcs, t, StopEnter(c, Rearm(f, a, n)), Idle);
    assert e.log == r.log + [Stopped(c, t), Arming(c, t), Armed(c, f, a, r.now + n, n)];
  }

  lemma {:induction false} Overwritten<T(!new), U(!new)>(m: map<T, U>, k: T, x: U, y: U)
    ensures m[k := x][k := y] == m[k := y]
  {}
}
