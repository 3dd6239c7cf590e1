/** usb_callout_drain: when it returns no callback of the callout is running, and none
  starts before the callout is armed again. */
module CalloutDrain {
  import opened Basics
  import opened Callouts
  import opened CalloutSafety

  predicate Draining(pc: Pc) {
    (InStop(pc) && pc.k.Wait?) || InDrain(pc)
  }

  /** Position in the log of the DrainBegan event of the call in progress. */
  function Since(pc: Pc): nat
    requires Draining(pc)
  {
    if InStop(pc) then pc.k.since else pc.since
  }

  predicate Began(log: seq<Event>, b: nat, c: Cid, t: Tid) {
    b < |log| && log[b].DrainBegan? && log[b].c == c && log[b].t == t
  }

  ghost predicate DrainThread(s: State, t: Tid) {
    var pc := PcOf(s, t);
    Draining(pc) ==>
      && Began(s.log, Since(pc), pc.c, t)
      && (pc.c in s.co ==> (s.log[Since(pc)].locked <==> Holds(s, t, pc.c)))
      && (Cleared(pc) || InDrain(pc) ==> NoArmSince(s.log, Since(pc), pc.c) ==> pc.c !in s.list)
      && (pc.DrainExit? ==> s.curr != Some(pc.c))
  }

  ghost predicate DoneAt(s: State, i: nat)
    requires i < |s.log| && s.log[i].DrainDone?
  {
    var e := s.log[i];
    && e.since < i && Began(s.log, e.since, e.c, e.t)
    && !InCallback(s.log[..i], e.c)
    && (NoArmSince(s.log, e.since, e.c) ==> e.c !in s.list && !About(s.w, e.c))
  }

  /** A callback that starts after a drain has returned was armed after the drain began. */
  ghost predicate LateFires(log: seq<Event>) {
    forall i, j :: 0 <= i < j < |log| && log[i].DrainDone? && log[j].Fired? && log[j].c == log[i].c ==>
      !NoArmSince(log[..j], log[i].since, log[i].c)
  }

  ghost predicate DrainInv(s: State) {
    && (forall t :: DrainThread(s, t))
    && (forall i :: 0 <= i < |s.log| && s.log[i].DrainDone? ==> DoneAt(s, i))
    && LateFires(s.log)
  }

  // ---------------------------------------------------------------- effects every step shares

  predicate Extends(log: seq<Event>, log': seq<Event>) {
    log' == log || (log' != [] && log'[..|log'| - 1] == log)
  }

  lemma {:induction false} ClientEffects(s: State, t: Tid)
    requires BaseInv(s) && ClientEnabled(s, t)
    ensures var s' := ClientStep(s, t);
      && Extends(s.log, s'.log)
      && (forall c :: c in s'.list && c !in s.list ==>
            |s'.log| == |s.log| + 1 && s'.log[|s.log|].Armed? && s'.log[|s.log|].c == c)
      && (|s'.log| == |s.log| + 1 && s'.log[|s.log|].DrainDone? ==>
            PcOf(s, t).DrainExit? && s'.log[|s.log|] == DrainDone(PcOf(s, t).c, t, PcOf(s, t).since))
  {
    ClientKeepsList(s, t);
    match PcOf(s, t)
    case StopArg(c, _) => LogStep(s.log, Stopped(c, t));
    case ArmFunc(c, _, _, _) => LogStep(s.log, Arming(c, t));
    case ArmBody(c, f, a, n, dl) => LogStep(s.log, Armed(c, f, a, dl, n));
    case DrainExit(c, since) => LogStep(s.log, DrainDone(c, t, since));
    case _ =>
  }

  ghost predicate WorkEffect(s: State, s': State) {
    && Extends(s.log, s'.log)
    && (forall c :: c in s'.list ==> c in s.list)
    && (forall c :: About(s'.w, c) ==> About(s.w, c) || c in s.list)
    && (|s'.log| == |s.log| + 1 ==> !s'.log[|s.log|].Armed? && !s'.log[|s.log|].DrainDone?)
    && (|s'.log| == |s.log| + 1 && s'.log[|s.log|].Fired? ==> About(s.w, s'.log[|s.log|].c))
    && (s'.curr != s.curr ==> s.lk == Some(WORKER) && Scanning(s.w))
  }

  lemma {:induction false} ScanEffects(s: State)
    requires ThreadInv(s, WORKER) && WorkEnabled(s) && Scanning(s.w)
    ensures WorkEffect(s, ScanStep(s))
  {
    var s' := ScanStep(s);
    if |s'.log| > |s.log| { LogStep(s.log, s'.log[|s.log|]); }
  }

  lemma {:induction false} CallbackEffects(s: State)
    requires WorkEnabled(s) && !Scanning(s.w)
    ensures WorkEffect(s, CallbackStep(s))
  {
    if s.w.CbBody? { BodyFramed(s); } else { RestEffects(s); }
  }

  lemma {:induction false} RestEffects(s: State)
    requires WorkEnabled(s) && !Scanning(s.w) && !s.w.CbBody?
    ensures WorkEffect(s, CallbackStep(s))
  {
    var s' := CallbackStep(s);
    RestFramed(s);
    if |s'.log| > |s.log| { LogStep(s.log, s'.log[|s.log|]); }
  }

  lemma {:induction false} WorkEffects(s: State)
    requires BaseInv(s) && WorkEnabled(s)
    ensures WorkEffect(s, WorkStep(s))
  {
    assert ThreadInv(s, WORKER);
    if Scanning(s.w) { ScanEffects(s); } else { CallbackEffects(s); }
  }

  /** What every step has in common: the log grows by at most one event, the list grows
    only together with an Armed event, the worker turns to a callout only from the list, and
    curr_callout changes only under mtx_callout. */
  ghost predicate Effect(s: State, s': State) {
    && Extends(s.log, s'.log)
    && (forall c :: c in s'.list && c !in s.list ==>
          |s'.log| == |s.log| + 1 && s'.log[|s.log|].Armed? && s'.log[|s.log|].c == c)
    && (forall c :: About(s'.w, c) ==> About(s.w, c) || c in s.list)
    && (|s'.log| == |s.log| + 1 && s'.log[|s.log|].Fired? ==> About(s.w, s'.log[|s.log|].c))
    && (s'.curr != s.curr ==> s.lk == Some(WORKER) && Scanning(s.w))
  }

  lemma {:induction false} StepEffects(s: State, step: Step)
    requires BaseInv(s) && Enabled(s, step)
    ensures var s' := Apply(s, step);
      && Effect(s, s')
      && (|s'.log| == |s.log| + 1 && s'.log[|s.log|].DrainDone? ==>
            step.Client? && PcOf(s, step.t).DrainExit? &&
            s'.log[|s.log|] == DrainDone(PcOf(s, step.t).c, step.t, PcOf(s, step.t).since))
  {
    match step
    case Client(t) =>
      ClientEffects(s, t);
      ClientFrame(s, t);
    case Work => WorkEffects(s);
    case CallDrain(t, c) => LogStep(s.log, DrainBegan(c, t, Holds(s, t, c)));
    case FuncReturn => LogStep(s.log, Returned(s.w.c));
    case _ =>
  }

  lemma {:induction false} NoArmMono(log: seq<Event>, log': seq<Event>, since: nat, c: Cid)
    requires Extends(log, log')
    ensures NoArmSince(log', since, c) ==> NoArmSince(log, since, c)
  {
    if NoArmSince(log', since, c) {
      forall i | since <= i < |log| ensures !(log[i].Armed? && log[i].c == c) { assert log'[i] == log[i]; }
    }
  }

  lemma {:induction false} BeganMono(log: seq<Event>, log': seq<Event>, b: nat, c: Cid, t: Tid)
    requires Extends(log, log') && Began(log, b, c, t)
    ensures Began(log', b, c, t)
  {
    assert log'[b] == log[b];
  }

  // ---------------------------------------------------------------- the invariant is kept

  /** A thread whose own program counter did not move keeps its drain facts. */
  lemma {:induction false} OtherKeepsDrain(s: State, s': State, u: Tid)
    requires ThreadInv(s, u) && ThreadInv(s, WORKER) && DrainThread(s, u) && Effect(s, s')
    requires PcOf(s', u) == PcOf(s, u)
    requires Draining(PcOf(s, u)) ==> var c := PcOf(s, u).c;
      c in s.co && c in s'.co && (Holds(s', u, c) <==> Holds(s, u, c))
    ensures DrainThread(s', u)
  {
    var pc := PcOf(s, u);
    if Draining(pc) {
      BeganMono(s.log, s'.log, Since(pc), pc.c, u);
      NoArmMono(s.log, s'.log, Since(pc), pc.c);
    }
  }

  /** A draining thread moves on within its call. */
  lemma {:induction false} MoveKeepsDrain(s: State, s': State, t: Tid)
    requires ThreadInv(s, t) && DrainThread(s, t) && Effect(s, s') && s'.locks == s.locks
    requires var pc, pc' := PcOf(s, t), PcOf(s', t);
      && Draining(pc) && Draining(pc') && pc'.c == pc.c && Since(pc') == Since(pc)
      && pc.c in s.co && pc.c in s'.co && s'.co[pc.c].mtx == s.co[pc.c].mtx
      && (Cleared(pc) || InDrain(pc) || pc.c !in s'.list || !(Cleared(pc') || InDrain(pc')))
      && (pc'.DrainExit? ==> s'.curr != Some(pc.c))
    ensures DrainThread(s', t)
  {
    var pc := PcOf(s, t);
    BeganMono(s.log, s'.log, Since(pc), pc.c, t);
    NoArmMono(s.log, s'.log, Since(pc), pc.c);
  }

  lemma {:induction false} StopCallKeepsDrain(s: State, t: Tid)
    requires ThreadInv(s, t) && ListInv(s) && DrainThread(s, t)
    requires ClientEnabled(s, t) && InStop(PcOf(s, t)) && Effect(s, StopStep(s, t))
    ensures DrainThread(StopStep(s, t), t)
  {
    if PcOf(s, t).k.Wait? {
      StopFrame(s, t);
      StopMoves(s, t);
      MoveKeepsDrain(s, StopStep(s, t), t);
    }
  }

  /** The stop of a drain goes on to its wait, and has unlinked the callout after its block. */
  lemma {:induction false} StopMoves(s: State, t: Tid)
    requires ClientEnabled(s, t) && InStop(PcOf(s, t)) && PcOf(s, t).k.Wait? && ListInv(s)
    ensures var pc, pc' := PcOf(s, t), PcOf(StopStep(s, t), t);
      && Draining(pc') && pc'.c == pc.c && Since(pc') == Since(pc) && !pc'.DrainExit?
      && (Cleared(pc) || pc.c !in StopStep(s, t).list || pc'.StopBody?)
  {
    var pc := PcOf(s, t);
    if pc.StopBody? { assert StopStep(s, t).list == Unlink(s, pc.c).list; }
  }

  lemma {:induction false} WaitKeepsDrain(s: State, t: Tid)
    requires ThreadInv(s, t) && DrainThread(s, t) && ClientEnabled(s, t) && InDrain(PcOf(s, t))
    requires Effect(s, DrainStep(s, t))
    ensures DrainThread(DrainStep(s, t), t)
  {
    if !PcOf(s, t).DrainExit? { MoveKeepsDrain(s, DrainStep(s, t), t); }
  }

  /** A call begins. */
  lemma {:induction false} CallKeepsDrain(s: State, step: Step)
    requires BaseInv(s) && Enabled(s, step) && (step.CallStop? || step.CallReset? || step.CallDrain?)
    ensures DrainThread(Apply(s, step), step.t)
  {
    var s' := Apply(s, step);
    assert Draining(PcOf(s', step.t)) ==> Began(s'.log, |s.log|, step.c, step.t);
  }

  lemma {:induction false} ClientKeepsDrain(s: State, t: Tid)
    requires ThreadInv(s, t) && ListInv(s) && DrainThread(s, t) && ClientEnabled(s, t) && Effect(s, ClientStep(s, t))
    ensures DrainThread(ClientStep(s, t), t)
  {
    if InStop(PcOf(s, t)) { StopCallKeepsDrain(s, t); }
    else if InDrain(PcOf(s, t)) { WaitKeepsDrain(s, t); }
    else { ArmsDoNotDrain(s, t); }
  }

  lemma {:induction false} ArmsDoNotDrain(s: State, t: Tid)
    requires ClientEnabled(s, t) && !InStop(PcOf(s, t)) && !InDrain(PcOf(s, t))
    ensures !Draining(PcOf(ClientStep(s, t), t))
  {}

  lemma {:induction false} ThreadKeepsDrain(s: State, step: Step, u: Tid)
    requires BaseInv(s) && Enabled(s, step) && DrainThread(s, u)
    ensures DrainThread(Apply(s, step), u)
  {
    assert ThreadInv(s, u) && ThreadInv(s, WORKER);
    StepEffects(s, step);
    if step.Client? && step.t == u {
      ClientKeepsDrain(s, u);
    } else if (step.CallStop? || step.CallReset? || step.CallDrain?) && step.t == u {
      CallKeepsDrain(s, step);
    } else {
      PcKept(s, step, u);
      if Draining(PcOf(s, u)) { HoldsKept(s, step, u, PcOf(s, u).c); }
      OtherKeepsDrain(s, Apply(s, step), u);
    }
  }

  lemma {:induction false} PcKept(s: State, step: Step, u: Tid)
    requires Enabled(s, step)
    requires !((step.Client? || step.CallStop? || step.CallReset? || step.CallDrain?) && step.t == u)
    ensures PcOf(Apply(s, step), u) == PcOf(s, u)
  {
    match step
    case Client(t) => ClientFrame(s, t);
    case Work => WorkFrame(s);
    case _ =>
  }

  lemma {:induction false} DoneKeepsDrain(s: State, step: Step, i: nat)
    requires BaseInv(s) && Enabled(s, step) && DrainInv(s)
    requires i < |Apply(s, step).log| && Apply(s, step).log[i].DrainDone?
    ensures DoneAt(Apply(s, step), i)
  {
    var s' := Apply(s, step);
    var e := s'.log[i];
    StepEffects(s, step);
    if i < |s.log| {
      assert s.log[i] == e && s'.log[..i] == s.log[..i];
      assert DoneAt(s, i);
      BeganMono(s.log, s'.log, e.since, e.c, e.t);
      NoArmMono(s.log, s'.log, e.since, e.c);
    } else {
      assert DrainThread(s, step.t) && ThreadInv(s, step.t);
      BeganMono(s.log, s'.log, e.since, e.c, e.t);
      NoArmMono(s.log, s'.log, e.since, e.c);
      assert s'.log[..i] == s.log;
      ClientFrame(s, step.t);
      assert About(s.w, e.c) ==> s.curr == Some(e.c);
      assert LogInv(s);
      ClientKeepsList(s, step.t);
    }
  }

  lemma {:induction false} LateKeepsDrain(s: State, step: Step)
    requires BaseInv(s) && Enabled(s, step) && DrainInv(s)
    ensures LateFires(Apply(s, step).log)
  {
    var s' := Apply(s, step);
    StepEffects(s, step);
    forall i, j | 0 <= i < j < |s'.log| && s'.log[i].DrainDone? && s'.log[j].Fired? && s'.log[j].c == s'.log[i].c
      ensures !NoArmSince(s'.log[..j], s'.log[i].since, s'.log[i].c)
    {
      assert s'.log[i] == s.log[i];
      if j < |s.log| {
        assert s'.log[..j] == s.log[..j] && s'.log[j] == s.log[j];
      } else {
        assert DoneAt(s, i);
        assert s'.log[..j] == s.log;
      }
    }
  }

  lemma {:induction false} StepKeepsDrain(s: State, step: Step)
    requires BaseInv(s) && Enabled(s, step) && DrainInv(s)
    ensures DrainInv(Apply(s, step))
  {
    var s' := Apply(s, step);
    forall t ensures DrainThread(s', t) {
      assert DrainThread(s, t);
      ThreadKeepsDrain(s, step, t);
    }
    forall i | 0 <= i < |s'.log| && s'.log[i].DrainDone? ensures DoneAt(s', i) { DoneKeepsDrain(s, step, i); }
    LateKeepsDrain(s, step);
  }
}
