/** The callout scheduler of module/freebsd_kern_timeout.c as a step system.

  One worker thread (usb_schedule_thread) and any number of client threads run
  interleaved.  A step is one statement of the source: taking or dropping a lock,
  one guarded update of the list under mtx_callout, or one field write.  Every
  externally visible action is appended to an event log, so that the safety
  properties can be stated about whole runs.  Time is counted without bound; the
  variable `ticks` and the stored timeouts are its values in 32 bits. */
module Callouts {
  import opened Basics
  import opened Ticks

  type Tid = nat
  type Mtx = nat
  type Cid = nat
  type Func = nat
  type Arg = nat

  type U32 = n: nat | n < 0x1_0000_0000

  const WORKER: Tid := 0

  /** A recursive client mutex. */
  datatype Lock = Free | Held(owner: Tid, depth: nat)

  /** struct usb_callout; `linked` is `entry.le_prev != NULL`. */
  datatype Callout = Callout(mtx: Mtx, returnUnlocked: bool,
                             func: Option<Func>, arg: Option<Arg>, timeout: int, linked: bool)

  /** What follows the inlined usb_callout_stop: nothing, the rest of reset, or the wait of drain. */
  datatype After =
    | Return
    | Rearm(f: Option<Func>, a: Option<Arg>, ticks: U32)
    | Wait(since: nat)

  /** Program counter of a client call. */
  datatype Pc =
    | Idle
    | StopEnter(c: Cid, k: After)
    | StopBody(c: Cid, k: After)
    | StopExit(c: Cid, k: After)
    | StopFunc(c: Cid, k: After)
    | StopArg(c: Cid, k: After)
    | ArmFunc(c: Cid, f: Option<Func>, a: Option<Arg>, ticks: U32)
    | ArmArg(c: Cid, f: Option<Func>, a: Option<Arg>, ticks: U32)
    | ArmTime(c: Cid, f: Option<Func>, a: Option<Arg>, ticks: U32)
    | ArmEnter(c: Cid, f: Option<Func>, a: Option<Arg>, ticks: U32, deadline: int)
    | ArmBody(c: Cid, f: Option<Func>, a: Option<Arg>, ticks: U32, deadline: int)
    | ArmExit(c: Cid)
    | DrainEnter(c: Cid, since: nat)
    | DrainTest(c: Cid, since: nat)
    | DrainSleep(c: Cid, since: nat)
    | DrainExit(c: Cid, since: nat)

  /** Program counter of the worker. */
  datatype WPc =
    | Asleep
    | Enter
    | Clear
    | Scan(i: nat)
    | NoneExit
    | SelExit(c: Cid)
    | CbLock(c: Cid)
    | CbEnter(c: Cid)
    | CbBody(c: Cid)
    | CbExit(c: Cid)
    | CbTest(c: Cid)
    | CbCancel(c: Cid)
    | CbCall(c: Cid)
    | CbFire(c: Cid)
    | CbFunc(c: Cid)
    | CbReturn(c: Cid)

  /** `deadline` is the true one, `ticks` ahead of the time of the reset.  A call through a function
    pointer that has become NULL is Fired with fn None. */
  datatype Event =
    | Arming(c: Cid, t: Tid)      // a reset has made its stop and stores the function
    | Armed(c: Cid, f: Option<Func>, a: Option<Arg>, deadline: int, ticks: U32)
    | Stopped(c: Cid, t: Tid)
    | Selected(c: Cid, at: int)
    | Committed(c: Cid)           // past the test of curr_cancel
    | Fired(c: Cid, fn: Option<Func>, fa: Option<Arg>, lock: Lock)
    | Skipped(c: Cid)             // c->func is NULL
    | Returned(c: Cid)
    | DrainBegan(c: Cid, t: Tid, locked: bool)
    | DrainDone(c: Cid, t: Tid, since: nat)

  datatype State = State(
    co: map<Cid, Callout>,
    locks: map<Mtx, Lock>,
    list: seq<Cid>,          // head_callout
    curr: Option<Cid>,       // curr_callout
    cancel: bool,            // curr_cancel
    lk: Option<Tid>,         // holder of mtx_callout
    now: int,                // ticks is Wrap(now)
    pcs: map<Tid, Pc>,
    w: WPc,
    log: seq<Event>)

  datatype Step =
    | Tick
    | Acquire(t: Tid, m: Mtx)
    | Release(t: Tid, m: Mtx)
    | CallStop(t: Tid, c: Cid)
    | CallReset(t: Tid, c: Cid, f: Option<Func>, a: Option<Arg>, ticks: U32)
    | CallDrain(t: Tid, c: Cid)
    | Client(t: Tid)
    | Wakeup
    | Work
    | FuncReturn

  // ---------------------------------------------------------------- state access

  function PcOf(s: State, t: Tid): Pc {
    if t in s.pcs then s.pcs[t] else Idle
  }

  function LockOf(s: State, m: Mtx): Lock {
    if m in s.locks then s.locks[m] else Free
  }

  /** `mtx_lock` succeeds for t: the mutex is free or already its own. */
  predicate CanLock(l: Lock, t: Tid) {
    l.Held? ==> l.owner == t
  }

  function Locked(l: Lock, t: Tid): Lock
    requires CanLock(l, t)
  {
    if l.Free? then Held(t, 1) else Held(t, l.depth + 1)
  }

  function Unlocked(l: Lock): Lock
    requires l.Held?
  {
    if l.depth <= 1 then Free else Held(l.owner, l.depth - 1)
  }

  predicate Holds(s: State, t: Tid, c: Cid)
    requires c in s.co
  {
    var l := LockOf(s, s.co[c].mtx);
    l.Held? && l.owner == t
  }

  /** The body of the two guarded unlink blocks (lines 85-88 and 179-182). */
  function Unlink(s: State, c: Cid): State
    requires c in s.co
  {
    if s.co[c].linked then
      s.(list := Without(s.list, {c}), co := s.co[c := s.co[c].(linked := false)])
    else s
  }

  // ---------------------------------------------------------------- enabledness

  /** A thread runs client code; the worker does so only inside a callback. */
  predicate CanRun(s: State, t: Tid) {
    t == WORKER ==> s.w.CbFunc?
  }

  predicate ClientEnabled(s: State, t: Tid) {
    CanRun(s, t) &&
    match PcOf(s, t)
    case Idle => false
    case StopEnter(_, _) => s.lk.None?
    case ArmEnter(_, _, _, _, _) => s.lk.None?
    case DrainEnter(_, _) => s.lk.None?
    case DrainSleep(_, _) => s.lk.None?
    case StopBody(c, _) => c in s.co
    case StopFunc(c, _) => c in s.co
    case StopArg(c, _) => c in s.co
    case ArmFunc(c, _, _, _) => c in s.co
    case ArmArg(c, _, _, _) => c in s.co
    case ArmTime(c, _, _, _) => c in s.co
    case ArmBody(c, _, _, _, _) => c in s.co
    case _ => true
  }

  predicate WorkEnabled(s: State) {
    match s.w
    case Asleep => false
    case Enter => s.lk.None?
    case Scan(i) => i <= |s.list| && (i < |s.list| ==> s.list[i] in s.co)
    case CbLock(c) => c in s.co && CanLock(LockOf(s, s.co[c].mtx), WORKER)
    case CbEnter(_) => s.lk.None?
    case CbBody(c) => c in s.co
    case CbCancel(c) => c in s.co && Holds(s, WORKER, c)
    case CbCall(c) => c in s.co
    case CbFire(c) => c in s.co
    case CbFunc(_) => false
    case CbReturn(c) => c in s.co && (!s.co[c].returnUnlocked ==> Holds(s, WORKER, c))
    case _ => true
  }

  predicate Enabled(s: State, step: Step) {
    match step
    case Tick => true
    case Acquire(t, m) => CanRun(s, t) && PcOf(s, t).Idle? && CanLock(LockOf(s, m), t)
    case Release(t, m) =>
      CanRun(s, t) && PcOf(s, t).Idle? && LockOf(s, m).Held? && LockOf(s, m).owner == t
    // clients hold the mutex, as mtx_assert (which only prints) expects; to_ticks is a u_int32_t
    case CallStop(t, c) => CanRun(s, t) && PcOf(s, t).Idle? && c in s.co && Holds(s, t, c)
    case CallReset(t, c, _, _, _) => CanRun(s, t) && PcOf(s, t).Idle? && c in s.co && Holds(s, t, c)
    // drain is entered with or without the client mutex
    case CallDrain(t, c) => CanRun(s, t) && PcOf(s, t).Idle? && c in s.co
    case Client(t) => ClientEnabled(s, t)
    case Wakeup => s.w.Asleep?
    case Work => WorkEnabled(s)
    // a callback without CALLOUT_RETURNUNLOCKED returns with its mutex held
    case FuncReturn =>
      s.w.CbFunc? && PcOf(s, WORKER).Idle? && s.w.c in s.co && (!s.co[s.w.c].returnUnlocked ==> Holds(s, WORKER, s.w.c))
  }

  // ---------------------------------------------------------------- effects

  function Goto(s: State, t: Tid, pc: Pc): State {
    s.(pcs := s.pcs[t := pc])
  }

  function Logged(s: State, e: Event): State {
    s.(log := s.log + [e])
  }

  function AfterStop(c: Cid, k: After): Pc {
    match k
    case Return => Idle
    case Rearm(f, a, n) => ArmFunc(c, f, a, n)
    case Wait(since) => DrainEnter(c, since)
  }

  predicate InStop(pc: Pc) {
    pc.StopEnter? || pc.StopBody? || pc.StopExit? || pc.StopFunc? || pc.StopArg?
  }

  predicate InDrain(pc: Pc) {
    pc.DrainEnter? || pc.DrainTest? || pc.DrainSleep? || pc.DrainExit?
  }

  predicate Scanning(w: WPc) {
    w.Enter? || w.Clear? || w.Scan? || w.NoneExit?
  }

  /** usb_callout_stop, lines 177-189. */
  function StopStep(s: State, t: Tid): State
    requires ClientEnabled(s, t) && InStop(PcOf(s, t))
  {
    match PcOf(s, t)
    case StopEnter(c, k) => Goto(s.(lk := Some(t)), t, StopBody(c, k))
    case StopBody(c, k) =>
      var u := Unlink(s, c);
      Goto(u.(cancel := u.cancel || u.curr == Some(c)), t, StopExit(c, k))
    case StopExit(c, k) => Goto(s.(lk := None), t, StopFunc(c, k))
    case StopFunc(c, k) => Goto(s.(co := s.co[c := s.co[c].(func := None)]), t, StopArg(c, k))
    case StopArg(c, k) =>
      Goto(Logged(s.(co := s.co[c := s.co[c].(arg := None)]), Stopped(c, t)), t, AfterStop(c, k))
  }

  /** The rest of usb_callout_reset, lines 160-166. */
  function ArmStep(s: State, t: Tid): State
    requires ClientEnabled(s, t) && !InStop(PcOf(s, t)) && !InDrain(PcOf(s, t))
  {
    match PcOf(s, t)
    case ArmFunc(c, f, a, n) =>
      Goto(Logged(s.(co := s.co[c := s.co[c].(func := f)]), Arming(c, t)), t, ArmArg(c, f, a, n))
    case ArmArg(c, f, a, n) => Goto(s.(co := s.co[c := s.co[c].(arg := a)]), t, ArmTime(c, f, a, n))
    case ArmTime(c, f, a, n) =>
      Goto(s.(co := s.co[c := s.co[c].(timeout := Wrap(s.now + n))]), t, ArmEnter(c, f, a, n, s.now + n))
    case ArmEnter(c, f, a, n, dl) => Goto(s.(lk := Some(t)), t, ArmBody(c, f, a, n, dl))
    case ArmBody(c, f, a, n, dl) =>
      Goto(Logged(s.(list := [c] + s.list, co := s.co[c := s.co[c].(linked := true)]),
                  Armed(c, f, a, dl, n)), t, ArmExit(c))
    case ArmExit(c) => Goto(s.(lk := None), t, Idle)
  }

  /** The wait loop of usb_callout_drain, lines 200-204; msleep drops and retakes mtx_callout. */
  function DrainStep(s: State, t: Tid): State
    requires ClientEnabled(s, t) && InDrain(PcOf(s, t))
  {
    match PcOf(s, t)
    case DrainEnter(c, since) => Goto(s.(lk := Some(t)), t, DrainTest(c, since))
    case DrainTest(c, since) =>
      if s.curr == Some(c) then Goto(s.(lk := None), t, DrainSleep(c, since))
      else Goto(s, t, DrainExit(c, since))
    case DrainSleep(c, since) => Goto(s.(lk := Some(t)), t, DrainTest(c, since))
    case DrainExit(c, since) => Goto(Logged(s.(lk := None), DrainDone(c, t, since)), t, Idle)
  }

  function ClientStep(s: State, t: Tid): State
    requires ClientEnabled(s, t)
  {
    if InStop(PcOf(s, t)) then StopStep(s, t)
    else if InDrain(PcOf(s, t)) then DrainStep(s, t)
    else ArmStep(s, t)
  }

  /** usb_callout_process: the scan for an expired callout, lines 111-132. */
  function ScanStep(s: State): State
    requires WorkEnabled(s) && Scanning(s.w)
  {
    match s.w
    case Enter => s.(lk := Some(WORKER), w := Clear)
    case Clear => s.(curr := None, w := Scan(0))
    case Scan(i) =>
      if i == |s.list| then s.(w := NoneExit)
      else if Wrap(s.co[s.list[i]].timeout - s.now) < 0 then
        Logged(s.(curr := Some(s.list[i]), cancel := false, w := SelExit(s.list[i])),
               Selected(s.list[i], s.now))
      else s.(w := Scan(i + 1))
    case NoneExit => s.(lk := None, w := Asleep)
  }

  /** usb_callout_callback, lines 82-99, entered with mtx_callout still held. */
  function CallbackStep(s: State): State
    requires WorkEnabled(s) && !Scanning(s.w)
  {
    match s.w
    case SelExit(c) => s.(lk := None, w := CbLock(c))
    case CbLock(c) =>
      s.(locks := s.locks[s.co[c].mtx := Locked(LockOf(s, s.co[c].mtx), WORKER)], w := CbEnter(c))
    case CbEnter(c) => s.(lk := Some(WORKER), w := CbBody(c))
    case CbBody(c) => Unlink(s, c).(w := CbExit(c))
    case CbExit(c) => s.(lk := None, w := CbTest(c))
    case CbTest(c) => if s.cancel then s.(w := CbCancel(c)) else Logged(s.(w := CbCall(c)), Committed(c))
    case CbCancel(c) =>
      s.(locks := s.locks[s.co[c].mtx := Unlocked(LockOf(s, s.co[c].mtx))], w := Enter)
    case CbCall(c) => if s.co[c].func.Some? then s.(w := CbFire(c)) else Logged(s.(w := CbReturn(c)), Skipped(c))
    case CbFire(c) => Logged(s.(w := CbFunc(c)), Fired(c, s.co[c].func, s.co[c].arg, LockOf(s, s.co[c].mtx)))
    case CbReturn(c) =>
      if s.co[c].returnUnlocked then s.(w := Enter)
      else s.(locks := s.locks[s.co[c].mtx := Unlocked(LockOf(s, s.co[c].mtx))], w := Enter)
  }

  function WorkStep(s: State): State
    requires WorkEnabled(s)
  {
    if Scanning(s.w) then ScanStep(s) else CallbackStep(s)
  }

  function Apply(s: State, step: Step): State
    requires Enabled(s, step)
  {
    match step
    case Tick => s.(now := s.now + 1)
    case Acquire(t, m) => s.(locks := s.locks[m := Locked(LockOf(s, m), t)])
    case Release(t, m) => s.(locks := s.locks[m := Unlocked(LockOf(s, m))])
    case CallStop(t, c) => Goto(s, t, StopEnter(c, Return))
    case CallReset(t, c, f, a, n) => Goto(s, t, StopEnter(c, Rearm(f, a, n)))
    case CallDrain(t, c) =>
      Goto(Logged(s, DrainBegan(c, t, Holds(s, t, c))), t, StopEnter(c, Wait(|s.log|)))
    case Client(t) => ClientStep(s, t)
    case Wakeup => s.(w := Enter)
    case Work => WorkStep(s)
    case FuncReturn => Logged(s.(w := CbReturn(s.w.c)), Returned(s.w.c))
  }

  // ---------------------------------------------------------------- runs

  /** Every callout freshly initialised, nothing scheduled, no lock held. */
  ghost predicate Init(s: State) {
    && (forall m :: LockOf(s, m) == Free) && s.list == [] && s.curr == None && s.lk == None
    && (forall t :: PcOf(s, t) == Idle) && s.w == Asleep && s.log == []
    && (forall c :: c in s.co ==> !s.co[c].linked)
  }

  predicate CanExec(s: State, steps: seq<Step>)
    decreases |steps|
  {
    steps == [] || (Enabled(s, steps[0]) && CanExec(Apply(s, steps[0]), steps[1..]))
  }

  function Exec(s: State, steps: seq<Step>): State
    requires CanExec(s, steps)
    decreases |steps|
  {
    if steps == [] then s else Exec(Apply(s, steps[0]), steps[1..])
  }
}
