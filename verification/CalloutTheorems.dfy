/** The callout scheduler over every run from an initial state. */
module CalloutTheorems {
  import opened Basics
  import opened Ticks
  import opened Callouts
  import opened CalloutSafety
  import opened CalloutDrain
  import opened CalloutWatch
  import opened CalloutFire

  ghost predicate Inv(s: State) {
    BaseInv(s) && DrainInv(s) && WatchInv(s) && FireInv(s)
  }

  lemma {:induction false} InitInv(s: State)
    requires Init(s)
    ensures Inv(s)
  {
    forall t ensures ThreadInv(s, t) && DrainThread(s, t) && CallInv(s, t) { assert PcOf(s, t) == Idle; }
    forall t, c | c in s.co ensures Watched(s, t, c) { assert PcOf(s, t) == Idle; }
  }

  lemma {:induction false} ExecInv(s: State, steps: seq<Step>)
    requires Inv(s) && CanExec(s, steps)
    ensures Inv(Exec(s, steps))
    decreases |steps|
  {
    if steps != [] {
      StepKeepsBase(s, steps[0]);
      StepKeepsDrain(s, steps[0]);
      StepKeepsWatch(s, steps[0]);
      StepKeepsFire(s, steps[0]);
      ExecInv(Apply(s, steps[0]), steps[1..]);
    }
  }

  // ---------------------------------------------------------------- firing

  /** An event that changes what is known about c. */
  predicate Concerns(e: Event, c: Cid) {
    e.c == c && (e.Armed? || e.Stopped? || e.Selected? || e.Fired? || e.Skipped?)
  }

  /** The reset at k is in force at the end of the log: nothing about c happened since. */
  ghost predicate InForce(log: seq<Event>, c: Cid, k: int, f: Option<Func>, a: Option<Arg>, dl: int, n: U32) {
    && 0 <= k < |log| && log[k] == Armed(c, f, a, dl, n)
    && forall m :: k < m < |log| ==> !Concerns(log[m], c)
  }

  /** The reset at k was selected at j, and nothing else about c happened since k. */
  ghost predicate InForceTaken(log: seq<Event>, c: Cid, k: int, j: int,
                               f: Option<Func>, a: Option<Arg>, dl: int, n: U32, at: int) {
    && 0 <= k < j < |log| && log[k] == Armed(c, f, a, dl, n) && log[j] == Selected(c, at)
    && forall m :: k < m < |log| && m != j ==> !Concerns(log[m], c)
  }

  /** The monitor state read back as positions in the log, both ways. */
  lemma {:induction false} PendingMeans(log: seq<Event>, c: Cid, f: Option<Func>, a: Option<Arg>, dl: int, n: U32)
    ensures StatusOf(log, c) == Pending(f, a, dl, n) <==> exists k :: InForce(log, c, k, f, a, dl, n)
    decreases |log|
  {
    if log != [] {
      var front, e := log[..|log| - 1], log[|log| - 1];
      PendingMeans(front, c, f, a, dl, n);
      assert forall m :: 0 <= m < |front| ==> front[m] == log[m];
      if Concerns(e, c) {
        if e == Armed(c, f, a, dl, n) { assert InForce(log, c, |log| - 1, f, a, dl, n); }
        forall k | InForce(log, c, k, f, a, dl, n) ensures k == |log| - 1 {}
      } else {
        forall k | InForce(front, c, k, f, a, dl, n) ensures InForce(log, c, k, f, a, dl, n) {}
        forall k | InForce(log, c, k, f, a, dl, n) ensures InForce(front, c, k, f, a, dl, n) {}
      }
    }
  }

  lemma {:induction false} TakenMeans(log: seq<Event>, c: Cid, f: Option<Func>, a: Option<Arg>, dl: int, n: U32,
      at: int)
    ensures StatusOf(log, c) == Taken(f, a, dl, n, at) <==> exists k, j :: InForceTaken(log, c, k, j, f, a, dl, n, at)
    decreases |log|
  {
    if log != [] {
      var front, e := log[..|log| - 1], log[|log| - 1];
      TakenMeans(front, c, f, a, dl, n, at);
      PendingMeans(front, c, f, a, dl, n);
      assert forall m :: 0 <= m < |front| ==> front[m] == log[m];
      if Concerns(e, c) {
        forall k | e == Selected(c, at) && InForce(front, c, k, f, a, dl, n)
          ensures InForceTaken(log, c, k, |log| - 1, f, a, dl, n, at) {}
        forall k, j | InForceTaken(log, c, k, j, f, a, dl, n, at)
          ensures e == Selected(c, at) && InForce(front, c, k, f, a, dl, n) {}
      } else {
        forall k, j | InForceTaken(front, c, k, j, f, a, dl, n, at)
          ensures InForceTaken(log, c, k, j, f, a, dl, n, at) {}
        forall k, j | InForceTaken(log, c, k, j, f, a, dl, n, at)
          ensures InForceTaken(front, c, k, j, f, a, dl, n, at) {}
      }
    }
  }

  /** log[i] invokes the reset at k that was selected at j, and does so with its function and argument. */
  ghost predicate Invokes(log: seq<Event>, i: nat, k: int, j: int, dl: int, n: U32, at: int) {
    i < |log| && log[i].Fired? && log[i].fn.Some? &&
      InForceTaken(log[..i], log[i].c, k, j, log[i].fn, log[i].fa, dl, n, at)
  }

  /** In every run, an invocation happens with the client mutex held by the worker; and if no drain
    without the mutex overlapped a reset or a committed callback of c since the last proper stop, it is
    the invocation of the latest reset of c, which the worker selected, and since that reset there was
    no stop, no other reset and no other invocation of c.  The selection was made after the deadline
    if and only if the deadline was less than 2^31 ticks ahead of it, so always if to_ticks was. */
  lemma {:induction false} FireSafety(s: State, steps: seq<Step>, i: nat)
    requires Init(s) && CanExec(s, steps)
    requires var log := Exec(s, steps).log; i < |log| && log[i].Fired?
    ensures var log := Exec(s, steps).log; var e := log[i];
      && e.lock.Held? && e.lock.owner == WORKER
      && (!Spoiled(log[..i], e.c) ==>
            exists k, j, dl, n: U32, at :: Invokes(log, i, k, j, dl, n, at) && (dl < at <==> dl - at < HALF) &&
              (n < HALF ==> dl < at))
  {
    InitInv(s);
    ExecInv(s, steps);
    var log := Exec(s, steps).log;
    var e := log[i];
    assert FirePermitted(log, i);
    if !Spoiled(log[..i], e.c) {
      var st := StatusOf(log[..i], e.c);
      TakenMeans(log[..i], e.c, e.fn, e.fa, st.deadline, st.ticks, st.at);
      var k, j :| InForceTaken(log[..i], e.c, k, j, e.fn, e.fa, st.deadline, st.ticks, st.at);
      NegativeTest(st.deadline - st.at);
      assert Invokes(log, i, k, j, st.deadline, st.ticks, st.at);
    }
  }

  /** The invocation at i belongs to one reset and one selection only. */
  lemma {:induction false} OneInvoked(log: seq<Event>, i: nat, k: int, j: int, dl: int, n: U32, at: int, k': int,
      j': int, dl': int, n': U32, at': int)
    requires Invokes(log, i, k, j, dl, n, at) && Invokes(log, i, k', j', dl', n', at')
    ensures k == k' && j == j' && dl == dl' && n == n' && at == at'
  {
    var front, c := log[..i], log[i].c;
    assert Concerns(front[k], c) && Concerns(front[j], c) && Concerns(front[k'], c) && Concerns(front[j'], c);
  }

  /** The list discipline behind it: le_prev tells membership, and a timeout is written
    only while its callout is off the list and by a thread that holds its mutex. */
  lemma {:induction false} ListDiscipline(s: State, steps: seq<Step>)
    requires Init(s) && CanExec(s, steps)
    ensures var r := Exec(s, steps);
      && Distinct(r.list)
      && (forall c :: c in r.co ==> (r.co[c].linked <==> c in r.list))
      && (forall t :: PcOf(r, t).ArmTime? ==>
            PcOf(r, t).c in r.co && PcOf(r, t).c !in r.list && Holds(r, t, PcOf(r, t).c))
  {
    InitInv(s);
    ExecInv(s, steps);
    var r := Exec(s, steps);
    forall t | PcOf(r, t).ArmTime?
      ensures PcOf(r, t).c in r.co && PcOf(r, t).c !in r.list && Holds(r, t, PcOf(r, t).c)
    {
      assert ThreadInv(r, t);
    }
  }

  /** The stored fields are those of a reset in force with deadline dl. */
  ghost predicate Backed(r: State, c: Cid, dl: int, n: U32)
    requires c in r.co
  {
    var o := r.co[c];
    && Wrap(dl) == o.timeout
    && ((exists k :: InForce(r.log, c, k, o.func, o.arg, dl, n)) ||
        (PreUnlink(r.w, c) && exists k, j, at :: InForceTaken(r.log, c, k, j, o.func, o.arg, dl, n, at)))
  }

  /** What usb_callout_pending reads.  A linked callout has a reset in force whose function, argument
    and deadline are the stored ones; the worker may have selected it, but has not looked further.  And
    a reset in force that was not selected is linked, unless it is lost. */
  lemma {:induction false} PendingAnswer(s: State, steps: seq<Step>, c: Cid)
    requires Init(s) && CanExec(s, steps) && c in Exec(s, steps).co && !Spoiled(Exec(s, steps).log, c)
    ensures var r := Exec(s, steps); r.co[c].linked ==> exists dl, n: U32 :: Backed(r, c, dl, n)
    ensures var r := Exec(s, steps);
      forall k, f, a, dl, n: U32 :: InForce(r.log, c, k, f, a, dl, n) ==> (r.co[c].linked <==> !Lost(r, c))
  {
    InitInv(s);
    ExecInv(s, steps);
    var r := Exec(s, steps);
    assert OneInv(r, c);
    if r.co[c].linked { LinkedIsBacked(r, c); }
    forall k, f, a, dl, n: U32 | InForce(r.log, c, k, f, a, dl, n) ensures r.co[c].linked <==> !Lost(r, c) {
      PendingMeans(r.log, c, f, a, dl, n);
    }
  }

  lemma {:induction false} LinkedIsBacked(r: State, c: Cid)
    requires c in r.co && OneInv(r, c) && c in r.list
    ensures exists dl, n: U32 :: Backed(r, c, dl, n)
  {
    var o := r.co[c];
    var st := StatusOf(r.log, c);
    PendingMeans(r.log, c, o.func, o.arg, st.deadline, st.ticks);
    if st.Taken? {
      TakenMeans(r.log, c, o.func, o.arg, st.deadline, st.ticks, st.at);
      var k, j :| InForceTaken(r.log, c, k, j, o.func, o.arg, st.deadline, st.ticks, st.at);
    }
    assert Backed(r, c, st.deadline, st.ticks);
  }

  // ---------------------------------------------------------------- resets that come too late

  /** The worker's next three statements from CbBody(c): unlink, unlock, test curr_cancel. */
  function ToTest(r: State, c: Cid): State
    requires r.w == CbBody(c) && c in r.co
  {
    WorkStep(WorkStep(WorkStep(r)))
  }

  ghost predicate Decided(r: State, c: Cid)
    requires r.w == CbBody(c) && c in r.co
  {
    var st, r' := StatusOf(r.log, c), ToTest(r, c);
    && (r.cancel <==> st.Pending?) && (!r.cancel <==> st.Taken?)
    && c !in r'.list && StatusOf(r'.log, c) == st
    && r'.w == if st.Pending? then CbCancel(c) else CbCall(c)
  }

  /** In every run, when the worker comes to unlink an unspoiled callout that is on the list, the reset
    in force was made after the selection if and only if curr_cancel is set; then the reset is taken off
    the list and not invoked, although no stop followed it.  If the reset in force is the selected one,
    the worker goes on to invoke it. */
  lemma {:induction false} DroppedIff(s: State, steps: seq<Step>, c: Cid)
    requires Init(s) && CanExec(s, steps)
    requires var r := Exec(s, steps); r.w == CbBody(c) && c in r.list && !Spoiled(r.log, c)
    ensures c in Exec(s, steps).co && Decided(Exec(s, steps), c)
  {
    InitInv(s);
    ExecInv(s, steps);
    var r := Exec(s, steps);
    assert ListInv(r) && OneInv(r, c);
    Tested(r, c);
  }

  lemma {:induction false} Tested(r: State, c: Cid)
    requires r.w == CbBody(c) && c in r.co && ListInv(r)
    ensures var r' := ToTest(r, c);
      c !in r'.list && StatusOf(r'.log, c) == StatusOf(r.log, c) && r'.w == if r.cancel then CbCancel(c) else CbCall(c)
  {
    var e := if r.cancel then None else Some(Committed(c));
    TestedState(r, c, e);
    GrownStatus(r.log, e, c);
  }

  lemma {:induction false} TestedState(r: State, c: Cid, e: Option<Event>)
    requires r.w == CbBody(c) && c in r.co && ListInv(r) && e == if r.cancel then None else Some(Committed(c))
    ensures var r' := ToTest(r, c);
      c !in r'.list && r'.log == Grown(r.log, e) && r'.w == if r.cancel then CbCancel(c) else CbCall(c)
  {}

  /** Nothing in the tables can still lead to an invocation of c. */
  predicate Lost(s: State, c: Cid) {
    c !in s.list && !Commits(s.w, c) && (PreFire(s.w, c) ==> s.cancel)
  }

  lemma {:induction false} LostStep(s: State, step: Step, c: Cid)
    requires BaseInv(s) && Enabled(s, step) && c in s.co && Lost(s, c)
    ensures var e := Emits(s, step);
      && (Lost(Apply(s, step), c) || (e.Some? && e.value.Armed? && e.value.c == c))
      && !(e.Some? && e.value.Fired? && e.value.c == c)
  {
    match step
    case Client(t) =>
      ClientFrame(s, t);
      ClientKeepsList(s, t);
    case Work => LostWork(s, c);
    case _ =>
  }

  lemma {:induction false} LostWork(s: State, c: Cid)
    requires WorkerInv(s) && WorkEnabled(s) && c in s.co && Lost(s, c)
    ensures Lost(WorkStep(s), c)
    ensures !(Emits(s, Work).Some? && Emits(s, Work).value.Fired? && Emits(s, Work).value.c == c)
  {
    WorkFrame(s);
    WorkPreFire(s, c);
  }

  /** From then on c is not invoked before it is armed again, whatever anybody does. */
  lemma {:induction false} LostForGood(s: State, steps: seq<Step>, c: Cid, i: nat)
    requires Inv(s) && CanExec(s, steps) && c in s.co && Lost(s, c)
    requires var log := Exec(s, steps).log; |s.log| <= i < |log| && log[i].Fired? && log[i].c == c
    ensures var log := Exec(s, steps).log; exists m :: |s.log| <= m < i && log[m].Armed? && log[m].c == c
    decreases |steps|
  {
    var s' := Apply(s, steps[0]);
    LostStep(s, steps[0], c);
    LogGrows(s, steps[0]);
    SameCallouts(s, steps[0]);
    LogKept(s', steps[1..]);
    ExecInv(s, steps[..1]);
    OneStep(s, steps);
    var log := Exec(s, steps).log;
    assert s'.log <= log;
    if Lost(s', c) {
      LostForGood(s', steps[1..], c, i);
      var m :| |s'.log| <= m < i && log[m].Armed? && log[m].c == c;
    } else {
      assert log[|s.log|] == s'.log[|s.log|];
    }
  }

  lemma {:induction false} OneStep(s: State, steps: seq<Step>)
    requires CanExec(s, steps) && steps != []
    ensures CanExec(s, steps[..1]) && Exec(s, steps[..1]) == Apply(s, steps[0])
  {
    assert steps[..1] == [steps[0]] && [steps[0]][1..] == [];
  }

  lemma {:induction false} ExecOneMore(s0: State, steps: seq<Step>, step: Step)
    requires CanExec(s0, steps) && Enabled(Exec(s0, steps), step)
    ensures CanExec(s0, steps + [step]) && Exec(s0, steps + [step]) == Apply(Exec(s0, steps), step)
    decreases |steps|
  {
    var all := steps + [step];
    if steps == [] {
      assert all[1..] == [];
    } else {
      ExecOneMore(Apply(s0, steps[0]), steps[1..], step);
      assert all[1..] == steps[1..] + [step];
    }
  }

  /** The log is only ever appended to. */
  lemma {:induction false} LogKept(s: State, steps: seq<Step>)
    requires CanExec(s, steps)
    ensures s.log <= Exec(s, steps).log
    decreases |steps|
  {
    if steps != [] {
      LogGrows(s, steps[0]);
      LogKept(Apply(s, steps[0]), steps[1..]);
    }
  }

  // ---------------------------------------------------------------- draining

  /** In every run, when a drain of c returns no callback of c is running; and a callback of
    c that starts later was armed after the drain began. */
  lemma {:induction false} DrainSafety(s: State, steps: seq<Step>, i: nat)
    requires Init(s) && CanExec(s, steps)
    requires var log := Exec(s, steps).log; i < |log| && log[i].DrainDone?
    ensures var log := Exec(s, steps).log; var e := log[i];
      && e.since < i && Began(log, e.since, e.c, e.t)
      && !InCallback(log[..i], e.c)
      && forall j :: i < j < |log| && log[j].Fired? && log[j].c == e.c ==>
           exists m :: e.since < m < j && log[m].Armed? && log[m].c == e.c
  {
    InitInv(s);
    ExecInv(s, steps);
    var r := Exec(s, steps);
    var e := r.log[i];
    assert DoneAt(r, i);
    forall j | i < j < |r.log| && r.log[j].Fired? && r.log[j].c == e.c
      ensures exists m :: e.since < m < j && r.log[m].Armed? && r.log[m].c == e.c
    {
      assert !NoArmSince(r.log[..j], e.since, e.c);
      var m :| e.since <= m < j && r.log[..j][m].Armed? && r.log[..j][m].c == e.c;
      assert r.log[m] == r.log[..j][m];
    }
  }
}
