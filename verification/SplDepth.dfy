/** mtx_recurse over every run: it counts the locks and unlocks that were made. */
module SplDepth {
  import opened Basics
  import opened SplMutex
  import opened SplTheorems

  // ---------------------------------------------------------------- the calls, counted

  /** What a step adds to the requests of m granted to t, less the unlocks t made as the owner. */
  function Tally(s: State, step: Step, t: Thread, m: Id): int
    requires Enabled(s, step)
  {
    if step.t != t then 0
    else match step
      case Lock(_, x, _) => if x == m && Owner(Apply(s, step), m) == Some(t) then 1 else 0
      case Try(_, x) => if x == m && Owner(Apply(s, step), m) == Some(t) then 1 else 0
      case Resume(_) => if s.waits[t] == m && t !in Apply(s, step).waits then 1 else 0
      case Unlock(_, x) => if x == m && Owner(s, m) == Some(t) then -1 else 0
      case _ => 0
  }

  function Count(s: State, steps: seq<Step>, t: Thread, m: Id): int
    requires CanExec(s, steps)
    decreases |steps|
  {
    if steps == [] then 0 else Tally(s, steps[0], t, m) + Count(Apply(s, steps[0]), steps[1..], t, m)
  }

  /** How deep t has m, or will have it again when it returns from msleep. */
  function Depth(s: State, t: Thread, m: Id): nat {
    if Owner(s, m) == Some(t) then s.mtx[m].recurse + 1
    else if t in s.parked && s.parked[t].m == m then s.parked[t].recurse + 1
    else 0
  }

  /** The depth is n, up to wraps of the 32-bit counter. */
  predicate Counted(s: State, t: Thread, m: Id, n: int) {
    n >= Depth(s, t, m) && (n - Depth(s, t, m)) % U32 == 0
  }

  // ---------------------------------------------------------------- the invariant

  predicate MutexOk(x: Mutex) {
    x.recurse < U32 && (x.owner.None? ==> x.recurse == 0)
  }

  predicate SavedOk(s: State, t: Thread)
    requires t in s.parked
  {
    s.parked[t].recurse < U32 && Owner(s, s.parked[t].m) != Some(t)
  }

  ghost predicate DepthInv(s: State) {
    && Shape(s)
    && (forall m {:trigger MutexOk(s.mtx[m])} :: m in s.mtx ==> MutexOk(s.mtx[m]))
    && (forall t {:trigger SavedOk(s, t)} :: t in s.parked ==> SavedOk(s, t))
  }

  /** The step writes one mutex at most, and leaves it in order. */
  ghost predicate WritesOne(s: State, s': State, m: Id) {
    m in s.mtx ==> m in s'.mtx && s'.mtx == s.mtx[m := s'.mtx[m]] && MutexOk(s'.mtx[m])
  }

  lemma {:induction false} AskOk(s: State, t: Thread, m: Id, wait: bool)
    requires m in s.mtx && MutexOk(s.mtx[m])
    ensures var s' := Ask(s, t, m, wait); WritesOne(s, s', m) && s'.parked == s.parked
  {}

  lemma {:induction false} GiveOk(s: State, t: Thread, m: Id)
    requires m in s.mtx && MutexOk(s.mtx[m])
    ensures var s' := Give(s, t, m); WritesOne(s, s', m) && s'.parked == s.parked
  {}

  lemma {:induction false} ParkOk(s: State, t: Thread, m: Id)
    requires m in s.mtx && MutexOk(s.mtx[m])
    ensures var s' := Park(s, t, m);
      && WritesOne(s, s', m)
      && (s'.parked == s.parked ||
          (t in s'.parked && s'.parked == s.parked[t := s'.parked[t]] && SavedOk(s', t)))
  {}

  lemma {:induction false} WakeOk(s: State, step: Step)
    requires Enabled(s, step) && DepthInv(s) && (step.Resume? || (step.Return? && step.t !in s.naps))
    ensures var s', m := Apply(s, step), if step.Resume? then s.waits[step.t] else s.parked[step.t].m;
      m in s.mtx && WritesOne(s, s', m) && (s'.parked == s.parked || s'.parked == s.parked - {step.t})
  {
    var m := if step.Resume? then s.waits[step.t] else s.parked[step.t].m;
    assert MutexOk(s.mtx[m]) && (step.Return? ==> SavedOk(s, step.t));
  }

  /** What a step of u leaves in order. */
  ghost predicate InOrder(s: State, s': State, u: Thread) {
    && (forall m {:trigger MutexOk(s'.mtx[m])} :: m in s'.mtx ==> MutexOk(s'.mtx[m]))
    && (forall t {:trigger t in s'.parked} :: t in s'.parked && t != u ==> t in s.parked && s'.parked[t] == s.parked[t])
    && (u in s'.parked ==> SavedOk(s', u))
  }

  lemma {:induction false} OrderKept(s: State, s': State, m: Id, u: Thread)
    requires DepthInv(s) && m in s.mtx && WritesOne(s, s', m) && (u in s'.parked ==> SavedOk(s', u))
    requires s'.parked == s.parked || s'.parked == s.parked - {u} ||
      (u in s'.parked && s'.parked == s.parked[u := s'.parked[u]])
    ensures InOrder(s, s', u)
  {
    forall x | x in s'.mtx ensures MutexOk(s'.mtx[x]) { if x != m { assert MutexOk(s.mtx[x]); } }
  }

  lemma {:induction false} CallInOrder(s: State, step: Step)
    requires DepthInv(s) && Enabled(s, step) && (step.Lock? || step.Try? || step.Unlock? || step.Sleep?)
    ensures InOrder(s, Apply(s, step), step.t)
  {
    assert MutexOk(s.mtx[step.m]);
    if step.Unlock? { GiveOk(s, step.t, step.m); }
    else if step.Sleep? { ParkOk(s, step.t, step.m); }
    else { AskOk(s, step.t, step.m, step.Lock? && step.inThread); }
    OrderKept(s, Apply(s, step), step.m, step.t);
  }

  lemma {:induction false} WakeInOrder(s: State, step: Step)
    requires DepthInv(s) && Enabled(s, step) && (step.Resume? || (step.Return? && step.t !in s.naps))
    ensures InOrder(s, Apply(s, step), step.t)
  {
    var m := if step.Resume? then s.waits[step.t] else s.parked[step.t].m;
    WakeOk(s, step);
    assert step.Return? ==> SavedOk(s, step.t);
    OrderKept(s, Apply(s, step), m, step.t);
  }

  lemma {:induction false} StepInOrder(s: State, step: Step)
    requires DepthInv(s) && Enabled(s, step)
    ensures InOrder(s, Apply(s, step), step.t)
  {
    if step.Lock? || step.Try? || step.Unlock? || step.Sleep? { CallInOrder(s, step); }
    else if step.Resume? || (step.Return? && step.t !in s.naps) { WakeInOrder(s, step); }
    else { assert Apply(s, step).mtx == s.mtx && Apply(s, step).parked == s.parked; }
  }

  /** A step of u makes nobody else an owner. */
  lemma {:induction false} OwnerMoves(s: State, step: Step, m: Id)
    requires Enabled(s, step)
    ensures Owner(Apply(s, step), m) in {Owner(s, m), None, Some(step.t)}
  {
    if step.Lock? || step.Try? { AskMoves(s, step.t, step.m, step.Lock? && step.inThread, m); }
    else if step.Unlock? { GiveMoves(s, step.t, step.m, m); }
  }

  lemma {:induction false} AskMoves(s: State, t: Thread, x: Id, wait: bool, m: Id)
    requires x in s.mtx
    ensures Owner(Ask(s, t, x, wait), m) in {Owner(s, m), None, Some(t)}
  {}

  lemma {:induction false} GiveMoves(s: State, t: Thread, x: Id, m: Id)
    requires x in s.mtx
    ensures Owner(Give(s, t, x), m) in {Owner(s, m), None, Some(t)}
  {}

  lemma {:induction false} StepKeepsDepthInv(s: State, step: Step)
    requires DepthInv(s) && Enabled(s, step)
    ensures DepthInv(Apply(s, step))
  {
    var s' := Apply(s, step);
    StepShape(s, step);
    StepInOrder(s, step);
    forall t | t in s'.parked ensures SavedOk(s', t) {
      if t != step.t {
        assert t in s.parked && SavedOk(s, t);
        OwnerMoves(s, step, s.parked[t].m);
      }
    }
  }

  // ---------------------------------------------------------------- one step

  lemma {:induction false} AskCounts(s: State, t: Thread, x: Id, wait: bool, m: Id)
    requires DepthInv(s) && t !in s.parked && x in s.mtx && !Ask(s, t, x, wait).panicked
    ensures var s' := Ask(s, t, x, wait); var d, d' := Depth(s, t, m), Depth(s', t, m);
      d' == if x == m && Owner(s', m) == Some(t) then d % U32 + 1 else d
  {
    assert MutexOk(s.mtx[x]);
    if x == m { AskDeepens(s, t, m, wait); } else { AskOk(s, t, x, wait); }
  }

  lemma {:induction false} AskDeepens(s: State, t: Thread, m: Id, wait: bool)
    requires t !in s.parked && m in s.mtx && MutexOk(s.mtx[m]) && !Ask(s, t, m, wait).panicked
    ensures var s' := Ask(s, t, m, wait); var d, d' := Depth(s, t, m), Depth(s', t, m);
      d' == if Owner(s', m) == Some(t) then d % U32 + 1 else d
  {}

  lemma {:induction false} GiveCounts(s: State, t: Thread, x: Id, m: Id)
    requires DepthInv(s) && Awake(s, t) && x in s.mtx && !Give(s, t, x).panicked
    ensures var s' := Give(s, t, x); var d, d' := Depth(s, t, m), Depth(s', t, m);
      d' == if x == m && Owner(s, m) == Some(t) then d - 1 else d
    ensures x == m && Owner(s, m) == Some(t) ==>
      Owner(Give(s, t, x), m) == if Depth(s, t, m) == 1 then None else Some(t)
  {
    assert MutexOk(s.mtx[x]);
  }

  lemma {:induction false} ParkCountsDepth(s: State, t: Thread, x: Id, m: Id)
    requires DepthInv(s) && Awake(s, t) && x in s.mtx && !Park(s, t, x).panicked
    ensures Depth(Park(s, t, x), t, m) == Depth(s, t, m)
  {}

  lemma {:induction false} WakeCounts(s: State, step: Step, m: Id)
    requires DepthInv(s) && Enabled(s, step) && (step.Resume? || step.Return?)
    ensures var s', t := Apply(s, step), step.t; var d, d' := Depth(s, t, m), Depth(s', t, m);
      d' == if step.Resume? && s.waits[t] == m && t !in s'.waits then d % U32 + 1 else d
  {
    var t := step.t;
    if step.Resume? {
      assert MutexOk(s.mtx[s.waits[t]]);
    } else if t in s.parked {
      assert SavedOk(s, t) && MutexOk(s.mtx[s.parked[t].m]);
    }
  }

  /** Other threads do not change how deep t has m. */
  lemma {:induction false} OtherDepth(s: State, step: Step, t: Thread, m: Id)
    requires Enabled(s, step) && step.t != t && t in s.lv
    ensures Depth(Apply(s, step), t, m) == Depth(s, t, m)
  {
    OtherUntouched(s, step, t);
    if m in s.mtx { assert Kept(s.mtx[m], Apply(s, step).mtx[m], t); }
  }

  /** The depth after a step, from the depth before and the tally: it wraps when it passes 2^32. */
  function Next(d: nat, tally: int): int {
    if tally == 1 then d % U32 + 1 else d + tally
  }

  lemma {:induction false} StepDepth(s: State, step: Step, t: Thread, m: Id)
    requires DepthInv(s) && Enabled(s, step) && !Apply(s, step).panicked && t in s.lv
    ensures -1 <= Tally(s, step, t, m) <= 1 && (Tally(s, step, t, m) == -1 ==> Depth(s, t, m) > 0)
    ensures Depth(Apply(s, step), t, m) == Next(Depth(s, t, m), Tally(s, step, t, m))
  {
    if step.t != t { OtherDepth(s, step, t, m); }
    else if step.Lock? || step.Try? { AskCounts(s, t, step.m, step.Lock? && step.inThread, m); }
    else if step.Unlock? { GiveCounts(s, t, step.m, m); }
    else if step.Sleep? { ParkCountsDepth(s, t, step.m, m); }
    else if step.Resume? || step.Return? { WakeCounts(s, step, m); }
    else { assert Apply(s, step).mtx == s.mtx && Apply(s, step).parked == s.parked; }
  }

  lemma {:induction false} NextCounted(d: nat, n: int, tally: int)
    requires n >= d && (n - d) % U32 == 0 && -1 <= tally <= 1
    ensures n + tally >= Next(d, tally) && (n + tally - Next(d, tally)) % U32 == 0
  {
    if tally == 1 {
      assert n - d % U32 == (n - d) + U32 * (d / U32);
      Multiple(n - d, d / U32);
    }
  }

  lemma {:induction false} Multiple(a: int, k: int)
    requires a % U32 == 0
    ensures (a + U32 * k) % U32 == 0
  {}

  // ---------------------------------------------------------------- runs

  lemma {:induction false} RunCounted(s: State, steps: seq<Step>, t: Thread, m: Id, n: int)
    requires DepthInv(s) && CanExec(s, steps) && t in s.lv && Counted(s, t, m, n)
    ensures DepthInv(Exec(s, steps)) && Counted(Exec(s, steps), t, m, n + Count(s, steps, t, m))
    decreases |steps|
  {
    if steps != [] {
      var k := Tally(s, steps[0], t, m);
      StepDepth(s, steps[0], t, m);
      NextCounted(Depth(s, t, m), n, k);
      StepKeepsDepthInv(s, steps[0]);
      LevelsStay(s, steps[0], t);
      RunCounted(Apply(s, steps[0]), steps[1..], t, m, n + k);
    }
  }

  lemma {:induction false} LevelsStay(s: State, step: Step, t: Thread)
    requires Enabled(s, step) && t in s.lv
    ensures t in Apply(s, step).lv
  {
    if step.t != t { OtherUntouched(s, step, t); }
    else if step.Lock? || step.Try? { AskLv(s, t, step.m, step.Lock? && step.inThread); }
    else if step.Unlock? { GiveLv(s, t, step.m); }
  }

  lemma {:induction false} AskLv(s: State, t: Thread, m: Id, wait: bool)
    requires m in s.mtx
    ensures t in Ask(s, t, m, wait).lv
  {}

  lemma {:induction false} GiveLv(s: State, t: Thread, m: Id)
    requires m in s.mtx
    ensures t in Give(s, t, m).lv
  {}

  lemma {:induction false} InitCounted(s: State, t: Thread, m: Id)
    requires Init(s)
    ensures DepthInv(s) && Counted(s, t, m, 0)
  {}

  /** In every run, mtx_recurse + 1 of a mutex that t owns, or the value msleep keeps for it, is the number of
    lock and trylock requests granted to t less the unlocks t made, modulo 2^32; and a thread for which that
    number is not zero modulo 2^32 owns the mutex or sleeps on it in msleep. */
  lemma {:induction false} RecurseCounts(s: State, steps: seq<Step>, t: Thread, m: Id)
    requires Init(s) && CanExec(s, steps) && t in s.lv
    ensures var r, n := Exec(s, steps), Count(s, steps, t, m);
      && n >= 0 && n % U32 == Depth(r, t, m) % U32
      && (n % U32 != 0 ==> Owner(r, m) == Some(t) || (t in r.parked && r.parked[t].m == m))
      && (Owner(r, m) == Some(t) && n <= U32 ==> r.mtx[m].recurse + 1 == n)
  {
    InitCounted(s, t, m);
    RunCounted(s, steps, t, m, 0);
    var r, n := Exec(s, steps), Count(s, steps, t, m);
    DepthIs(r, t, m, n);
  }

  lemma {:induction false} DepthIs(r: State, t: Thread, m: Id, n: int)
    requires DepthInv(r) && Counted(r, t, m, n)
    ensures n >= 0 && n % U32 == Depth(r, t, m) % U32
    ensures Depth(r, t, m) > 0 && n <= U32 ==> Depth(r, t, m) == n
  {
    if m in r.mtx { assert MutexOk(r.mtx[m]); }
  }

  /** In every run, an unlock by the owner frees the mutex if and only if it undoes the first of the requests
    counted, modulo 2^32; otherwise the caller keeps it. */
  lemma {:induction false} FreesIff(s: State, steps: seq<Step>, t: Thread, m: Id)
    requires Init(s) && CanExec(s, steps) && t in s.lv
    requires var r := Exec(s, steps);
      Enabled(r, Unlock(t, m)) && !Apply(r, Unlock(t, m)).panicked && Owner(r, m) == Some(t)
    ensures var r, n := Exec(s, steps), Count(s, steps, t, m);
      Owner(Apply(r, Unlock(t, m)), m) == if n % U32 == 1 then None else Some(t)
  {
    InitCounted(s, t, m);
    RunCounted(s, steps, t, m, 0);
    var r, n := Exec(s, steps), Count(s, steps, t, m);
    DepthIs(r, t, m, n);
    GiveCounts(r, t, m, m);
    assert MutexOk(r.mtx[m]);
  }
}
