/** The recursive mutex of module/freebsd_kern_mutex_v5.c over a non-recursive kernel mutex.

  Any number of threads run mtx_lock, mtx_trylock, _mtx_unlock and msleep on one mutex, and
  a step is a single access to one field: owner_td is read without synchronisation. */
module RecursiveMutex {
  import opened Basics

  type Tid = nat

  const WIDTH: nat := 0x1_0000_0000   // mtx_recurse is a uint32_t

  datatype Op = Lock | TryLock | Unlock | Sleep

  /** Position inside a call.  `entry` records the depth at which msleep was entered, `try` that the
    increment is the one in mtx_trylock. */
  datatype Pc =
    | Out
    | LockRead | LockEnter | LockOwn
    | TryRead | TryEnter | TryOwn
    | IncRead(try: bool) | IncWrite(try: bool, r: nat)
    | UnlockRead | UnlockTest | UnlockClear | UnlockExit | DecRead | DecWrite(r: nat)
    | SleepRead
    | SleepSave(entry: nat)
    | SleepZero(entry: nat, saved: nat)
    | SleepClear(entry: nat, saved: nat)
    | SleepDrop(entry: nat, saved: nat)
    | SleepWait(entry: nat, saved: nat)
    | SleepRestore(entry: nat, saved: nat)
    | SleepOwn(entry: nat, saved: nat)
    | Panicked

  datatype State = State(
    owner: Option<Tid>,     // owner_td, None for MTX_NO_THREAD
    recurse: nat,           // mtx_recurse
    holder: Option<Tid>,      // the thread that holds real_mtx
    pcs: map<Tid, Pc>,
    ret: map<Tid, bool>)    // what the last mtx_trylock of each thread returned

  datatype Step = Call(t: Tid, op: Op) | Go(t: Tid)

  function PcOf(s: State, t: Tid): Pc {
    if t in s.pcs then s.pcs[t] else Out
  }

  predicate Enabled(s: State, step: Step) {
    match step
    case Call(t, _) => PcOf(s, t).Out?
    case Go(t) =>
      match PcOf(s, t)
      case Out => false
      case Panicked => false
      case LockEnter => s.holder.None?            // mutex_enter blocks
      case SleepWait(_, _) => s.holder.None?      // mtsleep retakes the mutex
      case _ => true
  }

  function Goto(s: State, t: Tid, pc: Pc): State {
    s.(pcs := s.pcs[t := pc])
  }

  /** mtx_trylock returns b. */
  function Answer(s: State, t: Tid, b: bool): State {
    s.(pcs := s.pcs[t := Out], ret := s.ret[t := b])
  }

  function First(op: Op): Pc {
    match op
    case Lock => LockRead
    case TryLock => TryRead
    case Unlock => UnlockRead
    case Sleep => SleepRead
  }

  function LockStep(s: State, t: Tid): State {
    match PcOf(s, t)
    case LockRead => Goto(s, t, if s.owner == Some(t) then IncRead(false) else LockEnter)
    case LockEnter => Goto(s.(holder := Some(t)), t, LockOwn)
    case LockOwn => Goto(s.(owner := Some(t)), t, Out)
    case TryRead => Goto(s, t, if s.owner == Some(t) then IncRead(true) else TryEnter)
    case TryEnter => if s.holder.None? then Goto(s.(holder := Some(t)), t, TryOwn) else Answer(s, t, false)
    case TryOwn => Answer(s.(owner := Some(t)), t, true)
    case IncRead(try) => Goto(s, t, IncWrite(try, s.recurse))
    case IncWrite(try, r) =>
      var s' := s.(recurse := (r + 1) % WIDTH);
      if try then Answer(s', t, true) else Goto(s', t, Out)
    case _ => s
  }

  function UnlockStep(s: State, t: Tid): State {
    match PcOf(s, t)
    case UnlockRead => Goto(s, t, if s.owner == Some(t) then UnlockTest else Panicked)
    case UnlockTest => Goto(s, t, if s.recurse == 0 then UnlockClear else DecRead)
    case UnlockClear => Goto(s.(owner := None), t, UnlockExit)
    case UnlockExit => Goto(s.(holder := None), t, Out)
    case DecRead => Goto(s, t, DecWrite(s.recurse))
    case DecWrite(r) => Goto(s.(recurse := (r + WIDTH - 1) % WIDTH), t, Out)
    case _ => s
  }

  function SleepStep(s: State, t: Tid): State {
    match PcOf(s, t)
    case SleepRead => Goto(s, t, if s.owner == Some(t) then SleepSave(Abs(s).depth) else Panicked)
    case SleepSave(e) => Goto(s, t, SleepZero(e, s.recurse))
    case SleepZero(e, n) => Goto(s.(recurse := 0), t, SleepClear(e, n))
    case SleepClear(e, n) => Goto(s.(owner := None), t, SleepDrop(e, n))
    case SleepDrop(e, n) => Goto(s.(holder := None), t, SleepWait(e, n))
    case SleepWait(e, n) => Goto(s.(holder := Some(t)), t, SleepRestore(e, n))
    case SleepRestore(e, n) => Goto(s.(recurse := n), t, SleepOwn(e, n))
    case SleepOwn(_, _) => Goto(s.(owner := Some(t)), t, Out)
    case _ => s
  }

  predicate Locking(pc: Pc) {
    || pc.LockRead? || pc.LockEnter? || pc.LockOwn? || pc.TryRead? || pc.TryEnter? || pc.TryOwn?
    || pc.IncRead? || pc.IncWrite?
  }

  predicate Unlocking(pc: Pc) {
    pc.UnlockRead? || pc.UnlockTest? || pc.UnlockClear? || pc.UnlockExit? || pc.DecRead? || pc.DecWrite?
  }

  function Apply(s: State, step: Step): State
    requires Enabled(s, step)
  {
    match step
    case Call(t, op) => Goto(s, t, First(op))
    case Go(t) =>
      if Locking(PcOf(s, t)) then LockStep(s, t)
      else if Unlocking(PcOf(s, t)) then UnlockStep(s, t)
      else SleepStep(s, t)
  }

  // ---------------------------------------------------------------- the abstract lock

  /** A recursive lock: who holds it, how deep, and how deep each sleeper will hold it again. */
  datatype ALock = ALock(owner: Option<Tid>, depth: nat, asleep: map<Tid, nat>)

  datatype Label = Stutter | Take(t: Tid) | Refuse(t: Tid) | Give(t: Tid) | Drop(t: Tid) | Retake(t: Tid)

  predicate AEnabled(a: ALock, l: Label) {
    match l
    case Stutter => true
    case Take(t) => a.owner.None? || a.owner == Some(t)
    case Refuse(t) => a.owner.Some? && a.owner != Some(t)
    case Give(t) => a.owner == Some(t) && a.depth > 0
    case Drop(t) => a.owner == Some(t)
    case Retake(t) => a.owner.None? && t in a.asleep
  }

  function ANext(a: ALock, l: Label): ALock
    requires AEnabled(a, l)
  {
    match l
    case Stutter => a
    case Refuse(_) => a
    case Take(t) => ALock(Some(t), if a.owner.None? then 1 else a.depth + 1, a.asleep)
    case Give(t) => if a.depth == 1 then ALock(None, 0, a.asleep) else a.(depth := a.depth - 1)
    case Drop(t) => ALock(None, 0, a.asleep[t := a.depth])
    case Retake(t) => ALock(Some(t), a.asleep[t], a.asleep - {t})
  }

  /** The depth that the thread holding real_mtx has: msleep keeps it in a local variable for a while. */
  function Depth(s: State): nat {
    if s.holder.None? then 0
    else match PcOf(s, s.holder.value)
      case SleepClear(_, n) => n + 1
      case SleepDrop(_, n) => n + 1
      case SleepRestore(_, n) => n + 1
      case _ => s.recurse + 1
  }

  function Abs(s: State): ALock {
    ALock(s.holder, Depth(s), map t | t in s.pcs && s.pcs[t].SleepWait? :: s.pcs[t].saved + 1)
  }

  /** Where each operation takes effect on the abstract lock. */
  function LabelOf(s: State, step: Step): Label
    requires Enabled(s, step)
  {
    match step
    case Call(_, _) => Stutter
    case Go(t) =>
      match PcOf(s, t)
      case LockEnter => Take(t)
      case TryEnter => if s.holder.None? then Take(t) else Refuse(t)
      case IncWrite(_, _) => Take(t)
      case UnlockExit => Give(t)
      case DecWrite(_) => Give(t)
      case SleepDrop(_, _) => Drop(t)
      case SleepWait(_, _) => Retake(t)
      case _ => Stutter
  }

  // ---------------------------------------------------------------- the invariant

  /** t has read owner_td as itself and has not yet given it up. */
  predicate SeesOwn(pc: Pc) {
    || pc.IncRead? || pc.IncWrite? || pc.UnlockTest? || pc.UnlockClear? || pc.DecRead? || pc.DecWrite?
    || pc.SleepSave? || pc.SleepZero? || pc.SleepClear?
  }

  /** t holds real_mtx while owner_td does not name it. */
  predicate Between(pc: Pc) {
    pc.LockOwn? || pc.TryOwn? || pc.UnlockExit? || pc.SleepDrop? || pc.SleepRestore? || pc.SleepOwn?
  }

  predicate Blocked(pc: Pc) {
    pc.LockEnter? || pc.TryEnter? || pc.SleepWait? || pc.Panicked?
  }

  /** The stored recursion count is zero. */
  predicate Fresh(pc: Pc) {
    || pc.LockOwn? || pc.TryOwn? || pc.UnlockClear? || pc.UnlockExit?
    || pc.SleepClear? || pc.SleepDrop? || pc.SleepRestore?
  }

  ghost predicate ThreadInv(s: State, t: Tid) {
    var pc := PcOf(s, t);
    && (s.owner == Some(t) ==> s.holder == Some(t))
    && (s.holder == Some(t) ==> s.owner == Some(t) || (Between(pc) && s.owner.None?))
    && (SeesOwn(pc) ==> s.owner == Some(t))
    && (Between(pc) ==> s.holder == Some(t) && s.owner.None?)
    && (Blocked(pc) ==> s.holder != Some(t))
    && (Fresh(pc) ==> s.recurse == 0)
    && (pc.IncWrite? ==> s.recurse == pc.r)
    && (pc.DecRead? ==> s.recurse > 0)
    && (pc.DecWrite? ==> s.recurse == pc.r && pc.r > 0)
    && (pc.SleepSave? ==> pc.entry == s.recurse + 1)
    && (pc.SleepZero? || pc.SleepOwn? ==> s.recurse == pc.saved)
    && (pc.SleepZero? || pc.SleepClear? || pc.SleepDrop? || pc.SleepWait? || pc.SleepRestore? || pc.SleepOwn? ==>
          pc.entry == pc.saved + 1 && pc.saved < WIDTH)
  }

  ghost predicate Inv(s: State) {
    && (forall t :: ThreadInv(s, t))
    && (s.holder.None? ==> s.owner.None? && s.recurse == 0)
    && s.recurse < WIDTH
  }

  ghost predicate LockInv(s: State) {
    (s.holder.None? ==> s.owner.None? && s.recurse == 0) && s.recurse < WIDTH
  }

  /** A step of t changes the fields only while t holds real_mtx or takes it. */
  ghost predicate OnlyHolderWrites(s: State, s': State, t: Tid) {
    && (s'.owner != s.owner || s'.recurse != s.recurse ==> s.holder == Some(t))
    && (s'.holder != s.holder ==> s.holder.None? || s.holder == Some(t))
    && (s'.owner == s.owner || s'.owner == Some(t) || s'.owner.None?)
    && (s'.holder == s.holder || s'.holder == Some(t) || s'.holder.None?)
    && (forall u :: u != t ==> PcOf(s', u) == PcOf(s, u))
  }

  lemma {:induction false} LockStepKept(s: State, t: Tid)
    requires ThreadInv(s, t) && LockInv(s) && Enabled(s, Go(t)) && Locking(PcOf(s, t))
    ensures var s' := LockStep(s, t); ThreadInv(s', t) && LockInv(s') && OnlyHolderWrites(s, s', t)
  {}

  lemma {:induction false} UnlockStepKept(s: State, t: Tid)
    requires ThreadInv(s, t) && LockInv(s) && Enabled(s, Go(t)) && Unlocking(PcOf(s, t))
    ensures var s' := UnlockStep(s, t); ThreadInv(s', t) && LockInv(s') && OnlyHolderWrites(s, s', t)
  {}

  lemma {:induction false} SleepStepKept(s: State, t: Tid)
    requires ThreadInv(s, t) && LockInv(s) && Enabled(s, Go(t)) && !Locking(PcOf(s, t)) && !Unlocking(PcOf(s, t))
    ensures var s' := SleepStep(s, t); ThreadInv(s', t) && LockInv(s') && OnlyHolderWrites(s, s', t)
  {}

  lemma {:induction false} SelfKept(s: State, step: Step)
    requires ThreadInv(s, step.t) && LockInv(s) && Enabled(s, step)
    ensures var s' := Apply(s, step); ThreadInv(s', step.t) && LockInv(s') && OnlyHolderWrites(s, s', step.t)
  {
    match step
    case Call(t, op) =>
    case Go(t) =>
      if Locking(PcOf(s, t)) { LockStepKept(s, t); }
      else if Unlocking(PcOf(s, t)) { UnlockStepKept(s, t); }
      else { SleepStepKept(s, t); }
  }

  lemma {:induction false} OtherKept(s: State, s': State, t: Tid, u: Tid)
    requires ThreadInv(s, u) && LockInv(s) && OnlyHolderWrites(s, s', t) && u != t
    ensures ThreadInv(s', u)
  {}

  lemma {:induction false} StepKeepsInv(s: State, step: Step)
    requires Inv(s) && Enabled(s, step)
    ensures Inv(Apply(s, step))
  {
    assert ThreadInv(s, step.t);
    SelfKept(s, step);
    forall u ensures ThreadInv(Apply(s, step), u) {
      assert ThreadInv(s, u);
      if u != step.t { OtherKept(s, Apply(s, step), step.t, u); }
    }
  }

  // ---------------------------------------------------------------- refinement

  /** The recursion counter is about to wrap to zero. */
  predicate Overflows(s: State, step: Step) {
    step.Go? && PcOf(s, step.t).IncWrite? && PcOf(s, step.t).r == WIDTH - 1
  }

  lemma {:induction false} AsleepKept(s: State, s': State, t: Tid)
    requires OnlyHolderWrites(s, s', t)
    requires forall u :: u != t ==> (u in s.pcs <==> u in s'.pcs)
    requires !PcOf(s, t).SleepWait? && !PcOf(s', t).SleepWait?
    ensures Abs(s').asleep == Abs(s).asleep
  {
    var a, a' := Abs(s).asleep, Abs(s').asleep;
    forall u ensures u in a <==> u in a' { assert u != t ==> PcOf(s', u) == PcOf(s, u); }
    forall u | u in a ensures a[u] == a'[u] { assert PcOf(s', u) == PcOf(s, u); }
  }

  lemma {:induction false} DepthOfOther(s: State, s': State, t: Tid)
    requires LockInv(s) && OnlyHolderWrites(s, s', t) && s.holder != Some(t) && s'.holder == s.holder
    ensures Depth(s') == Depth(s)
  {}

  lemma {:induction false} LockRefines(s: State, t: Tid)
    requires ThreadInv(s, t) && LockInv(s) && Enabled(s, Go(t)) && Locking(PcOf(s, t))
    ensures var l := LabelOf(s, Go(t));
      AEnabled(Abs(s), l) && (Abs(LockStep(s, t)) == ANext(Abs(s), l) <==> !Overflows(s, Go(t)))
  {
    var s' := LockStep(s, t);
    LockStepKept(s, t);
    AsleepKept(s, s', t);
    if s.holder != Some(t) && s'.holder == s.holder { DepthOfOther(s, s', t); }
  }

  lemma {:induction false} UnlockRefines(s: State, t: Tid)
    requires ThreadInv(s, t) && LockInv(s) && Enabled(s, Go(t)) && Unlocking(PcOf(s, t))
    ensures var l := LabelOf(s, Go(t)); AEnabled(Abs(s), l) && Abs(UnlockStep(s, t)) == ANext(Abs(s), l)
  {
    var s' := UnlockStep(s, t);
    UnlockStepKept(s, t);
    AsleepKept(s, s', t);
    if s.holder != Some(t) && s'.holder == s.holder { DepthOfOther(s, s', t); }
  }

  lemma {:induction false} SleepRefines(s: State, t: Tid)
    requires ThreadInv(s, t) && LockInv(s) && Enabled(s, Go(t)) && !Locking(PcOf(s, t)) && !Unlocking(PcOf(s, t))
    ensures var l := LabelOf(s, Go(t)); AEnabled(Abs(s), l) && Abs(SleepStep(s, t)) == ANext(Abs(s), l)
  {
    var s' := SleepStep(s, t);
    SleepStepKept(s, t);
    match PcOf(s, t)
    case SleepDrop(_, n) =>
      assert Abs(s').asleep == Abs(s).asleep[t := n + 1] by { SleepersAdd(s, s', t, n); }
    case SleepWait(_, n) =>
      assert Abs(s').asleep == Abs(s).asleep - {t} by { SleepersRemove(s, s', t); }
    case _ =>
      AsleepKept(s, s', t);
      if s.holder != Some(t) && s'.holder == s.holder { DepthOfOther(s, s', t); }
  }

  lemma {:induction false} SleepersAdd(s: State, s': State, t: Tid, n: nat)
    requires s'.pcs.Keys == s.pcs.Keys + {t} && PcOf(s', t).SleepWait? && PcOf(s', t).saved == n
    requires forall u :: u != t ==> PcOf(s', u) == PcOf(s, u)
    ensures Abs(s').asleep == Abs(s).asleep[t := n + 1]
  {
    var a, a' := Abs(s).asleep[t := n + 1], Abs(s').asleep;
    forall u ensures u in a <==> u in a' { assert u != t ==> PcOf(s', u) == PcOf(s, u); }
    forall u | u in a ensures a[u] == a'[u] { assert u != t ==> PcOf(s', u) == PcOf(s, u); }
  }

  lemma {:induction false} SleepersRemove(s: State, s': State, t: Tid)
    requires s'.pcs.Keys == s.pcs.Keys && t in s.pcs && !PcOf(s', t).SleepWait?
    requires forall u :: u != t ==> PcOf(s', u) == PcOf(s, u)
    ensures Abs(s').asleep == Abs(s).asleep - {t}
  {
    var a, a' := Abs(s).asleep - {t}, Abs(s').asleep;
    forall u ensures u in a <==> u in a' { assert u != t ==> PcOf(s', u) == PcOf(s, u); }
    forall u | u in a ensures a[u] == a'[u] { assert u != t ==> PcOf(s', u) == PcOf(s, u); }
  }

  /** Every field access is either invisible or one action of the abstract recursive lock;
    the only exception is the counter wrapping at 2^32 nested locks. */
  lemma {:induction false} StepRefines(s: State, step: Step)
    requires Inv(s) && Enabled(s, step)
    ensures var l := LabelOf(s, step);
      AEnabled(Abs(s), l) && (Abs(Apply(s, step)) == ANext(Abs(s), l) <==> !Overflows(s, step))
  {
    assert ThreadInv(s, step.t);
    match step
    case Call(t, op) =>
      SelfKept(s, step);
      AsleepKept(s, Apply(s, step), t);
      if s.holder != Some(t) { DepthOfOther(s, Apply(s, step), t); }
    case Go(t) =>
      if Locking(PcOf(s, t)) { LockRefines(s, t); }
      else if Unlocking(PcOf(s, t)) { UnlockRefines(s, t); }
      else { SleepRefines(s, t); }
  }

  // ---------------------------------------------------------------- runs

  /** mtx_init */
  predicate Init(s: State) {
    s.owner.None? && s.recurse == 0 && s.holder.None? && s.pcs == map[]
  }

  predicate CanExec(s: State, steps: seq<Step>)
    decreases |steps|
  {
    steps == [] || (Enabled(s, steps[0]) && CanExec(Apply(s, steps[0]), steps[1..]))
  }

  function Exec(s: State, steps: seq<Step>): State
    requires CanExec(s, steps)
    decreases |steps|
  {
    if steps == [] then s else Exec(Apply(s, steps[0]), steps[1..])
  }

  predicate NoOverflow(s: State, steps: seq<Step>)
    requires CanExec(s, steps)
    decreases |steps|
  {
    steps == [] || (!Overflows(s, steps[0]) && NoOverflow(Apply(s, steps[0]), steps[1..]))
  }

  /** The abstract actions of a run. */
  function Labels(s: State, steps: seq<Step>): (ls: seq<Label>)
    requires CanExec(s, steps)
    ensures |ls| == |steps|
    decreases |steps|
  {
    if steps == [] then [] else [LabelOf(s, steps[0])] + Labels(Apply(s, steps[0]), steps[1..])
  }

  predicate ACanExec(a: ALock, ls: seq<Label>)
    decreases |ls|
  {
    ls == [] || (AEnabled(a, ls[0]) && ACanExec(ANext(a, ls[0]), ls[1..]))
  }

  function AExec(a: ALock, ls: seq<Label>): ALock
    requires ACanExec(a, ls)
    decreases |ls|
  {
    if ls == [] then a else AExec(ANext(a, ls[0]), ls[1..])
  }

  lemma {:induction false} ExecInv(s: State, steps: seq<Step>)
    requires Inv(s) && CanExec(s, steps)
    ensures Inv(Exec(s, steps))
    decreases |steps|
  {
    if steps != [] {
      StepKeepsInv(s, steps[0]);
      ExecInv(Apply(s, steps[0]), steps[1..]);
    }
  }

  /** Every run of the code is a run of the abstract recursive lock. */
  lemma {:induction false} RunRefines(s: State, steps: seq<Step>)
    requires Inv(s) && CanExec(s, steps) && NoOverflow(s, steps)
    ensures ACanExec(Abs(s), Labels(s, steps)) && AExec(Abs(s), Labels(s, steps)) == Abs(Exec(s, steps))
    decreases |steps|
  {
    if steps != [] {
      StepRefines(s, steps[0]);
      StepKeepsInv(s, steps[0]);
      RunRefines(Apply(s, steps[0]), steps[1..]);
      assert Labels(s, steps)[1..] == Labels(Apply(s, steps[0]), steps[1..]);
    }
  }

  // ---------------------------------------------------------------- what a call has done when it returns

  /** How often t holds the lock. */
  function Mine(s: State, t: Tid): nat {
    if Abs(s).owner == Some(t) then Abs(s).depth else 0
  }

  function Result(s: State, t: Tid): bool {
    t in s.ret && s.ret[t]
  }

  /** What t did to the abstract lock in a run. */
  function Acts(s: State, steps: seq<Step>, t: Tid): seq<Label>
    requires CanExec(s, steps)
    decreases |steps|
  {
    if steps == [] then []
    else
      var l := LabelOf(s, steps[0]);
      (if l.Stutter? || l.t != t then [] else [l]) + Acts(Apply(s, steps[0]), steps[1..], t)
  }

  /** A call that was made at depth `entry` has returned at depth `now`, having done `acts` and returned `b`. */
  predicate Done(t: Tid, op: Op, entry: nat, now: nat, acts: seq<Label>, b: bool) {
    match op
    case Lock => acts == [Take(t)] && now == entry % WIDTH + 1
    case TryLock =>
      if b then acts == [Take(t)] && now == entry % WIDTH + 1 else acts == [Refuse(t)] && entry == 0 && now == 0
    case Unlock => acts == [Give(t)] && entry > 0 && now == entry - 1
    case Sleep => acts == [Drop(t), Retake(t)] && entry > 0 && now == entry
  }

  /** t is inside a call of op that it made at depth `entry`, and has done `acts` since. */
  ghost predicate InCall(s: State, t: Tid, op: Op, entry: nat, acts: seq<Label>) {
    var now := Mine(s, t);
    match PcOf(s, t)
    case Out => Done(t, op, entry, now, acts, Result(s, t))
    case LockRead => op == Lock && now == entry && acts == []
    case LockEnter => op == Lock && entry == 0 && acts == []
    case LockOwn => op == Lock && entry == 0 && acts == [Take(t)]
    case TryRead => op == TryLock && now == entry && acts == []
    case TryEnter => op == TryLock && entry == 0 && acts == []
    case TryOwn => op == TryLock && entry == 0 && acts == [Take(t)]
    case IncRead(try) => op == (if try then TryLock else Lock) && now == entry && acts == []
    case IncWrite(try, _) => op == (if try then TryLock else Lock) && now == entry && acts == []
    case Panicked => (op == Unlock || op == Sleep) && entry == 0 && acts == []
    case SleepRead => op == Sleep && now == entry && acts == []
    case SleepSave(_) => op == Sleep && now == entry && acts == []
    case SleepZero(e, _) => op == Sleep && e == entry && acts == []
    case SleepClear(e, _) => op == Sleep && e == entry && acts == []
    case SleepDrop(e, _) => op == Sleep && e == entry && acts == []
    case SleepWait(e, _) => op == Sleep && e == entry && acts == [Drop(t)]
    case SleepRestore(e, _) => op == Sleep && e == entry && acts == [Drop(t), Retake(t)]
    case SleepOwn(e, _) => op == Sleep && e == entry && acts == [Drop(t), Retake(t)]
    case _ => op == Unlock && now == entry && acts == []
  }

  /** What t holds as seen from its own fields. */
  lemma {:induction false} MineIs(s: State, t: Tid)
    ensures s.holder != Some(t) ==> Mine(s, t) == 0
    ensures s.holder == Some(t) ==> Mine(s, t) == Depth(s)
  {}

  lemma {:induction false} OwnLockStep(s: State, t: Tid, op: Op, entry: nat, acts: seq<Label>)
    requires ThreadInv(s, t) && LockInv(s) && Enabled(s, Go(t)) && Locking(PcOf(s, t)) && InCall(s, t, op, entry, acts)
    ensures var l := LabelOf(s, Go(t));
      InCall(LockStep(s, t), t, op, entry, acts + if l.Stutter? then [] else [l])
  {
    MineIs(s, t);
    MineIs(LockStep(s, t), t);
  }

  lemma {:induction false} OwnUnlockStep(s: State, t: Tid, op: Op, entry: nat, acts: seq<Label>)
    requires ThreadInv(s, t) && LockInv(s) && Enabled(s, Go(t)) && Unlocking(PcOf(s, t))
    requires InCall(s, t, op, entry, acts)
    ensures var l := LabelOf(s, Go(t));
      InCall(UnlockStep(s, t), t, op, entry, acts + if l.Stutter? then [] else [l])
  {
    MineIs(s, t);
    MineIs(UnlockStep(s, t), t);
  }

  lemma {:induction false} OwnSleepStep(s: State, t: Tid, op: Op, entry: nat, acts: seq<Label>)
    requires ThreadInv(s, t) && LockInv(s) && Enabled(s, Go(t)) && InCall(s, t, op, entry, acts)
    requires !Locking(PcOf(s, t)) && !Unlocking(PcOf(s, t))
    ensures var l := LabelOf(s, Go(t));
      InCall(SleepStep(s, t), t, op, entry, acts + if l.Stutter? then [] else [l])
  {
    MineIs(s, t);
    MineIs(SleepStep(s, t), t);
  }

  /** Steps of other threads do not change what t holds, where it is and what it was answered. */
  lemma {:induction false} OtherStep(s: State, step: Step, t: Tid)
    requires Inv(s) && Enabled(s, step) && step.t != t
    ensures var s' := Apply(s, step); Mine(s', t) == Mine(s, t) && PcOf(s', t) == PcOf(s, t)
  {
    var s' := Apply(s, step);
    assert ThreadInv(s, step.t);
    SelfKept(s, step);
    MineIs(s, t);
    MineIs(s', t);
    if s.holder == Some(t) { DepthOfOther(s, s', step.t); }
  }

  lemma {:induction false} OtherResult(s: State, step: Step, t: Tid)
    requires Enabled(s, step) && step.t != t
    ensures Result(Apply(s, step), t) == Result(s, t)
  {}

  lemma {:induction false} SameCall(s: State, s': State, t: Tid, op: Op, entry: nat, acts: seq<Label>)
    requires InCall(s, t, op, entry, acts) && Mine(s', t) == Mine(s, t) && PcOf(s', t) == PcOf(s, t)
    requires Result(s', t) == Result(s, t)
    ensures InCall(s', t, op, entry, acts)
  {}

  predicate NoCall(steps: seq<Step>, t: Tid) {
    forall i :: 0 <= i < |steps| ==> !(steps[i].Call? && steps[i].t == t)
  }

  lemma {:induction false} ActsJoin(a: seq<Label>, b: seq<Label>, c: seq<Label>)
    ensures a + b + c == a + (b + c)
  {}

  lemma {:induction false} CallGoesOn(s: State, steps: seq<Step>, t: Tid, op: Op, entry: nat, acts: seq<Label>)
    requires Inv(s) && CanExec(s, steps) && NoCall(steps, t) && InCall(s, t, op, entry, acts)
    ensures InCall(Exec(s, steps), t, op, entry, acts + Acts(s, steps, t))
    decreases |steps|
  {
    if steps == [] {
      assert acts + [] == acts;
    } else {
      var s', l := Apply(s, steps[0]), LabelOf(s, steps[0]);
      var more := if l.Stutter? || l.t != t then [] else [l];
      OneMove(s, steps[0], t, op, entry, acts);
      StepKeepsInv(s, steps[0]);
      assert NoCall(steps[1..], t);
      CallGoesOn(s', steps[1..], t, op, entry, acts + more);
      ActsJoin(acts, more, Acts(s', steps[1..], t));
    }
  }

  lemma {:induction false} OneMove(s: State, step: Step, t: Tid, op: Op, entry: nat, acts: seq<Label>)
    requires Inv(s) && Enabled(s, step) && (step.t == t ==> step.Go?) && InCall(s, t, op, entry, acts)
    ensures var l := LabelOf(s, step);
      InCall(Apply(s, step), t, op, entry, acts + if l.Stutter? || l.t != t then [] else [l])
  {
    assert acts + [] == acts;
    if step.t != t {
      OtherStep(s, step, t);
      OtherResult(s, step, t);
      SameCall(s, Apply(s, step), t, op, entry, acts);
    } else {
      assert ThreadInv(s, t);
      if Locking(PcOf(s, t)) { OwnLockStep(s, t, op, entry, acts); }
      else if Unlocking(PcOf(s, t)) { OwnUnlockStep(s, t, op, entry, acts); }
      else { OwnSleepStep(s, t, op, entry, acts); }
    }
  }

  /** A call of op by t in a run: made after `before`, followed by `after` without another call of t. */
  ghost predicate Calling(s: State, before: seq<Step>, t: Tid, op: Op, after: seq<Step>) {
    && Init(s) && CanExec(s, before) && Enabled(Exec(s, before), Call(t, op))
    && CanExec(Apply(Exec(s, before), Call(t, op)), after) && NoCall(after, t)
  }

  lemma {:induction false} CallIsInside(s: State, before: seq<Step>, t: Tid, op: Op, after: seq<Step>)
    requires Calling(s, before, t, op, after)
    ensures var r := Exec(s, before); var r' := Apply(r, Call(t, op));
      Inv(Exec(r', after)) && InCall(Exec(r', after), t, op, Mine(r, t), Acts(r', after, t))
  {
    ExecInv(s, before);
    var r := Exec(s, before);
    var r' := Apply(r, Call(t, op));
    StepKeepsInv(r, Call(t, op));
    assert ThreadInv(r, t);
    MineIs(r, t);
    MineIs(r', t);
    assert InCall(r', t, op, Mine(r, t), []);
    CallGoesOn(r', after, t, op, Mine(r, t), []);
    assert [] + Acts(r', after, t) == Acts(r', after, t);
    ExecInv(r', after);
  }

  /** In every run, when a call returns: mtx_lock has taken the lock once, and its caller holds it once more
    than when it called (the counter wraps at 2^32); mtx_trylock has done that and returned 1, or was refused
    because another thread had the lock, and returned 0; _mtx_unlock has given it back once; msleep has
    dropped it, taken it back, and holds it as often as before.  An unlock or a sleep does not return to a
    caller that does not hold the lock. */
  lemma {:induction false} CallReturns(s: State, before: seq<Step>, t: Tid, op: Op, after: seq<Step>)
    requires Calling(s, before, t, op, after)
    requires PcOf(Exec(Apply(Exec(s, before), Call(t, op)), after), t).Out?
    ensures var r := Exec(s, before); var r' := Apply(r, Call(t, op)); var e := Exec(r', after);
      Done(t, op, Mine(r, t), Mine(e, t), Acts(r', after, t), Result(e, t))
  {
    CallIsInside(s, before, t, op, after);
  }

  /** While a call is under way its thread can go on, except that mtx_lock and msleep wait while another
    thread has the lock, and that an unlock or a sleep without the lock has panicked. */
  lemma {:induction false} CallBlocksIff(s: State, before: seq<Step>, t: Tid, op: Op, after: seq<Step>)
    requires Calling(s, before, t, op, after)
    requires !PcOf(Exec(Apply(Exec(s, before), Call(t, op)), after), t).Out?
    ensures var r := Exec(s, before); var e := Exec(Apply(r, Call(t, op)), after);
      && (PcOf(e, t).Panicked? ==> (op == Unlock || op == Sleep) && Mine(r, t) == 0)
      && (Enabled(e, Go(t)) <==> !PcOf(e, t).Panicked? && !(AtWait(PcOf(e, t)) && Abs(e).owner.Some?))
      && (AtWait(PcOf(e, t)) ==> (op == Lock || op == Sleep) && Abs(e).owner != Some(t))
  {
    CallIsInside(s, before, t, op, after);
    assert ThreadInv(Exec(Apply(Exec(s, before), Call(t, op)), after), t);
  }

  /** At mutex_enter, or at the end of mtsleep. */
  predicate AtWait(pc: Pc) {
    pc.LockEnter? || pc.SleepWait?
  }

  /** How many statements of its own a call has left at most. */
  function Left(pc: Pc): nat {
    match pc
    case Out => 0
    case Panicked => 0
    case LockRead => 3
    case LockEnter => 2
    case LockOwn => 1
    case TryRead => 3
    case TryEnter => 2
    case TryOwn => 1
    case IncRead(_) => 2
    case IncWrite(_, _) => 1
    case UnlockRead => 4
    case UnlockTest => 3
    case UnlockClear => 2
    case UnlockExit => 1
    case DecRead => 2
    case DecWrite(_) => 1
    case SleepRead => 8
    case SleepSave(_) => 7
    case SleepZero(_, _) => 6
    case SleepClear(_, _) => 5
    case SleepDrop(_, _) => 4
    case SleepWait(_, _) => 3
    case SleepRestore(_, _) => 2
    case SleepOwn(_, _) => 1
  }

  lemma {:induction false} GoAdvances(s: State, t: Tid)
    requires Enabled(s, Go(t))
    ensures Left(PcOf(Apply(s, Go(t)), t)) < Left(PcOf(s, t))
  {}

  /** The unsynchronised read in mtx_lock_held is right for the thread that makes it, although
    it may be stale for everybody else; and a thread never waits for a mutex it holds. */
  lemma {:induction false} HeldTestIsRight(s: State, steps: seq<Step>, t: Tid)
    requires Init(s) && CanExec(s, steps)
    ensures var r := Exec(s, steps); var pc := PcOf(r, t);
      && (r.owner == Some(t) ==> r.holder == Some(t))
      && (pc.Out? || pc.LockRead? || pc.TryRead? || pc.UnlockRead? || pc.SleepRead? ==>
            (r.owner == Some(t) <==> Abs(r).owner == Some(t)))
      && (pc.LockEnter? || pc.TryEnter? ==> Abs(r).owner != Some(t))
  {
    ExecInv(s, steps);
    assert ThreadInv(Exec(s, steps), t);
  }

  /** Between calls mtx_recurse is the depth minus one, and an unlock or a sleep panics
    exactly when its caller does not hold the lock. */
  lemma {:induction false} BetweenCalls(s: State, steps: seq<Step>, t: Tid)
    requires Init(s) && CanExec(s, steps)
    ensures var r := Exec(s, steps); var pc := PcOf(r, t);
      && (pc.Out? && r.holder == Some(t) ==> r.owner == Some(t) && Abs(r).depth == r.recurse + 1)
      && (pc.UnlockRead? || pc.SleepRead? ==>
            (PcOf(Apply(r, Go(t)), t).Panicked? <==> Abs(r).owner != Some(t)))
  {
    ExecInv(s, steps);
    assert ThreadInv(Exec(s, steps), t);
  }

  /** msleep hands the lock back at the depth at which it was entered. */
  lemma {:induction false} SleepRestoresDepth(s: State, steps: seq<Step>, t: Tid)
    requires Init(s) && CanExec(s, steps)
    ensures var r := Exec(s, steps);
      && (PcOf(r, t).SleepRead? && r.owner == Some(t) ==>
            PcOf(Apply(r, Go(t)), t) == SleepSave(Abs(r).depth))
      && (PcOf(r, t).SleepOwn? ==>
            var r' := Apply(r, Go(t));
            PcOf(r', t).Out? && Abs(r').owner == Some(t) && Abs(r').depth == PcOf(r, t).entry)
  {
    ExecInv(s, steps);
    assert ThreadInv(Exec(s, steps), t);
  }
}
