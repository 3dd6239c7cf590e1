/** The nesting counter over every run of any number of threads. */
module SplTheorems {
  import opened Basics
  import opened SplMutex

  /** A thread is in at most one kind of sleep. */
  ghost predicate Shape(s: State) {
    && (forall t :: t in s.parked ==> t !in s.waits && t !in s.naps)
    && (forall t :: t in s.waits ==> t !in s.naps)
  }

  // ---------------------------------------------------------------- what a step changes

  /** How the reasons of thread t and the counter changed. */
  datatype Change = Quiet | Gain(r: Reason) | Drop(r: Reason) | Got(m: Id) | Parks(m: Id) | Returns(m: Id)

  function Answer(s: State, t: Thread, m: Id, wait: bool): Change
    requires m in s.mtx
  {
    if s.mtx[m].owner.None? then Gain(Own(m)) else if s.mtx[m].owner != Some(t) && wait then Gain(Wait(t)) else Quiet
  }

  function ChangeOf(s: State, step: Step): Change
    requires Enabled(s, step)
  {
    match step
    case Enter(t, i) => Gain(Tok(Token(t, i)))
    case Leave(t, i) => Drop(Tok(Token(t, i)))
    case Lock(t, m, inThread) => Answer(s, t, m, inThread)
    case Try(t, m) => Answer(s, t, m, false)
    case Unlock(t, m) => if s.mtx[m].owner == Some(t) && s.mtx[m].recurse == 0 then Drop(Own(m)) else Quiet
    case Resume(t) => if s.mtx[s.waits[t]].owner.None? then Got(s.waits[t]) else Quiet
    case Sleep(t, m) => if s.mtx[m].owner == Some(t) then Parks(m) else Quiet
    case Return(t) => if t !in s.naps && s.mtx[s.parked[t].m].owner.None? then Returns(s.parked[t].m) else Quiet
  }

  ghost predicate Changed(s: State, s': State, t: Thread, ch: Change) {
    match ch
    case Quiet => s'.parked == s.parked && s'.counter == s.counter && s'.lost == s.lost &&
      forall q {:trigger Whose(s', q)} :: Whose(s', q) == Whose(s, q)
    case Gain(r) => Adds(s, s', t, r) && s'.counter == s.counter + 1 && s'.lost == s.lost
    case Drop(r) => Adds(s', s, t, r) && s'.counter == s.counter - 1 && s'.lost == s.lost
    case Got(m) => Swaps(s, s', t, Wait(t), Own(m)) && s'.parked == s.parked && t !in s.parked &&
      s'.counter == s.counter && s'.lost == s.lost
    case Parks(m) =>
      && Swaps(s, s', t, Own(m), Back(t)) && t !in s.parked && t in s'.parked &&
           s'.parked == s.parked[t := s'.parked[t]]
      && s'.parked[t].counter == s.counter && s'.counter == 0 && s'.lost == s.lost
    case Returns(m) =>
      && Swaps(s, s', t, Back(t), Own(m)) && t in s.parked && s'.parked == s.parked - {t}
      && s'.counter == s.parked[t].counter && s'.lost == s.lost + s.counter
  }

  lemma {:induction false} TokenChanges(s: State, step: Step)
    requires Enabled(s, step) && !Apply(s, step).panicked && (step.Enter? || step.Leave?)
    ensures Changed(s, Apply(s, step), step.t, ChangeOf(s, step))
  {}

  lemma {:induction false} AskChanges(s: State, t: Thread, m: Id, wait: bool)
    requires Awake(s, t) && m in s.mtx && !Ask(s, t, m, wait).panicked
    ensures Changed(s, Ask(s, t, m, wait), t, Answer(s, t, m, wait))
  {}

  lemma {:induction false} UnlockChanges(s: State, step: Step)
    requires Enabled(s, step) && !Apply(s, step).panicked && step.Unlock?
    ensures Changed(s, Apply(s, step), step.t, ChangeOf(s, step))
  {}

  lemma {:induction false} WakeChanges(s: State, step: Step)
    requires Shape(s) && Enabled(s, step) && (step.Resume? || step.Return?)
    ensures Changed(s, Apply(s, step), step.t, ChangeOf(s, step))
  {}

  lemma {:induction false} SleepChanges(s: State, step: Step)
    requires Enabled(s, step) && !Apply(s, step).panicked && step.Sleep?
    ensures Changed(s, Apply(s, step), step.t, ChangeOf(s, step))
  {}

  lemma {:induction false} AskShape(s: State, t: Thread, m: Id, wait: bool)
    requires Shape(s) && Awake(s, t) && m in s.mtx
    ensures Shape(Ask(s, t, m, wait))
  {}

  lemma {:induction false} SleepShape(s: State, step: Step)
    requires Shape(s) && Enabled(s, step) && (step.Sleep? || step.Return? || step.Resume?)
    ensures Shape(Apply(s, step))
  {}

  lemma {:induction false} StepShape(s: State, step: Step)
    requires Shape(s) && Enabled(s, step)
    ensures Shape(Apply(s, step))
  {
    if step.Lock? || step.Try? { AskShape(s, step.t, step.m, step.Lock? && step.inThread); }
    else if step.Sleep? || step.Return? || step.Resume? { SleepShape(s, step); }
  }

  lemma {:induction false} StepChanges(s: State, step: Step)
    requires Shape(s) && Enabled(s, step) && !Apply(s, step).panicked
    ensures Changed(s, Apply(s, step), step.t, ChangeOf(s, step)) && Shape(Apply(s, step))
  {
    StepShape(s, step);
    if step.Enter? || step.Leave? { TokenChanges(s, step); }
    else if step.Lock? || step.Try? { AskChanges(s, step.t, step.m, step.Lock? && step.inThread); }
    else if step.Unlock? { UnlockChanges(s, step); }
    else if step.Sleep? { SleepChanges(s, step); }
    else { WakeChanges(s, step); }
  }

  // ---------------------------------------------------------------- conservation

  /** The counts that threads inside msleep have put aside. */
  ghost function Aside(parked: map<Thread, Saved>): nat {
    if parked == map[] then 0 else var t :| t in parked; parked[t].counter + Aside(parked - {t})
  }

  lemma {:induction false} AsideWithout(parked: map<Thread, Saved>, t: Thread)
    requires t in parked
    ensures Aside(parked) == parked[t].counter + Aside(parked - {t})
    decreases |parked|
  {
    var u :| u in parked && Aside(parked) == parked[u].counter + Aside(parked - {u});
    if u != t {
      AsideWithout(parked - {u}, t);
      AsideWithout(parked - {t}, u);
      assert parked - {u} - {t} == parked - {t} - {u};
    }
  }

  /** Nothing is counted twice and nothing appears: what is missing is what returns from msleep overwrote. */
  ghost predicate Law(s: State) {
    s.counter + Aside(s.parked) + s.lost == |All(s)|
  }

  lemma {:induction false} ParkKeepsLaw(s: State, s': State, t: Thread, m: Id)
    requires Changed(s, s', t, Parks(m)) && Law(s)
    ensures Law(s')
  {
    SwapCounts(s, s', t, Own(m), Back(t));
    AsideWith(s.parked, t, s'.parked[t]);
  }

  lemma {:induction false} AsideWith(parked: map<Thread, Saved>, t: Thread, v: Saved)
    requires t !in parked
    ensures Aside(parked[t := v]) == v.counter + Aside(parked)
  {
    AsideWithout(parked[t := v], t);
    assert parked[t := v] - {t} == parked;
  }

  lemma {:induction false} ReturnKeepsLaw(s: State, s': State, t: Thread, m: Id)
    requires Changed(s, s', t, Returns(m)) && Law(s)
    ensures Law(s')
  {
    SwapCounts(s, s', t, Back(t), Own(m));
    AsideWithout(s.parked, t);
  }

  lemma {:induction false} ChangeKeepsLaw(s: State, s': State, t: Thread, ch: Change)
    requires Changed(s, s', t, ch) && Law(s)
    ensures Law(s')
  {
    match ch
    case Quiet => SameCounts(s, s');
    case Gain(r) => AddCounts(s, s', t, r);
    case Drop(r) => AddCounts(s', s, t, r);
    case Got(m) => SwapCounts(s, s', t, Wait(t), Own(m));
    case Parks(m) => ParkKeepsLaw(s, s', t, m);
    case Returns(m) => ReturnKeepsLaw(s, s', t, m);
  }

  // ---------------------------------------------------------------- balance

  lemma {:induction false} ParkingBalance(s: State, s': State, t: Thread, m: Id)
    requires Changed(s, s', t, Parks(m)) && Good(s)
    ensures Balanced(s') <==> Alone(s, t)
    ensures Alone(s, t) ==> s'.parked[t].counter == |Mine(s', t)|
  {
    ParkCounts(s, s', t, Own(m), s'.parked[t]);
    SwapCounts(s, s', t, Own(m), Back(t));
    LeftOver(Present(s), Mine(s, t));
  }

  lemma {:induction false} LeftOver(a: set<Reason>, b: set<Reason>)
    requires b <= a
    ensures |a - b| == 0 <==> a <= b
    ensures a <= b ==> |a| == |b|
  {
    if a <= b { assert a == b && a - b == {}; }
    else { var x :| x in a && x !in b; assert x in a - b; }
  }

  lemma {:induction false} ReturnBalance(s: State, s': State, t: Thread, m: Id)
    requires Changed(s, s', t, Returns(m)) && Good(s)
    ensures Balanced(s') <==> Alone(s, t)
    ensures Alone(s, t) <==> s.counter == 0
  {
    UnparkCounts(s, s', t, Own(m));
    SwapCounts(s, s', t, Back(t), Own(m));
    assert |Present(s')| == |Present(s)| + |Mine(s', t)|;
    assert Alone(s, t) <==> Present(s) == {} by {
      if Alone(s, t) { assert Present(s) == Present(s) * Mine(s, t); }
    }
  }

  predicate Crossing(ch: Change) {
    ch.Parks? || ch.Returns?
  }

  lemma {:induction false} OtherBalance(s: State, s': State, t: Thread, ch: Change)
    requires Changed(s, s', t, ch) && Balanced(s) && !Crossing(ch)
    ensures Balanced(s')
  {
    match ch
    case Quiet => SameCounts(s, s');
    case Gain(r) => AddCounts(s, s', t, r);
    case Drop(r) => AddCounts(s', s, t, r);
    case Got(m) => GotCounts(s, s', t, Wait(t), Own(m));
  }

  lemma {:induction false} ChangeBalance(s: State, s': State, t: Thread, ch: Change)
    requires Changed(s, s', t, ch) && Good(s)
    ensures Balanced(s') <==> (Crossing(ch) ==> Alone(s, t))
  {
    if ch.Parks? { ParkingBalance(s, s', t, ch.m); }
    else if ch.Returns? { ReturnBalance(s, s', t, ch.m); }
    else { OtherBalance(s, s', t, ch); }
  }

  /** The counts that the others inside msleep have saved are still right. */
  lemma {:induction false} ChangeSaved(s: State, s': State, t: Thread, ch: Change, u: Thread)
    requires Changed(s, s', t, ch) && u != t && u in s'.parked
    ensures u in s.parked && s'.parked[u] == s.parked[u] && Mine(s', u) == Mine(s, u)
  {
    OtherMine(s, s', t, u);
  }

  lemma {:induction false} ChangeGood(s: State, s': State, t: Thread, ch: Change)
    requires Changed(s, s', t, ch) && Good(s) && Shape(s') && (Crossing(ch) ==> Alone(s, t))
    ensures Good(s')
  {
    ChangeBalance(s, s', t, ch);
    forall u | u in s'.parked ensures s'.parked[u].counter == |Mine(s', u)| {
      if u != t { ChangeSaved(s, s', t, ch, u); }
      else if ch.Parks? { ParkingBalance(s, s', t, ch.m); }
      else { SameCounts(s, s'); }
    }
  }

  // ---------------------------------------------------------------- runs

  /** Nothing owned, nobody asleep. */
  ghost predicate Init(s: State) {
    && s.counter == 0 && s.waits == map[] && s.parked == map[] && s.naps == {} && s.tokens == {} && s.lost == 0 &&
         !s.panicked
    && (forall m :: m in s.mtx ==> s.mtx[m].owner.None? && s.mtx[m].recurse == 0)
  }

  /** Every step can be taken, and none panics. */
  predicate CanExec(s: State, steps: seq<Step>)
    decreases |steps|
  {
    steps == [] || (Enabled(s, steps[0]) && !Apply(s, steps[0]).panicked && CanExec(Apply(s, steps[0]), steps[1..]))
  }

  function Exec(s: State, steps: seq<Step>): State
    requires CanExec(s, steps)
    decreases |steps|
  {
    if steps == [] then s else Exec(Apply(s, steps[0]), steps[1..])
  }

  /** The counter is right after every step. */
  predicate StaysBalanced(s: State, steps: seq<Step>)
    requires CanExec(s, steps)
    decreases |steps|
  {
    Balanced(s) && (steps == [] || StaysBalanced(Apply(s, steps[0]), steps[1..]))
  }

  /** Whenever a thread gives up or takes back a mutex in msleep, every other thread outside msleep owns nothing,
    waits for nothing and has no outstanding atomic_lock. */
  predicate SleepsAlone(s: State, steps: seq<Step>)
    requires CanExec(s, steps)
    decreases |steps|
  {
    steps == [] || ((Crosses(s, steps[0]) ==> Alone(s, steps[0].t)) && SleepsAlone(Apply(s, steps[0]), steps[1..]))
  }

  lemma {:induction false} InitGood(s: State)
    requires Init(s)
    ensures Good(s) && Shape(s) && Law(s)
  {
    assert All(s) == {} && Present(s) == {} by { assert forall r :: Whose(s, r).None?; }
  }

  lemma {:induction false} GoodRun(s: State, steps: seq<Step>)
    requires Good(s) && CanExec(s, steps)
    ensures StaysBalanced(s, steps) <==> SleepsAlone(s, steps)
    ensures SleepsAlone(s, steps) ==> Good(Exec(s, steps))
    decreases |steps|
  {
    if steps != [] {
      var s', t, ch := Apply(s, steps[0]), steps[0].t, ChangeOf(s, steps[0]);
      StepChanges(s, steps[0]);
      ChangeBalance(s, s', t, ch);
      if Crossing(ch) ==> Alone(s, t) {
        ChangeGood(s, s', t, ch);
        GoodRun(s', steps[1..]);
      }
    }
  }

  /** In every run of any number of threads, the counter counts the mutexes owned by threads outside msleep, the
    waiters inside mtx_lock and the outstanding atomic_locks after every step, if and only if every thread enters and
    leaves msleep alone.  Then no step can panic for an invalid count. */
  lemma {:induction false} CounterIff(s: State, steps: seq<Step>)
    requires Init(s) && CanExec(s, steps)
    ensures StaysBalanced(s, steps) <==> SleepsAlone(s, steps)
    ensures SleepsAlone(s, steps) ==> Good(Exec(s, steps))
  {
    InitGood(s);
    GoodRun(s, steps);
  }

  /** In every run whatsoever the counter, what is put aside in msleep and what was overwritten add up to the
    reasons. */
  lemma {:induction false} Conservation(s: State, steps: seq<Step>)
    requires Shape(s) && Law(s) && CanExec(s, steps)
    ensures Law(Exec(s, steps))
    decreases |steps|
  {
    if steps != [] {
      StepChanges(s, steps[0]);
      ChangeKeepsLaw(s, Apply(s, steps[0]), steps[0].t, ChangeOf(s, steps[0]));
      Conservation(Apply(s, steps[0]), steps[1..]);
    }
  }

  /** In a good state a call panics exactly at the limit of the counter or on a mutex that was not initialised. */
  lemma {:induction false} PanicIff(s: State, step: Step)
    requires Good(s) && Enabled(s, step)
    ensures Apply(s, step).panicked <==>
      match step
      case Enter(_, _) => s.counter == LIMIT - 1
      case Lock(_, m, _) => Fails(s, m)
      case Try(_, m) => Fails(s, m)
      case Unlock(_, m) => Fails(s, m)
      case Sleep(_, m) => Fails(s, m)
      case _ => false
  {
    match step
    case Leave(t, i) => assert Whose(s, Tok(Token(t, i))) == Some(t) && Tok(Token(t, i)) in Present(s);
    case Unlock(t, m) => if s.mtx[m].owner == Some(t) { assert Whose(s, Own(m)) == Some(t) && Own(m) in Present(s); }
    case _ =>
  }

  // ---------------------------------------------------------------- the interrupt level

  /** The level of thread t is raised exactly while it has a reason, and `base` is what it will return to. */
  predicate LevelInv(s: State, t: Thread, base: int) {
    t in s.lv &&
    if t in s.parked then s.parked[t].spl == base && s.lv[t] == HIGH
    else if Mine(s, t) == {} then s.lv[t] == base
    else s.lv[t] == HIGH && s.spl == base
  }

  lemma {:induction false} OwnCount(s: State, t: Thread)
    requires Good(s) && Alone(s, t) && t !in s.parked
    ensures s.counter == |Mine(s, t)|
  {
    assert Present(s) == Mine(s, t);
  }

  lemma {:induction false} OwnGain(s: State, s': State, t: Thread, r: Reason)
    requires Adds(s, s', t, r)
    ensures |Mine(s', t)| == |Mine(s, t)| + 1
  {
    AddCard(Mine(s, t), Mine(s', t), r);
  }

  /** What a step does to levels, in terms of the counter. */
  ghost predicate Levels(s: State, s': State, t: Thread, ch: Change, step: Step)
    requires t in s.lv && Changed(s, s', t, ch)
  {
    && t in s'.lv && (forall u :: u != t && u in s.lv ==> u in s'.lv && s'.lv[u] == s.lv[u])
    && (ch.Returns? ==> s'.spl == s.parked[t].spl && s'.lv[t] == s.lv[t])
    && (!ch.Returns? && s.counter > 0 ==> s'.spl == s.spl)
    && (ch.Gain? ==> s'.lv[t] == HIGH && (s.counter == 0 ==> s'.spl == s.lv[t]))
    && (ch.Drop? ==> s'.lv[t] == if s'.counter == 0 then s.spl else if step.Leave? then s.lv[t] else HIGH)
    && (ch.Got? ==> s'.lv[t] == s.lv[t])
    && (ch.Quiet? ==> s'.lv[t] == if step.Return? || step.Resume? || s.counter == 0 then s.lv[t] else HIGH)
    && (ch.Quiet? && t in s.parked ==> s'.spl == s.spl)
    && (ch.Parks? ==>
         s'.parked[t].spl == (if s.counter > 0 then s.spl else s.lv[t]) &&
         s'.lv[t] == if s.counter > 0 then HIGH else s.lv[t])
  }

  lemma {:induction false} AskLevels(s: State, step: Step)
    requires Enabled(s, step) && !Apply(s, step).panicked && (step.Lock? || step.Try?)
    requires Changed(s, Apply(s, step), step.t, ChangeOf(s, step))
    ensures Levels(s, Apply(s, step), step.t, ChangeOf(s, step), step)
  {
    var t, m, wait := step.t, step.m, step.Lock? && step.inThread;
    AskLevel(s, t, m, wait);
    assert Apply(s, step) == Ask(s, t, m, wait) && ChangeOf(s, step) == Answer(s, t, m, wait);
  }

  lemma {:induction false} AskLevel(s: State, t: Thread, m: Id, wait: bool)
    requires t in s.lv && m in s.mtx && !Ask(s, t, m, wait).panicked
    ensures var s', ch := Ask(s, t, m, wait), Answer(s, t, m, wait);
      && t in s'.lv && (forall u :: u != t && u in s.lv ==> u in s'.lv && s'.lv[u] == s.lv[u])
      && (ch.Gain? || ch.Quiet?) && s'.spl == (if s.counter > 0 then s.spl else s.lv[t])
      && s'.lv[t] == (if ch.Gain? || s.counter > 0 then HIGH else s.lv[t])
  {}

  lemma {:induction false} UnlockLevels(s: State, step: Step)
    requires Enabled(s, step) && !Apply(s, step).panicked && (step.Unlock? || step.Sleep?)
    requires Changed(s, Apply(s, step), step.t, ChangeOf(s, step))
    ensures Levels(s, Apply(s, step), step.t, ChangeOf(s, step), step)
  {}

  lemma {:induction false} OtherLevels(s: State, step: Step)
    requires Enabled(s, step) && !Apply(s, step).panicked
    requires step.Enter? || step.Leave? || step.Resume? || step.Return?
    requires Shape(s) && Changed(s, Apply(s, step), step.t, ChangeOf(s, step))
    ensures Levels(s, Apply(s, step), step.t, ChangeOf(s, step), step)
  {}

  lemma {:induction false} StepLevels(s: State, step: Step)
    requires Shape(s) && Enabled(s, step) && !Apply(s, step).panicked
    requires Changed(s, Apply(s, step), step.t, ChangeOf(s, step))
    ensures Levels(s, Apply(s, step), step.t, ChangeOf(s, step), step)
  {
    if step.Lock? || step.Try? { AskLevels(s, step); }
    else if step.Unlock? || step.Sleep? { UnlockLevels(s, step); }
    else { OtherLevels(s, step); }
  }

  /** The step of t is one after which its level is right.  A thread without a reason may ask for one while nobody
    counts, or while the saved level happens to be its own; any other call it may make only while nobody counts, because
    splhigh is not undone while others count.  A thread gives its last reason up when it is the last counted one. */
  predicate Safe(s: State, step: Step, base: int)
    requires Enabled(s, step)
  {
    var t, ch := step.t, ChangeOf(s, step);
    step.Return? || step.Resume? ||
    if Mine(s, t) == {} then s.counter == 0 || (if ch.Gain? then s.spl == base else base == HIGH)
    else ch.Drop? && Mine(s, t) == {ch.r} ==> s.counter == 1 || base == HIGH
  }

  /** Giving up r leaves nothing exactly if r was all there was. */
  lemma {:induction false} LastReason(s: State, s': State, t: Thread, r: Reason)
    requires Adds(s', s, t, r)
    ensures Mine(s', t) == {} <==> Mine(s, t) == {r}
  {
    forall q ensures q in Mine(s', t) <==> q in Mine(s, t) && q != r { assert Whose(s, q) == Whose(s, q); }
    assert r in Mine(s, t);
  }

  /** The reasons of an awake thread are counted. */
  lemma {:induction false} OwnCounted(s: State, t: Thread)
    requires Good(s) && t !in s.parked
    ensures |Mine(s, t)| <= s.counter
  {
    assert Mine(s, t) <= Present(s);
    Subset(Mine(s, t), Present(s));
  }

  lemma {:induction false} Subset(a: set<Reason>, b: set<Reason>)
    requires a <= b
    ensures |a| <= |b|
  {
    assert b == a + (b - a);
  }

  lemma {:induction false} OwnLevelQuiet(s: State, step: Step, base: int)
    requires Good(s) && Enabled(s, step) && !Apply(s, step).panicked && LevelInv(s, step.t, base)
    requires ChangeOf(s, step).Quiet?
    requires Changed(s, Apply(s, step), step.t, Quiet) && Levels(s, Apply(s, step), step.t, Quiet, step)
    ensures LevelInv(Apply(s, step), step.t, base) <==> Safe(s, step, base)
  {
    SameCounts(s, Apply(s, step));
    if step.t !in s.parked { OwnCounted(s, step.t); }
    if step.Resume? { assert Wait(step.t) in Mine(s, step.t); }
  }

  lemma {:induction false} OwnLevelGain(s: State, step: Step, base: int)
    requires Good(s) && Enabled(s, step) && !Apply(s, step).panicked && LevelInv(s, step.t, base)
    requires ChangeOf(s, step).Gain?
    requires Changed(s, Apply(s, step), step.t, ChangeOf(s, step))
    requires Levels(s, Apply(s, step), step.t, ChangeOf(s, step), step)
    ensures LevelInv(Apply(s, step), step.t, base) <==> Safe(s, step, base)
  {
    assert ChangeOf(s, step).r in Mine(Apply(s, step), step.t);
    OwnCounted(s, step.t);
  }

  lemma {:induction false} OwnLevelDrop(s: State, step: Step, base: int)
    requires Good(s) && Enabled(s, step) && !Apply(s, step).panicked && LevelInv(s, step.t, base)
    requires ChangeOf(s, step).Drop?
    requires Changed(s, Apply(s, step), step.t, ChangeOf(s, step))
    requires Levels(s, Apply(s, step), step.t, ChangeOf(s, step), step)
    ensures LevelInv(Apply(s, step), step.t, base) <==> Safe(s, step, base)
  {
    var r := ChangeOf(s, step).r;
    assert r in Mine(s, step.t);
    LastReason(s, Apply(s, step), step.t, r);
    OwnGain(Apply(s, step), s, step.t, r);
    OwnCounted(s, step.t);
  }

  lemma {:induction false} OwnLevelSleeps(s: State, step: Step, base: int)
    requires Good(s) && Enabled(s, step) && !Apply(s, step).panicked && LevelInv(s, step.t, base)
    requires ChangeOf(s, step).Got? || ChangeOf(s, step).Parks? || ChangeOf(s, step).Returns?
    requires Changed(s, Apply(s, step), step.t, ChangeOf(s, step))
    requires Levels(s, Apply(s, step), step.t, ChangeOf(s, step), step)
    ensures LevelInv(Apply(s, step), step.t, base) && Safe(s, step, base)
  {
    var s', t, ch := Apply(s, step), step.t, ChangeOf(s, step);
    if ch.Parks? { assert Own(ch.m) in Mine(s, t); } else { assert Own(ch.m) in Mine(s', t); }
    if ch.Got? { assert Wait(t) in Mine(s, t); }
    if t !in s.parked { OwnCounted(s, t); }
  }

  /** The level of the thread that moves is right after the step if and only if the step is safe. */
  lemma {:induction false} OwnLevelIff(s: State, step: Step, base: int)
    requires Good(s) && Enabled(s, step) && !Apply(s, step).panicked && LevelInv(s, step.t, base)
    ensures LevelInv(Apply(s, step), step.t, base) <==> Safe(s, step, base)
  {
    StepChanges(s, step);
    StepLevels(s, step);
    match ChangeOf(s, step)
    case Quiet => OwnLevelQuiet(s, step, base);
    case Gain(_) => OwnLevelGain(s, step, base);
    case Drop(_) => OwnLevelDrop(s, step, base);
    case _ => OwnLevelSleeps(s, step, base);
  }

  lemma {:induction false} OtherLevel(s: State, step: Step, t: Thread, base: int)
    requires Good(s) && Enabled(s, step) && !Apply(s, step).panicked && step.t != t && LevelInv(s, t, base)
    requires Crosses(s, step) ==> Alone(s, step.t)
    ensures LevelInv(Apply(s, step), t, base)
  {
    StepChanges(s, step);
    StepLevels(s, step);
    OtherLevelOf(s, Apply(s, step), step, ChangeOf(s, step), t, base);
  }

  lemma {:induction false} OtherLevelOf(s: State, s': State, step: Step, ch: Change, t: Thread, base: int)
    requires Good(s) && step.t in s.lv && step.t != t && LevelInv(s, t, base)
    requires Changed(s, s', step.t, ch) && Levels(s, s', step.t, ch, step) && (ch.Returns? ==> Alone(s, step.t))
    ensures LevelInv(s', t, base)
  {
    OtherMine(s, s', step.t, t);
    if t !in s.parked && Mine(s, t) != {} { HasReason(s, t, step.t); }
  }

  lemma {:induction false} HasReason(s: State, t: Thread, u: Thread)
    requires t !in s.parked && Mine(s, t) != {} && u != t && Good(s)
    ensures s.counter > 0 && !Alone(s, u)
  {
    var r :| r in Mine(s, t);
    assert r in Present(s) && r !in Mine(s, u);
  }

  /** The level of t is right after every step. */
  predicate LevelsRight(s: State, steps: seq<Step>, t: Thread, base: int)
    requires CanExec(s, steps)
    decreases |steps|
  {
    LevelInv(s, t, base) && (steps == [] || LevelsRight(Apply(s, steps[0]), steps[1..], t, base))
  }

  /** Every step of t is safe. */
  predicate ActsSafely(s: State, steps: seq<Step>, t: Thread, base: int)
    requires CanExec(s, steps)
    decreases |steps|
  {
    steps == [] || ((steps[0].t == t ==> Safe(s, steps[0], base)) &&
      ActsSafely(Apply(s, steps[0]), steps[1..], t, base))
  }

  lemma {:induction false} LevelRun(s: State, steps: seq<Step>, t: Thread, base: int)
    requires Good(s) && LevelInv(s, t, base) && CanExec(s, steps) && SleepsAlone(s, steps)
    ensures LevelsRight(s, steps, t, base) <==> ActsSafely(s, steps, t, base)
    decreases |steps|
  {
    if steps != [] {
      var s' := Apply(s, steps[0]);
      LevelStep(s, steps[0], t, base);
      if LevelInv(s', t, base) {
        LevelRun(s', steps[1..], t, base);
      } else {
        assert !LevelsRight(s', steps[1..], t, base);
      }
    }
  }

  lemma {:induction false} LevelStep(s: State, step: Step, t: Thread, base: int)
    requires Good(s) && LevelInv(s, t, base) && Enabled(s, step) && !Apply(s, step).panicked
    requires Crosses(s, step) ==> Alone(s, step.t)
    ensures Good(Apply(s, step)) && (LevelInv(Apply(s, step), t, base) <==> step.t != t || Safe(s, step, base))
  {
    StepChanges(s, step);
    ChangeGood(s, Apply(s, step), step.t, ChangeOf(s, step));
    if step.t == t { OwnLevelIff(s, step, base); } else { OtherLevel(s, step, t, base); }
  }

  /** In every run in which the counter is right, the level of t is raised exactly while t has a reason, and is the one
    it began with otherwise, after every step, if and only if every step that t makes is safe.  What other threads do
    between the steps of t does not matter. */
  lemma {:induction false} LevelIff(s: State, steps: seq<Step>, t: Thread)
    requires Init(s) && t in s.lv && CanExec(s, steps) && SleepsAlone(s, steps)
    ensures LevelsRight(s, steps, t, s.lv[t]) <==> ActsSafely(s, steps, t, s.lv[t])
  {
    InitGood(s);
    assert Mine(s, t) == {} by { assert All(s) == {} by { assert forall r :: Whose(s, r).None?; } }
    LevelRun(s, steps, t, s.lv[t]);
  }

  /** In particular, whatever a thread does while nobody else outside msleep has a reason is safe. */
  lemma {:induction false} AloneIsSafe(s: State, step: Step, base: int)
    requires Good(s) && Enabled(s, step) && Alone(s, step.t)
    ensures Safe(s, step, base)
  {
    if step.t !in s.parked { OwnCount(s, step.t); }
  }

  // ---------------------------------------------------------------- msleep

  /** What belongs to a sleeping thread. */
  ghost predicate Untouched(s: State, s': State, t: Thread) {
    && s'.mtx.Keys == s.mtx.Keys && (t in s'.parked <==> t in s.parked) &&
         (t in s.parked ==> s'.parked[t] == s.parked[t])
    && (t in s'.naps <==> t in s.naps) && (t in s'.waits <==> t in s.waits) && t in s.lv && t in s'.lv &&
         s'.lv[t] == s.lv[t]
    && (forall m :: m in s.mtx ==> Kept(s.mtx[m], s'.mtx[m], t))
  }

  /** Thread t owns it at the same depth, or neither before nor after. */
  predicate Kept(x: Mutex, y: Mutex, t: Thread) {
    (x.owner == Some(t) <==> y.owner == Some(t)) && (x.owner == Some(t) ==> y.recurse == x.recurse)
  }

  /** A step of u that writes one mutex and its own entries only. */
  lemma {:induction false} WriteUntouched(s: State, s': State, u: Thread, t: Thread, m: Id)
    requires u != t && t in s.lv && m in s.mtx && m in s'.mtx && s'.mtx == s.mtx[m := s'.mtx[m]]
    requires Kept(s.mtx[m], s'.mtx[m], t)
    requires t in s'.lv && s'.lv[t] == s.lv[t] && s'.waits - {u} == s.waits - {u} && s'.parked - {u} == s.parked - {u}
    requires s'.naps - {u} == s.naps - {u}
    ensures Untouched(s, s', t)
  {
    assert t in s'.parked <==> t in s'.parked - {u};
    assert t in s.parked <==> t in s.parked - {u};
    assert t in s'.waits <==> t in s'.waits - {u};
    assert t in s.waits <==> t in s.waits - {u};
    assert t in s'.naps <==> t in s'.naps - {u};
    assert t in s.parked ==> (s'.parked - {u})[t] == (s.parked - {u})[t];
  }

  lemma {:induction false} AskUntouched(s: State, u: Thread, m: Id, wait: bool, t: Thread)
    requires Awake(s, u) && m in s.mtx && u != t && t in s.lv
    ensures Untouched(s, Ask(s, u, m, wait), t)
  {
    AskWrites(s, u, m, wait, t);
    WriteUntouched(s, Ask(s, u, m, wait), u, t, m);
  }

  /** What mtx_lock and _mtx_unlock write: one mutex, which other threads own as before. */
  lemma {:induction false} AskWrites(s: State, u: Thread, m: Id, wait: bool, t: Thread)
    requires m in s.mtx && u != t
    ensures var s' := Ask(s, u, m, wait); m in s'.mtx && s'.mtx == s.mtx[m := s'.mtx[m]] && Kept(s.mtx[m], s'.mtx[m], t)
  {}

  lemma {:induction false} GiveWrites(s: State, u: Thread, m: Id, t: Thread)
    requires m in s.mtx && u != t
    ensures var s' := Give(s, u, m); m in s'.mtx && s'.mtx == s.mtx[m := s'.mtx[m]] && Kept(s.mtx[m], s'.mtx[m], t)
  {}

  lemma {:induction false} UnlockUntouched(s: State, step: Step, t: Thread)
    requires Enabled(s, step) && step.t != t && t in s.lv && step.Unlock?
    ensures Untouched(s, Apply(s, step), t)
  {
    GiveWrites(s, step.t, step.m, t);
    WriteUntouched(s, Apply(s, step), step.t, t, step.m);
  }

  lemma {:induction false} SleepUntouched(s: State, step: Step, t: Thread)
    requires Enabled(s, step) && step.t != t && t in s.lv && step.Sleep?
    ensures Untouched(s, Apply(s, step), t)
  {
    var s' := Apply(s, step);
    assert s'.mtx == s.mtx[step.m := s'.mtx[step.m]];
    WriteUntouched(s, s', step.t, t, step.m);
  }

  lemma {:induction false} WakeUntouched(s: State, step: Step, t: Thread)
    requires Enabled(s, step) && step.t != t && t in s.lv && (step.Resume? || (step.Return? && step.t !in s.naps))
    ensures Untouched(s, Apply(s, step), t)
  {
    WriteUntouched(s, Apply(s, step), step.t, t, if step.Resume? then s.waits[step.t] else s.parked[step.t].m);
  }

  lemma {:induction false} OtherUntouched(s: State, step: Step, t: Thread)
    requires Enabled(s, step) && step.t != t && t in s.lv
    ensures Untouched(s, Apply(s, step), t)
  {
    if step.Lock? || step.Try? { AskUntouched(s, step.t, step.m, step.Lock? && step.inThread, t); }
    else if step.Unlock? { UnlockUntouched(s, step, t); }
    else if step.Sleep? { SleepUntouched(s, step, t); }
    else if step.Resume? || (step.Return? && step.t !in s.naps) { WakeUntouched(s, step, t); }
  }

  predicate Silent(steps: seq<Step>, t: Thread) {
    forall i :: 0 <= i < |steps| ==> steps[i].t != t
  }

  lemma {:induction false} OthersUntouched(s: State, steps: seq<Step>, t: Thread)
    requires CanExec(s, steps) && Silent(steps, t) && t in s.lv
    ensures Untouched(s, Exec(s, steps), t)
    decreases |steps|
  {
    if steps != [] {
      var s' := Apply(s, steps[0]);
      OtherUntouched(s, steps[0], t);
      OthersUntouched(s', steps[1..], t);
    }
  }

  /** Whatever other threads do while t sleeps in msleep on its mutex m: once m is free and t returns, it owns m at the
    same depth, and counter, saved level, its own level and its other mutexes are as msleep found them after raising the
    level; where nothing was counted (which no balanced state with an owner is) its own level is the saved one. */
  lemma {:induction false} SleepRestores(s: State, t: Thread, m: Id, steps: seq<Step>)
    requires Enabled(s, Sleep(t, m)) && s.mtx[m].owner == Some(t) && !Fails(s, m)
    requires var s1 := Apply(s, Sleep(t, m)); CanExec(s1, steps) && Silent(steps, t)
    requires var s2 := Exec(Apply(s, Sleep(t, m)), steps); Enabled(s2, Return(t)) && Owner(s2, m).None?
    ensures var r := Apply(Exec(Apply(s, Sleep(t, m)), steps), Return(t));
      && m in r.mtx && r.mtx[m].owner == Some(t) && r.mtx[m].recurse == s.mtx[m].recurse && r.counter == s.counter &&
           Awake(r, t)
      && t in r.lv
      && (if s.counter > 0 then r.spl == s.spl && r.lv[t] == HIGH else r.spl == s.lv[t] && r.lv[t] == s.lv[t])
      && (forall x :: x in s.mtx ==> x in r.mtx && Kept(s.mtx[x], r.mtx[x], t))
  {
    OthersUntouched(Apply(s, Sleep(t, m)), steps, t);
  }
}
