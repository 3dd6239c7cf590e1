/** The mutex of module/freebsd_kern_mutex_v4.c: one global nesting counter keeps the interrupt level
  raised while any mutex is owned.

  Any number of threads use any number of mutexes.  A step is what one thread does between two points
  at which others may run: a call, or the part of a call before or after it slept. */
module SplMutex {
  import opened Basics

  type Thread = nat
  type Id = nat

  const U32: nat := 0x1_0000_0000
  const LIMIT: nat := 0xFFFF_FFFF
  const HIGH: int := 15                 // the level that splhigh sets

  /** struct mtx; owner None is MTX_NO_THREAD. */
  datatype Mutex = Mutex(init: bool, owner: Option<Thread>, recurse: nat, waiting: bool)

  /** What msleep keeps on its stack while it has given up the mutex m. */
  datatype Saved = Saved(m: Id, recurse: nat, counter: nat, spl: int)

  /** An outstanding atomic_lock of thread t. */
  datatype Token = Token(t: Thread, i: nat)

  /** `counter` and `spl` are atomic_recurse and atomic_spl; each thread has its own interrupt level, which
    a sleep restores.  Threads are inside mtx_lock waiting for a mutex, inside msleep having given one up,
    inside msleep without having owned it, or awake.  `lost` counts what returns from msleep overwrote. */
  datatype State = State(counter: nat, spl: int, lv: map<Thread, int>, mtx: map<Id, Mutex>, waits: map<Thread, Id>,
                         parked: map<Thread, Saved>, naps: set<Thread>, tokens: set<Token>, lost: nat, panicked: bool)

  datatype Step =
    | Enter(t: Thread, i: nat)                   // atomic_lock
    | Leave(t: Thread, i: nat)                   // atomic_unlock
    | Lock(t: Thread, m: Id, inThread: bool)     // mtx_lock; an interrupt handler cannot wait
    | Try(t: Thread, m: Id)
    | Unlock(t: Thread, m: Id)
    | Resume(t: Thread)                          // mtx_lock when ltsleep returns
    | Sleep(t: Thread, m: Id)                    // msleep up to tsleep
    | Return(t: Thread)                          // msleep when tsleep returns

  predicate Awake(s: State, t: Thread) {
    t in s.lv && t !in s.waits && t !in s.parked && t !in s.naps
  }

  predicate Enabled(s: State, step: Step) {
    !s.panicked && s.counter < LIMIT && step.t in s.lv &&
    match step
    case Enter(t, i) => Awake(s, t) && Token(t, i) !in s.tokens
    case Leave(t, i) => Awake(s, t) && Token(t, i) in s.tokens
    case Lock(t, m, _) => Awake(s, t) && m in s.mtx
    case Try(t, m) => Awake(s, t) && m in s.mtx
    case Unlock(t, m) => Awake(s, t) && m in s.mtx
    case Resume(t) => t in s.waits && s.waits[t] in s.mtx
    case Sleep(t, m) => Awake(s, t) && m in s.mtx
    case Return(t) => t in s.naps || (t in s.parked && s.parked[t].m in s.mtx)
  }

  // ---------------------------------------------------------------- what the steps do

  /** One more count, by thread t. */
  function Raise(s: State, t: Thread): State {
    s.(counter := s.counter + 1, lv := s.lv[t := HIGH],
       spl := if s.counter == 0 && t in s.lv then s.lv[t] else s.spl, panicked := s.counter == LIMIT - 1)
  }

  /** One count less; the last one brings the saved level back. */
  function Lower(s: State, t: Thread): State {
    if s.counter == 0 then s.(panicked := true)
    else s.(counter := s.counter - 1, lv := if s.counter == 1 then s.lv[t := s.spl] else s.lv)
  }

  function Put(s: State, m: Id, x: Mutex): State {
    s.(mtx := s.mtx[m := x])
  }

  /** A call fails on a mutex that was not initialised, and where the counter reaches its limit. */
  predicate Fails(s: State, m: Id) {
    s.counter == LIMIT - 1 || (m in s.mtx && !s.mtx[m].init)
  }

  function Owner(s: State, m: Id): Option<Thread> {
    if m in s.mtx then s.mtx[m].owner else None
  }

  /** mtx_lock and mtx_trylock, up to the point where they return or sleep. */
  function Ask(s: State, t: Thread, m: Id, wait: bool): State
    requires m in s.mtx
  {
    var x := s.mtx[m];
    if Fails(s, m) then Raise(s, t).(panicked := true)
    else match x.owner
      case None => Put(Raise(s, t), m, x.(owner := Some(t)))
      case Some(o) =>
        if o == t then Put(Lower(Raise(s, t), t), m, x.(recurse := (x.recurse + 1) % U32))
        else if wait then Put(Raise(s, t), m, x.(waiting := true)).(waits := s.waits[t := m])
        else Lower(Raise(s, t), t)
  }

  /** _mtx_unlock */
  function Give(s: State, t: Thread, m: Id): State
    requires m in s.mtx
  {
    var x := s.mtx[m];
    if Fails(s, m) then Raise(s, t).(panicked := true)
    else if x.owner != Some(t) then Lower(Raise(s, t), t)
    else if x.recurse > 0 then Put(Lower(Raise(s, t), t), m, x.(recurse := x.recurse - 1))
    else Lower(Put(Lower(Raise(s, t), t), m, x.(owner := None, waiting := false)), t)
  }

  /** msleep up to tsleep */
  function Park(s: State, t: Thread, m: Id): State
    requires m in s.mtx
  {
    var x, u := s.mtx[m], Lower(Raise(s, t), t);
    if Fails(s, m) then Raise(s, t).(panicked := true)
    else if x.owner != Some(t) then u.(naps := s.naps + {t})
    else Put(u, m, x.(recurse := 0, owner := None)).(counter := 0,
      parked := s.parked[t := Saved(m, x.recurse, u.counter, u.spl)])
  }

  /** msleep when tsleep returns: the mutex is waited for, and counter and saved level are overwritten. */
  function Unpark(s: State, t: Thread): State
    requires t in s.parked && s.parked[t].m in s.mtx
  {
    var v := s.parked[t];
    var x := s.mtx[v.m];
    if x.owner.Some? then Put(s, v.m, x.(waiting := true))
    else Put(s, v.m, x.(recurse := v.recurse, owner := Some(t))).(counter := v.counter, spl := v.spl,
      parked := s.parked - {t}, lost := s.lost + s.counter)
  }

  /** mtx_lock when ltsleep returns */
  function Retry(s: State, t: Thread): State
    requires t in s.waits && s.waits[t] in s.mtx
  {
    var m := s.waits[t];
    var x := s.mtx[m];
    if x.owner.Some? then Put(s, m, x.(waiting := true))
    else Put(s, m, x.(owner := Some(t))).(waits := s.waits - {t})
  }

  function Apply(s: State, step: Step): State
    requires Enabled(s, step)
  {
    match step
    case Enter(t, i) => Raise(s, t).(tokens := s.tokens + {Token(t, i)})
    case Leave(t, i) => Lower(s, t).(tokens := s.tokens - {Token(t, i)})
    case Lock(t, m, inThread) => Ask(s, t, m, inThread)
    case Try(t, m) => Ask(s, t, m, false)
    case Unlock(t, m) => Give(s, t, m)
    case Resume(t) => Retry(s, t)
    case Sleep(t, m) => Park(s, t, m)
    case Return(t) => if t in s.naps then s.(naps := s.naps - {t}) else Unpark(s, t)
  }

  // ---------------------------------------------------------------- what the counter should count

  /** The reasons to keep the level raised: a mutex owned, a wait inside mtx_lock, an outstanding atomic_lock, and
    the mutex that a thread inside msleep will own again. */
  datatype Reason = Own(m: Id) | Wait(t: Thread) | Tok(x: Token) | Back(t: Thread)

  /** Whose reason r is. */
  function Whose(s: State, r: Reason): Option<Thread> {
    match r
    case Own(m) => Owner(s, m)
    case Wait(t) => if t in s.waits then Some(t) else None
    case Tok(x) => if x in s.tokens then Some(x.t) else None
    case Back(t) => if t in s.parked then Some(t) else None
  }

  /** All reasons. */
  function All(s: State): (rs: set<Reason>)
    ensures forall r :: r in rs <==> Whose(s, r).Some?
  {
    (set m | m in s.mtx && s.mtx[m].owner.Some? :: Own(m)) + (set t | t in s.waits :: Wait(t)) +
    (set x | x in s.tokens :: Tok(x)) + (set t | t in s.parked :: Back(t))
  }

  /** The reasons of thread t. */
  function Mine(s: State, t: Thread): set<Reason> {
    set r | r in All(s) && Whose(s, r) == Some(t)
  }

  /** The reasons of all threads that are not inside msleep. */
  function Present(s: State): set<Reason> {
    set r | r in All(s) && Whose(s, r).value !in s.parked
  }

  /** The counter counts the mutexes owned by threads not in msleep, the waiters inside mtx_lock, and the
    outstanding atomic_locks. */
  predicate Balanced(s: State) {
    s.counter == |Present(s)|
  }

  /** No thread but t, unless inside msleep, owns a mutex, waits inside mtx_lock or has an outstanding atomic_lock. */
  predicate Alone(s: State, t: Thread) {
    Present(s) <= Mine(s, t)
  }

  /** The step gives a mutex up in msleep, or takes it back. */
  predicate Crosses(s: State, step: Step)
    requires Enabled(s, step)
  {
    match step
    case Sleep(t, m) => s.mtx[m].owner == Some(t)
    case Return(t) => t !in s.naps && s.mtx[s.parked[t].m].owner.None?
    case _ => false
  }

  /** Balanced, and every thread inside msleep has saved the count of its own reasons. */
  ghost predicate Good(s: State) {
    && Balanced(s)
    && (forall t :: t in s.parked ==> s.parked[t].counter == |Mine(s, t)|)
    && (forall t :: t in s.parked ==> t !in s.waits && t !in s.naps)
    && (forall t :: t in s.waits ==> t !in s.naps)
  }

  // ---------------------------------------------------------------- one step

  /** From s to s' the reason r of thread t, which is not inside msleep, was added. */
  ghost predicate Adds(s: State, s': State, t: Thread, r: Reason) {
    && s'.parked == s.parked && t !in s.parked && Whose(s, r).None? && Whose(s', r) == Some(t)
    && forall q {:trigger Whose(s', q)} :: q != r ==> Whose(s', q) == Whose(s, q)
  }

  lemma {:induction false} AddCard(a: set<Reason>, b: set<Reason>, r: Reason)
    requires r !in a && r in b && forall x :: x != r ==> (x in a <==> x in b)
    ensures |b| == |a| + 1
  {
    assert b == a + {r};
  }

  lemma {:induction false} SwapCard(a: set<Reason>, b: set<Reason>, q: Reason, r: Reason)
    requires q in a && q !in b && r !in a && r in b && forall x :: x != q && x != r ==> (x in a <==> x in b)
    ensures |b| == |a|
  {
    assert b == a - {q} + {r};
    assert |a - {q}| == |a| - 1;
  }

  lemma {:induction false} AddCounts(s: State, s': State, t: Thread, r: Reason)
    requires Adds(s, s', t, r)
    ensures |Present(s')| == |Present(s)| + 1 && |All(s')| == |All(s)| + 1
  {
    AddCard(All(s), All(s'), r);
    AddCard(Present(s), Present(s'), r);
  }

  /** The reasons of threads that did nothing. */
  lemma {:induction false} OtherMine(s: State, s': State, t: Thread, u: Thread)
    requires forall x {:trigger Whose(s', x)} ::
      Whose(s', x) == Whose(s, x) || (Whose(s', x) in {None, Some(t)} && Whose(s, x) in {None, Some(t)})
    requires u != t
    ensures Mine(s', u) == Mine(s, u)
  {
    forall x ensures x in Mine(s', u) <==> x in Mine(s, u) { assert Whose(s', x) == Whose(s', x); }
  }

  /** Nobody's reasons changed. */
  lemma {:induction false} SameCounts(s: State, s': State)
    requires s'.parked == s.parked && forall q {:trigger Whose(s', q)} :: Whose(s', q) == Whose(s, q)
    ensures Present(s') == Present(s) && All(s') == All(s) && forall u :: Mine(s', u) == Mine(s, u)
  {
    forall u ensures Mine(s', u) == Mine(s, u) {}
  }

  /** The reason q of t was exchanged for r. */
  ghost predicate Swaps(s: State, s': State, t: Thread, q: Reason, r: Reason) {
    && q != r && Whose(s, q) == Some(t) && Whose(s', q).None? && Whose(s, r).None? && Whose(s', r) == Some(t)
    && forall x {:trigger Whose(s', x)} :: x != q && x != r ==> Whose(s', x) == Whose(s, x)
  }

  lemma {:induction false} SwapCounts(s: State, s': State, t: Thread, q: Reason, r: Reason)
    requires Swaps(s, s', t, q, r)
    ensures |Mine(s', t)| == |Mine(s, t)| && |All(s')| == |All(s)|
  {
    SwapCard(Mine(s, t), Mine(s', t), q, r);
    SwapCard(All(s), All(s'), q, r);
  }

  /** A waiter that gets its mutex. */
  lemma {:induction false} GotCounts(s: State, s': State, t: Thread, q: Reason, r: Reason)
    requires Swaps(s, s', t, q, r) && s'.parked == s.parked && t !in s.parked
    ensures |Present(s')| == |Present(s)|
  {
    SwapCard(Present(s), Present(s'), q, r);
  }

  /** Going to sleep takes the reasons of t out of those present. */
  lemma {:induction false} ParkCounts(s: State, s': State, t: Thread, q: Reason, v: Saved)
    requires Swaps(s, s', t, q, Back(t)) && t !in s.parked && s'.parked == s.parked[t := v]
    ensures Mine(s, t) <= Present(s) && Present(s') == Present(s) - Mine(s, t)
  {
    forall r ensures r in Present(s') <==> r in Present(s) && r !in Mine(s, t) {}
  }

  /** Coming back adds them again. */
  lemma {:induction false} UnparkCounts(s: State, s': State, t: Thread, r: Reason)
    requires Swaps(s, s', t, Back(t), r) && t in s.parked && s'.parked == s.parked - {t}
    ensures Present(s') == Present(s) + Mine(s', t) && Present(s) * Mine(s', t) == {} && Present(s) * Mine(s, t) == {}
  {
    forall x ensures x in Present(s') <==> x in Present(s) || x in Mine(s', t) {}
    forall x | x in Mine(s', t) ensures x !in Present(s) {}
  }
}
