/** The calls of module/freebsd_kern_mutex_v4.c as they update the counter, the levels and the mutexes, and the
  run that makes the kernel panic. */
module SplKernel {
  import opened Basics
  import opened SplMutex
  import opened SplTheorems

  class Kernel {
    var counter: nat                    // atomic_recurse
    var spl: int                        // atomic_spl
    var lv: map<Thread, int>            // the interrupt level of each thread
    var mtx: map<Id, Mutex>
    var waits: map<Thread, Id>
    var parked: map<Thread, Saved>
    var naps: set<Thread>
    var tokens: set<Token>
    var lost: nat
    var panicked: bool

    ghost function View(): State
      reads this
    {
      State(counter, spl, lv, mtx, waits, parked, naps, tokens, lost, panicked)
    }

    /** mtx_init of the mutexes `ids`, with the threads of `lv` at their levels */
    constructor (ids: set<Id>, lv: map<Thread, int>)
      ensures Init(View()) && this.lv == lv && mtx == map m | m in ids :: Mutex(true, None, 0, false)
    {
      counter, spl, this.lv, waits, parked, naps, tokens, lost, panicked := 0, 0, lv, map[], map[], {}, {}, 0, false;
      mtx := map m | m in ids :: Mutex(true, None, 0, false);
    }

    /** atomic_lock */
    method AtomicLock(t: Thread)
      requires t in lv && !panicked && counter < LIMIT
      modifies this
      ensures View() == Raise(old(View()), t)
      ensures lv[t] == HIGH && counter == old(counter) + 1 && panicked == (counter == LIMIT)
      ensures spl == if old(counter) == 0 then old(lv[t]) else old(spl)
    {
      var s := lv[t];
      lv := lv[t := HIGH];
      if counter == 0 {
        spl, counter := s, 1;
      } else {
        counter := (counter + 1) % U32;
        if counter == LIMIT { panicked := true; }
      }
    }

    /** atomic_unlock */
    method AtomicUnlock(t: Thread)
      requires !panicked
      modifies this
      ensures View() == Lower(old(View()), t)
      ensures panicked == (old(counter) == 0) && (!panicked ==> counter == old(counter) - 1)
      ensures old(counter) == 1 ==> t in lv && lv[t] == old(spl)
    {
      if counter == 0 {
        panicked := true;
      } else {
        counter := counter - 1;
        if counter == 0 { lv := lv[t := spl]; }
      }
    }

    /** mtx_lock_held */
    method LockHeld(t: Thread, m: Id) returns (held: bool)
      requires m in mtx && !panicked
      modifies this`panicked
      ensures panicked == !mtx[m].init && (!panicked ==> held == (mtx[m].owner == Some(t)))
    {
      held := false;
      if !mtx[m].init { panicked := true; } else { held := mtx[m].owner == Some(t); }
    }

    /** mtx_lock up to the point where it returns (whether it has the mutex) or sleeps (None) */
    method MtxLock(t: Thread, m: Id, inThread: bool) returns (r: Option<bool>)
      requires Enabled(View(), Lock(t, m, inThread))
      modifies this
      ensures View() == Apply(old(View()), Lock(t, m, inThread))
      ensures !panicked ==> (r == Some(true) <==> mtx[m].owner == Some(t)) && (r == None <==> t in waits)
      // granted if the mutex is free or the caller's; otherwise a thread waits and an interrupt handler gives up
      ensures !panicked ==> (r == Some(true) <==> old(mtx)[m].owner.None? || old(mtx)[m].owner == Some(t))
      ensures !panicked && r != Some(true) ==>
        r == (if inThread then None else Some(false)) && (inThread ==> mtx[m].waiting)
    {
      r := None;
      AtomicLock(t);
      if panicked { return; }
      var held := LockHeld(t, m);
      if panicked { return; }
      if held {
        mtx := mtx[m := mtx[m].(recurse := (mtx[m].recurse + 1) % U32)];
        AtomicUnlock(t);
        return Some(true);
      }
      if mtx[m].owner.Some? {
        if inThread {
          mtx := mtx[m := mtx[m].(waiting := true)];
          waits := waits[t := m];
          return None;
        }
        AtomicUnlock(t);
        return Some(false);
      }
      mtx := mtx[m := mtx[m].(owner := Some(t))];
      r := Some(true);
    }

    /** mtx_lock when ltsleep returns: one round of its loop */
    method LockResumes(t: Thread) returns (got: bool)
      requires Enabled(View(), Resume(t))
      modifies this
      ensures View() == Apply(old(View()), Resume(t)) && got == (t !in waits)
      ensures got == old(mtx)[old(waits)[t]].owner.None?
      ensures got ==> mtx[old(waits)[t]].owner == Some(t)
    {
      var m := waits[t];
      if mtx[m].owner.Some? {
        mtx := mtx[m := mtx[m].(waiting := true)];
        return false;
      }
      mtx := mtx[m := mtx[m].(owner := Some(t))];
      waits := waits - {t};
      got := true;
    }

    /** mtx_trylock */
    method MtxTrylock(t: Thread, m: Id) returns (got: bool)
      requires Enabled(View(), Try(t, m))
      modifies this
      ensures View() == Apply(old(View()), Try(t, m)) && (!panicked ==> got == (mtx[m].owner == Some(t)))
      ensures !panicked ==> (got <==> old(mtx)[m].owner.None? || old(mtx)[m].owner == Some(t))
      ensures !panicked && !got ==> mtx == old(mtx) && counter == old(counter)
    {
      got := false;
      AtomicLock(t);
      if panicked { return; }
      var held := LockHeld(t, m);
      if panicked { return; }
      if held {
        mtx := mtx[m := mtx[m].(recurse := (mtx[m].recurse + 1) % U32)];
        AtomicUnlock(t);
        return true;
      }
      if mtx[m].owner.Some? {
        AtomicUnlock(t);
        return false;
      }
      mtx := mtx[m := mtx[m].(owner := Some(t))];
      got := true;
    }

    /** _mtx_unlock */
    method MtxUnlock(t: Thread, m: Id)
      requires Enabled(View(), Unlock(t, m))
      modifies this
      ensures View() == Apply(old(View()), Unlock(t, m))
    {
      AtomicLock(t);
      if panicked { return; }
      var held := LockHeld(t, m);
      if panicked { return; }
      if held {
        if mtx[m].recurse == 0 {
          AtomicUnlock(t);
          mtx := mtx[m := mtx[m].(owner := None)];
          if mtx[m].waiting { mtx := mtx[m := mtx[m].(waiting := false)]; }
        } else {
          mtx := mtx[m := mtx[m].(recurse := mtx[m].recurse - 1)];
        }
      }
      AtomicUnlock(t);
    }

    /** msleep up to tsleep; without the mutex the source only warns */
    method MsleepBegins(t: Thread, m: Id)
      requires Enabled(View(), Sleep(t, m))
      modifies this
      ensures View() == Apply(old(View()), Sleep(t, m))
    {
      AtomicLock(t);
      if panicked { return; }
      var held := LockHeld(t, m);
      if panicked { return; }
      AtomicUnlock(t);
      if held {
        parked := parked[t := Saved(m, mtx[m].recurse, counter, spl)];
        mtx := mtx[m := mtx[m].(recurse := 0, owner := None)];
        counter := 0;
      } else {
        naps := naps + {t};
      }
    }

    /** msleep when tsleep returns: one round of its loop */
    method MsleepResumes(t: Thread) returns (done: bool)
      requires Enabled(View(), Return(t))
      modifies this
      ensures View() == Apply(old(View()), Return(t))
      ensures done == (t !in old(naps) ==> old(mtx)[old(parked)[t].m].owner.None?)
    {
      if t in naps {
        naps := naps - {t};
        return true;
      }
      var v := parked[t];
      if mtx[v.m].owner.Some? {
        mtx := mtx[v.m := mtx[v.m].(waiting := true)];
        return false;
      }
      mtx := mtx[v.m := mtx[v.m].(recurse := v.recurse, owner := Some(t))];
      lost := lost + counter;
      counter, spl := v.counter, v.spl;
      parked := parked - {t};
      done := true;
    }
  }

  // ---------------------------------------------------------------- a run that goes wrong

  /** Thread 1 owns mutexes m and n. */
  method TwoOwned(m: Id, n: Id) returns (k: Kernel)
    requires m != n
    ensures fresh(k) && !k.panicked && k.counter == 2 && k.spl == 0 && k.lost == 0
    ensures k.parked == map[] && k.waits == map[] && k.naps == {} && k.lv == map[1 := HIGH, 2 := 0]
    ensures k.mtx == map[m := Mutex(true, Some(1), 0, false), n := Mutex(true, Some(1), 0, false)]
  {
    k := new Kernel({m, n}, map[1 := 0, 2 := 0]);
    var _ := k.MtxLock(1, m, true);
    var _ := k.MtxLock(1, n, true);
  }

  /** It sleeps on m, which puts its count aside; thread 2 asks for n and waits, counted once. */
  method TwoSleepers(m: Id, n: Id) returns (k: Kernel)
    requires m != n
    ensures fresh(k) && !k.panicked && k.counter == 1 && k.lost == 0
    ensures k.parked == map[1 := Saved(m, 0, 2, 0)] && k.waits == map[2 := n] && k.naps == {} && k.lv.Keys == {1, 2}
    ensures k.mtx == map[m := Mutex(true, None, 0, false), n := Mutex(true, Some(1), 0, true)]
  {
    k := TwoOwned(m, n);
    k.MsleepBegins(1, m);
    var _ := k.MtxLock(2, n, true);
  }

  /** Why a thread must enter and leave msleep alone: thread 1 returns while thread 2 waits, which puts the
    counter back to
    two and loses one; when thread 2 has n at last and releases it, the kernel panics. */
  method LostCount(m: Id, n: Id) returns (k: Kernel)
    requires m != n
    ensures fresh(k) && k.panicked && k.lost == 1
  {
    k := TwoSleepers(m, n);
    var _ := k.MsleepResumes(1);
    k.MtxUnlock(1, n);
    k.MtxUnlock(1, m);
    var _ := k.LockResumes(2);
    k.MtxUnlock(2, n);
  }

  /** Threads 1 and 2, both at level 0, ask for the same mutex; the second waits. */
  method Contended(m: Id) returns (k: Kernel)
    ensures fresh(k) && !k.panicked && k.counter == 2 && k.spl == 0 && k.lv == map[1 := HIGH, 2 := HIGH] && k.lost == 0
    ensures k.parked == map[] && k.waits == map[2 := m] && k.naps == {} && k.tokens == {}
    ensures k.mtx == map[m := Mutex(true, Some(1), 0, true)]
  {
    k := new Kernel({m}, map[1 := 0, 2 := 0]);
    var _ := k.MtxLock(1, m, true);
    var _ := k.MtxLock(2, m, true);
  }

  /** Why the level needs safe steps: thread 1 releases the contended mutex, thread 2 gets it and releases it.
    Nothing is
    owned, and thread 1 is left at the raised level. */
  method MixedLevels(m: Id) returns (k: Kernel)
    ensures fresh(k) && Balanced(k.View()) && k.counter == 0 && Mine(k.View(), 1) == {} && Mine(k.View(), 2) == {}
    ensures k.lv == map[1 := HIGH, 2 := 0]
  {
    k := Contended(m);
    k.MtxUnlock(1, m);
    var _ := k.LockResumes(2);
    k.MtxUnlock(2, m);
    NoReasons(k.View());
  }

  lemma {:induction false} NoReasons(s: State)
    requires s.waits == map[] && s.parked == map[] && s.tokens == {} && forall m :: m in s.mtx ==> s.mtx[m].owner.None?
    ensures All(s) == {} && Present(s) == {} && forall t :: Mine(s, t) == {}
  {
    assert forall r :: Whose(s, r).None?;
    assert All(s) == {};
  }
}
