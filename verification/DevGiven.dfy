/** Every device in the table is one that was made, under the name it was given. */
module DevGiven {
  import opened Basics
  import opened DevTable
  import opened DevTableSafety

  predicate Makes(step: Step) {
    step.Make? || step.Alias?
  }

  /** The calls of make_dev and make_dev_alias in a run. */
  function Creations(steps: seq<Step>): seq<Step> {
    if steps == [] then []
    else
      var last := steps[|steps| - 1];
      Creations(steps[..|steps| - 1]) + if Makes(last) then [last] else []
  }

  /** c is the device that `call` made: it has the name given, and while it lives it is an alias exactly if
    make_dev_alias made it, of the parent given. */
  predicate MadeBy(c: Cdev, call: Step) {
    && Makes(call) && c.name == (if |call.name| <= 63 then call.name else call.name[..63])
    && (c.live ==> (c.alias <==> call.Alias?) && (call.Alias? ==> c.parent == call.p))
  }

  predicate GivenAt(s: State, base: Dev, made: seq<Step>, d: Dev)
    requires d in s.devs
  {
    base <= d < base + |made| && MadeBy(s.devs[d], made[d - base])
  }

  /** The devices are numbered in the order of their creation, and all are as they were made. */
  ghost predicate Given(s: State, base: Dev, made: seq<Step>) {
    && s.next == base + |made|
    && (forall d {:trigger GivenAt(s, base, made, d)} :: d in s.devs ==> GivenAt(s, base, made, d))
  }

  // ---------------------------------------------------------------- one step

  /** What no step changes about a device that stays: its name and parent; and it does not come to life, nor
    become an alias or cease to be one while it lives. */
  predicate SameMaking(c: Cdev, c': Cdev) {
    c'.name == c.name && c'.parent == c.parent && (c'.live ==> c.live && c'.alias == c.alias)
  }

  lemma {:induction false} RelKeepsMaking(s: State, d: Dev, x: Dev)
    requires d in s.devs && s.devs[d].inode < |s.inot| && x in s.devs
    ensures x in DevRel(s, d).devs ==> SameMaking(s.devs[x], DevRel(s, d).devs[x])
  {}

  lemma {:induction false} PopSlotKeepsMaking(s: State, m: Mnt, x: Dev)
    requires Enabled(s, PopSlot(m)) && x in s.devs && x in Apply(s, PopSlot(m)).devs
    ensures SameMaking(s.devs[x], Apply(s, PopSlot(m)).devs[x])
  {
    var i := s.mounts[m].scan.value;
    if s.inot[i].Some? { RelKeepsMaking(Store(s, m, i, None), s.inot[i].value, x); }
  }

  lemma {:induction false} KillKeepsMaking(s: State, t: Tid, d: Dev, x: Dev)
    requires d in s.devs && x in s.devs
    ensures x in Kill(s, t, d).devs && SameMaking(s.devs[x], Kill(s, t, d).devs[x])
  {}

  lemma {:induction false} StepKeepsMaking(s: State, step: Step, x: Dev)
    requires Enabled(s, step) && x in s.devs && x < s.next && x in Apply(s, step).devs
    ensures SameMaking(s.devs[x], Apply(s, step).devs[x])
  {
    match step
    case OpEnd(d) => RelKeepsMaking(s.(held := s.held - multiset{d}), d, x);
    case PopSlot(m) => PopSlotKeepsMaking(s, m, x);
    case DestroyBegin(t, d) => KillKeepsMaking(s, t, d, x);
    case DestroyChild(t) => KillKeepsMaking(s, t, s.devs[Top(s, t)].children[0], x);
    case DestroyEnd(t) => RelKeepsMaking(Pop(s, t), Top(s, t), x);
    case _ =>
  }

  /** Only the two calls bring devices into the table, one each. */
  lemma {:induction false} StepMakes(s: State, step: Step)
    requires Enabled(s, step)
    ensures var s' := Apply(s, step);
      if Makes(step) then
        && s'.next == s.next + 1 && s'.devs.Keys == s.devs.Keys + {s.next} && MadeBy(s'.devs[s.next], step)
        && s'.devs[s.next].live
      else s'.next == s.next && s'.devs.Keys <= s.devs.Keys
  {
    match step
    case PopSlot(m) => PopSlotMakes(s, m);
    case _ =>
  }

  lemma {:induction false} PopSlotMakes(s: State, m: Mnt)
    requires Enabled(s, PopSlot(m))
    ensures var s' := Apply(s, PopSlot(m)); s'.next == s.next && s'.devs.Keys <= s.devs.Keys
  {}

  lemma {:induction false} StepGiven(s: State, step: Step, base: Dev, made: seq<Step>)
    requires Enabled(s, step) && Given(s, base, made)
    ensures Given(Apply(s, step), base, made + if Makes(step) then [step] else [])
  {
    var s' := Apply(s, step);
    var made' := made + if Makes(step) then [step] else [];
    StepMakes(s, step);
    forall d | d in s'.devs ensures GivenAt(s', base, made', d) {
      if d in s.devs {
        assert GivenAt(s, base, made, d);
        StepKeepsMaking(s, step, d);
      }
    }
  }

  /** The device that a step kills. */
  function Killed(s: State, step: Step): Option<Dev>
    requires Enabled(s, step)
  {
    match step
    case DestroyBegin(_, d) => Some(d)
    case DestroyChild(t) => Some(s.devs[Top(s, t)].children[0])
    case _ => None
  }

  // ---------------------------------------------------------------- which devices live

  /** A live device is not freed. */
  lemma {:induction false} LiveStays(s: State, step: Step, d: Dev)
    requires Inv(s) && Enabled(s, step) && d in s.devs && s.devs[d].live
    ensures d in Apply(s, step).devs
  {
    assert Counted(s, d, None);
    match step
    case OpEnd(_) =>
    case PopSlot(m) => LiveStaysPopulate(s, m, d);
    case DestroyEnd(t) => assert StackOk(s, t) && Framed(s, Top(s, t));
    case _ => OthersFreeNothing(s, step, d);
  }

  lemma {:induction false} LiveStaysPopulate(s: State, m: Mnt, d: Dev)
    requires Enabled(s, PopSlot(m)) && d in s.devs && s.devs[d].live
    ensures d in Apply(s, PopSlot(m)).devs
  {}

  /** A device that is not killed in a step stays alive. */
  lemma {:induction false} StaysAlive(s: State, step: Step, d: Dev)
    requires Enabled(s, step) && d in s.devs && d < s.next && d in Apply(s, step).devs && Killed(s, step) != Some(d)
    ensures Apply(s, step).devs[d].live == s.devs[d].live
  {
    match step
    case PopSlot(m) => PopulateSpares(s, m, d);
    case _ =>
  }

  lemma {:induction false} PopulateSpares(s: State, m: Mnt, d: Dev)
    requires Enabled(s, PopSlot(m)) && d in s.devs && d in Apply(s, PopSlot(m)).devs
    ensures Apply(s, PopSlot(m)).devs[d].live == s.devs[d].live
  {}

  lemma {:induction false} KilledDies(s: State, step: Step)
    requires Enabled(s, step) && Killed(s, step).Some?
    ensures var s', d := Apply(s, step), Killed(s, step).value; d in s'.devs && !s'.devs[d].live
  {}

  lemma {:induction false} OldLiving(s: State, step: Step, d: Dev)
    requires Inv(s) && Enabled(s, step) && d in s.devs
    ensures d < s.next && (d in Living(Apply(s, step)) <==> d in Living(s) && Killed(s, step) != Some(d))
  {
    assert Placed(s, d);
    if s.devs[d].live { LiveStays(s, step, d); }
    if Killed(s, step) == Some(d) { KilledDies(s, step); }
    else if d in Apply(s, step).devs { StaysAlive(s, step, d); }
  }

  /** What each step does to the set of live devices: make_dev and make_dev_alias add the device they make;
    destroy_dev takes out its device, and the loop of destroy_devl an alias of the device being destroyed;
    nothing else changes it. */
  lemma {:induction false} LivingStep(s: State, step: Step)
    requires Inv(s) && Enabled(s, step)
    ensures var k := Killed(s, step);
      Living(Apply(s, step)) == Living(s) + (if Makes(step) then {s.next} else {}) - (if k.Some? then {k.value} else {})
    ensures step.DestroyBegin? ==> Killed(s, step) == Some(step.d) && step.d in Living(s)
    ensures step.DestroyChild? ==>
      var k := Killed(s, step);
      k.Some? && k.value in Living(s) && s.devs[k.value].alias && s.devs[k.value].parent == Top(s, step.t)
  {
    var s', k := Apply(s, step), Killed(s, step);
    StepMakes(s, step);
    if k.Some? { KilledDies(s, step); }
    forall d ensures d in Living(s') <==> (d in Living(s) && k != Some(d)) || (Makes(step) && d == s.next) {
      if d in s.devs { OldLiving(s, step, d); }
    }
    KillsWhom(s, step);
  }

  lemma {:induction false} KillsWhom(s: State, step: Step)
    requires Inv(s) && Enabled(s, step)
    ensures step.DestroyBegin? ==> Killed(s, step) == Some(step.d) && step.d in Living(s)
    ensures step.DestroyChild? ==>
      var k := Killed(s, step);
      k.Some? && k.value in Living(s) && s.devs[k.value].alias && s.devs[k.value].parent == Top(s, step.t)
  {
    if step.DestroyChild? {
      var p := Top(s, step.t);
      assert Related(s, p) && Related(s, s.devs[p].children[0]);
    }
  }

  // ---------------------------------------------------------------- runs

  lemma {:induction false} CreationsJoin(a: seq<Step>, step: Step)
    ensures Creations(a + [step]) == Creations(a) + if Makes(step) then [step] else []
  {
    assert (a + [step])[..|a + [step]| - 1] == a;
  }

  lemma {:induction false} RunGiven(s: State, done: seq<Step>, steps: seq<Step>, base: Dev)
    requires CanExec(s, steps) && Given(s, base, Creations(done))
    ensures Given(Exec(s, steps), base, Creations(done + steps))
    decreases |steps|
  {
    if steps == [] {
      assert done + [] == done;
    } else {
      StepGiven(s, steps[0], base, Creations(done));
      CreationsJoin(done, steps[0]);
      RunGiven(Apply(s, steps[0]), done + [steps[0]], steps[1..], base);
      assert done + [steps[0]] + steps[1..] == done + steps;
    }
  }

  /** In every run, each device of the table was made by a call of make_dev or make_dev_alias in the run; it has
    the name given to that call, cut to SPECNAMELEN characters, and while it lives it is an alias exactly if
    make_dev_alias made it, of the parent given to that call. */
  lemma {:induction false} NamesAreGiven(s: State, steps: seq<Step>, d: Dev)
    requires Init(s) && CanExec(s, steps) && d in Exec(s, steps).devs
    ensures var r, made := Exec(s, steps), Creations(steps);
      r.next == s.next + |made| && s.next <= d < r.next && MadeBy(r.devs[d], made[d - s.next])
  {
    StartGiven(s);
    RunGiven(s, [], steps, s.next);
    assert [] + steps == steps;
    OneGiven(Exec(s, steps), s.next, Creations(steps), d);
  }

  lemma {:induction false} StartGiven(s: State)
    requires Init(s)
    ensures Given(s, s.next, Creations([]))
  {}

  lemma {:induction false} OneGiven(r: State, base: Dev, made: seq<Step>, d: Dev)
    requires Given(r, base, made) && d in r.devs
    ensures r.next == base + |made| && base <= d < r.next && MadeBy(r.devs[d], made[d - base])
  {
    assert GivenAt(r, base, made, d);
  }
}
