/**
 What a bulk Save returns: the refusal or the check failure of the first builder that is not
 ready, or what the insert comes to, passed out through the hooks in between.
 */
module BulkOutcomes {
  import opened Common
  import opened BulkChain

  // ---------- outcomes on the way out ----------

  /** What the mutator of a builder that is not ready comes to; its own hooks see it on the way out. */
  function Stop<F, N, S>(env: Env<F, N, S>, m: Mutator<F>, own: F, passed: Passed<F>): Outcome {
    match m
    case Hooked(_, hook, next) =>
      var seen := if passed.Own? then own else passed.fields;
      hook.after(
        match hook.before(seen)
        case Refuse(code) => Err(HookRefused(code))
        case Skip => Ok
        case Forward(f) => if passed.Own? then Stop(env, next, f, Own) else Stop(env, next, own, Fresh(f))
        case Replace(f) => Stop(env, next, own, Fresh(f)))
    case Link(_) => if env.check(own).Some? then Err(env.check(own).value) else Ok
  }

  /** An outcome of mutator j, or of the insert, as mutator `m` before it returns it. */
  function PassedOut<F>(ms: seq<Mutator<F>>, m: Mutator<F>, j: nat, o: Outcome): Outcome
    requires WellBuilt(ms) && Base(m) < j <= |ms|
    decreases |ms| - Base(m), m
  {
    match m
    case Hooked(_, hook, next) => hook.after(PassedOut(ms, next, j, o))
    case Link(i) => if i + 1 == j then o else PassedOut(ms, ms[i + 1], j, o)
  }

  function InsertOutcome<F, N, S>(env: Env<F, N, S>, specs: seq<Option<S>>): Outcome {
    match env.insert(specs)
    case Rejected(f) => Err(f)
    case Accepted(_) => Ok
  }

  // ---------- one call ----------

  lemma {:induction false} StopOutcome<F, N, S>(
    env: Env<F, N, S>, ms: seq<Mutator<F>>, m: Mutator<F>, passed: Passed<F>, st: State<F, N, S>)
    requires WellBuilt(ms) && Shaped(ms, st) && Base(m) < |ms|
    requires Ready(env, m, st.held[Base(m)].fields, passed).None?
    ensures Mutate(env, ms, m, passed, st).1 == Stop(env, m, st.held[Base(m)].fields, passed)
    decreases m
  {
    var i := Base(m);
    match m
    case Hooked(h, hook, next) =>
      hide Mutate;
      HookedCall(env, ms, m, passed, st, FieldsOf(st, i, passed));
      var st1 := Log(st, Enter(i, h));
      match hook.before(FieldsOf(st1, i, passed)) {
        case Forward(f) =>
          var (st2, passed2) := Edit(st1, i, passed, f);
          StopOutcome(env, ms, next, passed2, st2);
        case Replace(f) => StopOutcome(env, ms, next, Fresh(f), st1);
        case _ =>
      }
    case Link(_) =>
      hide Mutate;
      LinkCall(env, ms, i, passed, st);
  }

  /** Builder j is the first, from this mutator on, that is not ready. */
  ghost predicate StopsFirst<F, N, S>(
    env: Env<F, N, S>, ms: seq<Mutator<F>>, m: Mutator<F>, passed: Passed<F>, st: State<F, N, S>, j: nat)
    requires Shaped(ms, st) && Base(m) < |ms|
  {
    && Base(m) < j < |ms| && ReadyAt(env, ms, m, passed, st, j).None?
    && forall k :: Base(m) <= k < j ==> ReadyAt(env, ms, m, passed, st, k).Some?
  }

  lemma StopsFirstThrough<F, N, S>(
    env: Env<F, N, S>, ms: seq<Mutator<F>>, m: Mutator<F>, passed: Passed<F>, st: State<F, N, S>,
    passed2: Passed<F>, st2: State<F, N, S>, j: nat)
    requires m.Hooked? && Shaped(ms, st) && Shaped(ms, st2) && Base(m) < |ms| && st2.specs == st.specs
    requires forall k :: 0 <= k < |ms| && k != Base(m) ==> st2.held[k] == st.held[k]
    requires Ready(env, m, st.held[Base(m)].fields, passed) == Ready(env, m.next, st2.held[Base(m)].fields, passed2)
    requires StopsFirst(env, ms, m, passed, st, j)
    ensures StopsFirst(env, ms, m.next, passed2, st2, j)
  {
    SameReady(env, ms, m, passed, st, passed2, st2);
    hide Ready, ReadyAt;
  }

  lemma StopsFirstNext<F, N, S>(
    env: Env<F, N, S>, ms: seq<Mutator<F>>, m: Mutator<F>, passed: Passed<F>, st: State<F, N, S>,
    st2: State<F, N, S>, j: nat)
    requires WellBuilt(ms) && Shaped(ms, st) && Shaped(ms, st2) && m.Link? && m.index + 1 < j < |ms|
    requires StopsFirst(env, ms, m, passed, st, j)
    requires forall k :: m.index < k < |ms| ==>
      ReadyAt(env, ms, m, passed, st, k) == ReadyAt(env, ms, ms[m.index + 1], Own, st2, k)
    ensures StopsFirst(env, ms, ms[m.index + 1], Own, st2, j)
  {
    hide ReadyAt;
    var next := ms[m.index + 1];
    assert Base(next) == m.index + 1;
    forall k | Base(next) <= k < j ensures ReadyAt(env, ms, next, Own, st2, k).Some? {
      assert ReadyAt(env, ms, m, passed, st, k).Some?;
    }
  }

  /** The builder of the mutator itself is ready, and at its link it has passed its check. */
  lemma FirstIsReady<F, N, S>(
    env: Env<F, N, S>, ms: seq<Mutator<F>>, m: Mutator<F>, passed: Passed<F>, st: State<F, N, S>, j: nat)
    requires Shaped(ms, st) && Base(m) < |ms| && StopsFirst(env, ms, m, passed, st, j)
    ensures Base(m) < j < |ms| && Ready(env, m, st.held[Base(m)].fields, passed).Some?
    ensures m.Link? ==> env.check(st.held[Base(m)].fields).None?
  {
    assert ReadyAt(env, ms, m, passed, st, Base(m)).Some?;
  }

  lemma NextHeld<F, N, S>(env: Env<F, N, S>, st: State<F, N, S>, i: nat, passed: Passed<F>, j: nat)
    requires i < j < |st.held| == |st.nodes| == |st.specs|
    ensures Adopt(env, Log(st, Check(i)), i, passed).held[j] == st.held[j]
  {
  }

  lemma NextIsStopped<F, N, S>(
    env: Env<F, N, S>, ms: seq<Mutator<F>>, m: Mutator<F>, passed: Passed<F>, st: State<F, N, S>, st2: State<F, N, S>)
    requires WellBuilt(ms) && Shaped(ms, st) && Shaped(ms, st2) && m.Link? && m.index + 1 < |ms|
    requires StopsFirst(env, ms, m, passed, st, m.index + 1) && st2.held[m.index + 1] == st.held[m.index + 1]
    ensures Ready(env, ms[m.index + 1], st2.held[m.index + 1].fields, Own).None?
  {
    hide Ready;
  }

  lemma {:induction false} FirstStop<F, N, S>(
    env: Env<F, N, S>, ms: seq<Mutator<F>>, m: Mutator<F>, passed: Passed<F>, st: State<F, N, S>, j: nat)
    requires WellBuilt(ms) && Shaped(ms, st) && Base(m) < |ms| && StopsFirst(env, ms, m, passed, st, j)
    ensures
      Mutate(env, ms, m, passed, st).1 == PassedOut(ms, m, j, Stop(env, ms[j], st.held[j].fields, Own))
    decreases |ms| - Base(m), m
  {
    var i := Base(m);
    match m
    case Hooked(h, hook, next) =>
      hide Mutate, StopsFirst, Ready;
      HookedCall(env, ms, m, passed, st, FieldsOf(st, i, passed));
      HookedReady(env, m, st.held[i].fields, passed);
      FirstIsReady(env, ms, m, passed, st, j);
      var st1 := Log(st, Enter(i, h));
      match hook.before(FieldsOf(st1, i, passed)) {
        case Forward(f) =>
          var (st2, passed2) := Edit(st1, i, passed, f);
          StopsFirstThrough(env, ms, m, passed, st, passed2, st2, j);
          FirstStop(env, ms, next, passed2, st2, j);
        case Replace(f) =>
          StopsFirstThrough(env, ms, m, passed, st, Fresh(f), st1, j);
          FirstStop(env, ms, next, Fresh(f), st1, j);
        case _ =>
      }
    case Link(_) =>
      hide Mutate, ReadyAt;
      FirstIsReady(env, ms, m, passed, st, j);
      LinkCall(env, ms, i, passed, st);
      var st2 := Adopt(env, Log(st, Check(i)), i, passed);
      NextReady(env, ms, m, passed, st, st2);
      NextHeld(env, st, i, passed, j);
      if i + 1 == j {
        NextIsStopped(env, ms, m, passed, st, st2);
        StopOutcome(env, ms, ms[j], Own, st2);
      } else {
        StopsFirstNext(env, ms, m, passed, st, st2, j);
        FirstStop(env, ms, ms[i + 1], Own, st2, j);
      }
  }

  lemma AllAreReady<F, N, S>(
    env: Env<F, N, S>, ms: seq<Mutator<F>>, m: Mutator<F>, passed: Passed<F>, st: State<F, N, S>)
    requires Shaped(ms, st) && Base(m) < |ms| && AllReady(env, ms, m, passed, st)
    ensures Ready(env, m, st.held[Base(m)].fields, passed).Some?
    ensures m.Link? ==> env.check(st.held[Base(m)].fields).None?
  {
    assert ReadyAt(env, ms, m, passed, st, Base(m)).Some?;
  }

  lemma {:induction false} InsertedHooked<F, N, S>(
    env: Env<F, N, S>, ms: seq<Mutator<F>>, m: Mutator<F>, passed: Passed<F>, st: State<F, N, S>)
    requires m.Hooked? && WellBuilt(ms) && Shaped(ms, st) && Base(m) < |ms| && AllReady(env, ms, m, passed, st)
    ensures
      Mutate(env, ms, m, passed, st).1 ==
      PassedOut(ms, m, |ms|, InsertOutcome(env, OwnSpecs(env, ms, m, passed, st)))
    decreases |ms| - Base(m), m, 0
  {
    hide Mutate, AllReady, Ready, OwnSpecs, InsertOutcome, ReadyAt;
    var i := Base(m);
    AllAreReady(env, ms, m, passed, st);
    HookedCall(env, ms, m, passed, st, FieldsOf(st, i, passed));
    HookedReady(env, m, st.held[i].fields, passed);
    var st1 := Log(st, Enter(i, m.number));
    match m.hook.before(FieldsOf(st1, i, passed)) {
      case Forward(f) =>
        var (st2, passed2) := Edit(st1, i, passed, f);
        SameReady(env, ms, m, passed, st, passed2, st2);
        InsertedOutcome(env, ms, m.next, passed2, st2);
      case Replace(f) =>
        SameReady(env, ms, m, passed, st, Fresh(f), st1);
        InsertedOutcome(env, ms, m.next, Fresh(f), st1);
      case _ =>
    }
  }

  lemma {:induction false} InsertedLink<F, N, S>(
    env: Env<F, N, S>, ms: seq<Mutator<F>>, m: Mutator<F>, passed: Passed<F>, st: State<F, N, S>)
    requires m.Link? && WellBuilt(ms) && Shaped(ms, st) && Base(m) < |ms| && AllReady(env, ms, m, passed, st)
    ensures
      Mutate(env, ms, m, passed, st).1 ==
      PassedOut(ms, m, |ms|, InsertOutcome(env, OwnSpecs(env, ms, m, passed, st)))
    decreases |ms| - Base(m), m, 0
  {
    hide Mutate, AllReady, Ready, OwnSpecs, Adopt, ReadyAt, Complete, FieldsOf, Log;
    var i := m.index;
    AllAreReady(env, ms, m, passed, st);
    LinkCall(env, ms, i, passed, st);
    var st2 := Adopt(env, Log(st, Check(i)), i, passed);
    if i + 1 == |ms| {
      LastReady(env, ms, m, passed, st, st2);
    } else {
      NextReady(env, ms, m, passed, st, st2);
      InsertedOutcome(env, ms, ms[i + 1], Own, st2);
    }
  }

  lemma {:induction false} InsertedOutcome<F, N, S>(
    env: Env<F, N, S>, ms: seq<Mutator<F>>, m: Mutator<F>, passed: Passed<F>, st: State<F, N, S>)
    requires WellBuilt(ms) && Shaped(ms, st) && Base(m) < |ms| && AllReady(env, ms, m, passed, st)
    ensures
      Mutate(env, ms, m, passed, st).1 ==
      PassedOut(ms, m, |ms|, InsertOutcome(env, OwnSpecs(env, ms, m, passed, st)))
    decreases |ms| - Base(m), m
  {
    hide *;
    match m
    case Hooked(_, _, _) => InsertedHooked(env, ms, m, passed, st);
    case Link(_) => InsertedLink(env, ms, m, passed, st);
  }

  // ---------- Save ----------

  /** An outcome as the hooks of one builder, from number h on, pass it out: the last hook first. */
  function AfterHooks<F>(hooks: seq<Hook<F>>, h: nat, o: Outcome): Outcome
    requires h <= |hooks|
    decreases |hooks| - h
  {
    if h == |hooks| then o else hooks[h].after(AfterHooks(hooks, h + 1, o))
  }

  /** As the hooks of the builders from i up to j pass it out: the last builder first. */
  function Returned<F>(hooks: seq<seq<Hook<F>>>, i: nat, j: nat, o: Outcome): Outcome
    requires i <= j <= |hooks|
    decreases j - i
  {
    if i == j then o else AfterHooks(hooks[i], 0, Returned(hooks, i + 1, j, o))
  }

  lemma {:induction false} WrapPassesOut<F>(
    ms: seq<Mutator<F>>, hooks: seq<Hook<F>>, i: nat, h: nat, j: nat, o: Outcome)
    requires WellBuilt(ms) && i < j <= |ms| && h <= |hooks|
    ensures PassedOut(ms, Wrap(hooks, i, h), j, o) == AfterHooks(hooks, h, PassedOut(ms, Link(i), j, o))
    decreases |hooks| - h
  {
    if h == |hooks| {
    } else {
      WrapPassesOut(ms, hooks, i, h + 1, j, o);
    }
  }

  lemma {:induction false} BuildPassesOut<F>(hooks: seq<seq<Hook<F>>>, i: nat, j: nat, o: Outcome)
    requires i < j <= |hooks| && WellBuilt(Build(hooks))
    ensures PassedOut(Build(hooks), Build(hooks)[i], j, o) == Returned(hooks, i, j, o)
    decreases j - i
  {
    hide AfterHooks;
    var ms := Build(hooks);
    WrapPassesOut(ms, hooks[i], i, 0, j, o);
    if i + 1 == j {
    } else {
      BuildPassesOut(hooks, i + 1, j, o);
    }
  }

  lemma BuildIsWellBuilt<F>(hooks: seq<seq<Hook<F>>>)
    ensures WellBuilt(Build(hooks))
  {
  }

  /** Builder j is the first that is refused or fails its check. */
  ghost predicate FirstNotReady<F, N, S>(
    env: Env<F, N, S>, held: seq<Held<F>>, hooks: seq<seq<Hook<F>>>, j: nat)
    requires |held| == |hooks|
  {
    j < |held| && Alone(env, held, hooks, j).None? && forall k :: 0 <= k < j ==> Alone(env, held, hooks, k).Some?
  }

  /** What its own mutator comes to. */
  ghost function StoppedWith<F, N, S>(
    env: Env<F, N, S>, held: seq<Held<F>>, hooks: seq<seq<Hook<F>>>, j: nat): Outcome
    requires |held| == |hooks| && j < |held|
  {
    Stop(env, Wrap(hooks[j], j, 0), held[j].fields, Own)
  }

  lemma NoneBefore<F>(hooks: seq<seq<Hook<F>>>, o: Outcome)
    ensures Returned(hooks, 0, 0, o) == o
  {
  }

  lemma EveryIsAll<F, N, S>(env: Env<F, N, S>, held: seq<Held<F>>, hooks: seq<seq<Hook<F>>>)
    requires |held| == |hooks| && held != [] && EveryBuilderReady(env, held, hooks)
    ensures
      var ms, st0 := Build(hooks), Start<F, N, S>(held);
      AllReady(env, ms, ms[0], Own, st0) && OwnSpecs(env, ms, ms[0], Own, st0) == Batch(env, held, hooks)
  {
    hide Ready, Wrap;
    var ms, st0 := Build(hooks), Start<F, N, S>(held);
    assert forall j :: 0 <= j < |held| ==> ReadyAt(env, ms, ms[0], Own, st0, j) == Alone(env, held, hooks, j);
  }

  /**
   Whatever the hooks are: if some builder is refused or fails its check, Save returns what the
   first such builder comes to, passed out through the hooks of all builders before it; if
   none is, it returns what the insert comes to, passed out through all hooks.
   */
  lemma SaveOutcome<F, N, S>(env: Env<F, N, S>, held: seq<Held<F>>, hooks: seq<seq<Hook<F>>>)
    requires |held| == |hooks|
    ensures held == [] ==> Save(env, held, hooks).1.Ok?
    ensures forall j :: FirstNotReady(env, held, hooks, j) ==>
      Save(env, held, hooks).1 == Returned(hooks, 0, j, StoppedWith(env, held, hooks, j))
    ensures held != [] && EveryBuilderReady(env, held, hooks) ==>
      Save(env, held, hooks).1 == Returned(hooks, 0, |hooks|, InsertOutcome(env, Batch(env, held, hooks)))
  {
    if held != [] {
      BuildIsWellBuilt(hooks);
      var ms, st0 := Build(hooks), Start<F, N, S>(held);
      hide Mutate, Ready, Wrap, Stop, AllReady, PassedOut, Returned, Build;
      assert forall j :: 0 <= j < |held| ==> ReadyAt(env, ms, ms[0], Own, st0, j) == Alone(env, held, hooks, j);
      hide ReadyAt;
      forall j | FirstNotReady(env, held, hooks, j)
        ensures Save(env, held, hooks).1 == Returned(hooks, 0, j, StoppedWith(env, held, hooks, j))
      {
        if j == 0 {
          StopOutcome(env, ms, ms[0], Own, st0);
          NoneBefore(hooks, StoppedWith(env, held, hooks, 0));
        } else {
          assert StopsFirst(env, ms, ms[0], Own, st0, j);
          FirstStop(env, ms, ms[0], Own, st0, j);
          BuildPassesOut(hooks, 0, j, StoppedWith(env, held, hooks, j));
        }
      }
      if EveryBuilderReady(env, held, hooks) {
        EveryIsAll(env, held, hooks);
        InsertedOutcome(env, ms, ms[0], Own, st0);
        BuildPassesOut(hooks, 0, |hooks|, InsertOutcome(env, Batch(env, held, hooks)));
      }
    }
  }
}
