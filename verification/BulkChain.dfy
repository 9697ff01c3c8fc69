/**
 The chain of mutators that AccountCreateBulk.Save builds and runs
 (backend/ent/account_create.go), as a function of the state it updates.

 `F` is what a mutation holds, `N` a node without its id, `S` a create spec. What the
 chain asks of the rest of the program is an `Env`: the check, createSpec and the batch
 insert.
 */
module BulkChain {
  import opened Common

  datatype Failure =
    | HookRefused(code: int)
    | Uninitialized(field: string)
    | CheckFailed(field: string)
    | InsertFailed(constraint: bool)

  datatype Outcome = Ok | Err(failure: Failure)

  /** What a hook does with the mutation it is handed, before any later link runs. */
  datatype Decision<F> =
    | Refuse(code: int)      // returns an error, and does not call next
    | Skip                   // returns a value, and does not call next
    | Forward(edited: F)     // edits the mutation in place, and calls next with it
    | Replace(fields: F)     // calls next with another mutation

  /** A hook: what it does on the way in, and what it makes of the outcome on the way out. */
  datatype Hook<!F> = Hook(before: F -> Decision<F>, after: Outcome -> Outcome)

  /** Refuses with an error or calls next once, and never turns an error into success. */
  ghost predicate Honest<F(!new)>(h: Hook<F>) {
    && (forall f :: !h.before(f).Skip?)
    && (forall o: Outcome :: o.Err? ==> h.after(o).Err?)
  }

  /** The closures: a link of the chain, or a hook wrapped around a mutator. */
  datatype Mutator<!F> = Link(index: nat) | Hooked(number: nat, hook: Hook<F>, next: Mutator<F>)

  function Base<F>(m: Mutator<F>): nat {
    match m
    case Link(i) => i
    case Hooked(_, _, next) => Base(next)
  }

  /** The hooks of a builder from number `h` on, wrapped around its link; hook 0 is outermost. */
  function Wrap<F>(hooks: seq<Hook<F>>, index: nat, h: nat): (m: Mutator<F>)
    requires h <= |hooks|
    ensures Base(m) == index
    decreases |hooks| - h
  {
    if h == |hooks| then Link(index) else Hooked(h, hooks[h], Wrap(hooks, index, h + 1))
  }

  /** Which mutation a link is called with: the builder's own, or one a hook put in its place. */
  datatype Passed<F> = Own | Fresh(fields: F)

  /** A builder's current mutation. */
  datatype Held<F> = Held(fields: F, id: Option<int>, done: bool)

  datatype Event =
    | Enter(builder: nat, hook: nat)
    | Check(builder: nat)
    | MakeSpec(builder: nat)
    | Insert
    | Finish(builder: nat)
    | Leave(builder: nat, hook: nat)

  datatype State<F, N, S> = State(
    held: seq<Held<F>>,
    nodes: seq<Option<(N, int)>>,
    specs: seq<Option<S>>,
    given: nat -> Option<int>,
    batches: seq<seq<Option<S>>>,
    trace: seq<Event>)

  /** The outcome of sqlgraph.BatchCreate: a failure, or the id given to each spec, if any. */
  datatype Inserted = Rejected(failure: Failure) | Accepted(ids: nat -> Option<int>)

  datatype Env<!F, N, !S> = Env(
    check: F -> Option<Failure>,
    node: F -> N,
    spec: F -> S,
    insert: seq<Option<S>> -> Inserted)

  /** The closure built for builder i refers to mutator i+1. */
  ghost predicate WellBuilt<F>(ms: seq<Mutator<F>>) {
    forall i :: 0 <= i < |ms| ==> Base(ms[i]) == i
  }

  ghost predicate Shaped<F, N, S>(ms: seq<Mutator<F>>, st: State<F, N, S>) {
    |st.held| == |st.nodes| == |st.specs| == |ms|
  }

  function FieldsOf<F, N, S>(st: State<F, N, S>, i: nat, passed: Passed<F>): F
    requires i < |st.held|
  {
    if passed.Own? then st.held[i].fields else passed.fields
  }

  function Log<F, N, S>(st: State<F, N, S>, e: Event): State<F, N, S> {
    st.(trace := st.trace + [e])
  }

  /** A hook's edit in place: of the builder's own mutation, or of the one passed instead. */
  function Edit<F, N, S>(st: State<F, N, S>, i: nat, passed: Passed<F>, f: F): (r: (State<F, N, S>, Passed<F>))
    requires i < |st.held|
  {
    if passed.Own? then (st.(held := st.held[i := st.held[i].(fields := f)]), Own) else (st, Fresh(f))
  }

  /** builder.mutation = mutation, then nodes[i], specs[i] = builder.createSpec(). */
  function Adopt<F, N, S>(env: Env<F, N, S>, st: State<F, N, S>, i: nat, passed: Passed<F>): State<F, N, S>
    requires i < |st.held| == |st.nodes| == |st.specs|
  {
    var fields := FieldsOf(st, i, passed);
    var held := if passed.Own? then st.held else st.held[i := Held(passed.fields, None, false)];
    Log(st.(held := held,
            nodes := st.nodes[i := Some((env.node(fields), 0))],
            specs := st.specs[i := Some(env.spec(fields))]), MakeSpec(i))
  }

  /** The batch insert at the end of the chain. */
  function InsertAll<F, N, S>(env: Env<F, N, S>, st: State<F, N, S>): (r: (State<F, N, S>, Outcome)) {
    var st1 := Log(st.(batches := st.batches + [st.specs]), Insert);
    match env.insert(st.specs)
    case Rejected(f) => (st1, Err(f))
    case Accepted(ids) => (st1.(given := ids), Ok)
  }

  /** The tail of a link once the rest of the chain has succeeded. */
  function Complete<F, N, S>(st: State<F, N, S>, i: nat): State<F, N, S>
    requires i < |st.held| == |st.nodes| && st.nodes[i].Some?
  {
    var (node, id0) := st.nodes[i].value;
    var id := if st.given(i).Some? then st.given(i).value else id0;
    Log(st.(nodes := st.nodes[i := Some((node, id))],
            held := st.held[i := st.held[i].(id := Some(id), done := true)]), Finish(i))
  }

  /** Calling a mutator. */
  function Mutate<F, N, S>(
    env: Env<F, N, S>, ms: seq<Mutator<F>>, m: Mutator<F>, passed: Passed<F>, st: State<F, N, S>)
    : (r: (State<F, N, S>, Outcome))
    requires WellBuilt(ms) && Shaped(ms, st) && Base(m) < |ms|
    ensures Shaped(ms, r.0)
    ensures forall k :: 0 <= k < Base(m) ==> r.0.nodes[k] == st.nodes[k]
    decreases |ms| - Base(m), m
  {
    match m
    case Hooked(h, hook, next) =>
      var i := Base(m);
      var st1 := Log(st, Enter(i, h));
      var (st2, r) := (match hook.before(FieldsOf(st1, i, passed))
        case Refuse(code) => (st1, Err(HookRefused(code)))
        case Skip => (st1, Ok)
        case Forward(f) =>
          var (st', passed') := Edit(st1, i, passed, f);
          Mutate(env, ms, next, passed', st')
        case Replace(f) => Mutate(env, ms, next, Fresh(f), st1));
      (Log(st2, Leave(i, h)), hook.after(r))
    case Link(i) =>
      var st1 := Log(st, Check(i));
      if env.check(st1.held[i].fields).Some? then (st1, Err(env.check(st1.held[i].fields).value))
      else
        var st2 := Adopt(env, st1, i, passed);
        var (st3, r) := if i + 1 < |ms| then Mutate(env, ms, ms[i + 1], Own, st2) else InsertAll(env, st2);
        if r.Err? then (st3, r) else (Complete(st3, i), Ok)
  }

  /** The hook's part of a call, unfolded once. */
  lemma HookedCall<F, N, S>(
    env: Env<F, N, S>, ms: seq<Mutator<F>>, m: Mutator<F>, passed: Passed<F>, st: State<F, N, S>, seen: F)
    requires m.Hooked? && WellBuilt(ms) && Shaped(ms, st) && Base(m) < |ms|
    requires seen == FieldsOf(st, Base(m), passed)
    ensures Base(m.next) == Base(m)
    ensures
      var i, d := Base(m), m.hook.before(seen);
      var st1 := Log(st, Enter(i, m.number));
      var st', r' := Mutate(env, ms, m, passed, st).0, Mutate(env, ms, m, passed, st).1;
      && Shaped(ms, st1)
      && (d.Refuse? ==> st' == Log(st1, Leave(i, m.number)) && r' == m.hook.after(Err(HookRefused(d.code))))
      && (d.Skip? ==> st' == Log(st1, Leave(i, m.number)) && r' == m.hook.after(Ok))
      && (d.Forward? ==>
            var e := Edit(st1, i, passed, d.edited);
            && Shaped(ms, e.0)
            && var inner := Mutate(env, ms, m.next, e.1, e.0);
               st' == Log(inner.0, Leave(i, m.number)) && r' == m.hook.after(inner.1))
      && (d.Replace? ==>
            var inner := Mutate(env, ms, m.next, Fresh(d.fields), st1);
            st' == Log(inner.0, Leave(i, m.number)) && r' == m.hook.after(inner.1))
  {
  }

  lemma Adopted<F, N, S>(env: Env<F, N, S>, ms: seq<Mutator<F>>, st: State<F, N, S>, i: nat, passed: Passed<F>)
    requires Shaped(ms, st) && i < |ms|
    ensures Shaped(ms, Adopt(env, st, i, passed)) && Adopt(env, st, i, passed).nodes[i].Some?
    ensures forall st': State<F, N, S> :: InsertAll(env, st').0.nodes == st'.nodes
    ensures forall st': State<F, N, S> :: Shaped(ms, st') ==> Shaped(ms, InsertAll(env, st').0)
  {
  }

  /** The link's part of a call, unfolded once. */
  lemma LinkCall<F, N, S>(env: Env<F, N, S>, ms: seq<Mutator<F>>, i: nat, passed: Passed<F>, st: State<F, N, S>)
    requires WellBuilt(ms) && Shaped(ms, st) && i < |ms|
    ensures i + 1 < |ms| ==> Base(ms[i + 1]) == i + 1
    ensures
      var st1, failed := Log(st, Check(i)), env.check(st.held[i].fields);
      var res := Mutate(env, ms, Link(i), passed, st);
      && Shaped(ms, st1)
      && (failed.Some? ==> res == (st1, Err(failed.value)))
      && (failed.None? ==>
            var st2 := Adopt(env, st1, i, passed);
            && Shaped(ms, st2)
            && var rest := if i + 1 < |ms| then Mutate(env, ms, ms[i + 1], Own, st2) else InsertAll(env, st2);
               && Shaped(ms, rest.0) && rest.0.nodes[i].Some?
               && res == if rest.1.Err? then rest else (Complete(rest.0, i), Ok))
  {
    hide Adopt, InsertAll, Complete, FieldsOf;
    Adopted(env, ms, Log(st, Check(i)), i, passed);
  }

  // ---------- each builder by itself ----------

  /**
   The reference: what one builder's hooks and check come to when it is run alone, with
   no state and no other builder. `Some(f)` says that no hook stops it and that its check
   passes, and gives the fields its spec is made from.
   */
  function Ready<F, N, S>(env: Env<F, N, S>, m: Mutator<F>, own: F, passed: Passed<F>): Option<F> {
    match m
    case Hooked(_, hook, next) =>
      var seen := if passed.Own? then own else passed.fields;
      (match hook.before(seen)
       case Refuse(_) => None
       case Skip => None
       case Forward(f) => if passed.Own? then Ready(env, next, f, Own) else Ready(env, next, own, Fresh(f))
       case Replace(f) => Ready(env, next, own, Fresh(f)))
    case Link(_) =>
      if env.check(own).Some? then None else Some(if passed.Own? then own else passed.fields)
  }

  /** The fields that builder j will insert, for j at or after the mutator being called. */
  function ReadyAt<F, N, S>(
    env: Env<F, N, S>, ms: seq<Mutator<F>>, m: Mutator<F>, passed: Passed<F>, st: State<F, N, S>, j: nat): Option<F>
    requires Shaped(ms, st) && Base(m) <= j < |ms|
  {
    if j == Base(m) then Ready(env, m, st.held[j].fields, passed) else Ready(env, ms[j], st.held[j].fields, Own)
  }

  ghost predicate AllReady<F, N, S>(
    env: Env<F, N, S>, ms: seq<Mutator<F>>, m: Mutator<F>, passed: Passed<F>, st: State<F, N, S>)
    requires Shaped(ms, st) && Base(m) < |ms|
  {
    forall j :: Base(m) <= j < |ms| ==> ReadyAt(env, ms, m, passed, st, j).Some?
  }

  /** The slots of the batch when all of them are ready: each builder's own spec. */
  ghost function OwnSpecs<F, N, S>(
    env: Env<F, N, S>, ms: seq<Mutator<F>>, m: Mutator<F>, passed: Passed<F>, st: State<F, N, S>)
    : (specs: seq<Option<S>>)
    requires Shaped(ms, st) && Base(m) < |ms| && AllReady(env, ms, m, passed, st)
    ensures |specs| == |ms|
  {
    seq(|ms|, j requires 0 <= j < |ms| =>
      if j < Base(m) then st.specs[j] else Some(env.spec(ReadyAt(env, ms, m, passed, st, j).value)))
  }

  ghost predicate HonestMutator<F(!new)>(m: Mutator<F>) {
    m.Hooked? ==> Honest(m.hook) && HonestMutator(m.next)
  }

  ghost predicate HonestChain<F(!new)>(ms: seq<Mutator<F>>) {
    forall i :: 0 <= i < |ms| ==> HonestMutator(ms[i])
  }

  /** None of the builders from `i` on is marked done. */
  ghost predicate Undone<F, N, S>(st: State<F, N, S>, i: nat) {
    forall j :: i <= j < |st.held| ==> !st.held[j].done
  }

  // ---------- what one call of a mutator does ----------

  /** The batch insert ran once, on every builder's own spec, or not at all. */
  ghost predicate InsertsOnce<F, N, S>(
    env: Env<F, N, S>, ms: seq<Mutator<F>>, m: Mutator<F>, passed: Passed<F>, st: State<F, N, S>, st': State<F, N, S>)
    requires Shaped(ms, st) && Base(m) < |ms|
  {
    st'.batches ==
      if AllReady(env, ms, m, passed, st) then st.batches + [OwnSpecs(env, ms, m, passed, st)] else st.batches
  }

  ghost predicate InsertAccepted<F, N, S>(
    env: Env<F, N, S>, ms: seq<Mutator<F>>, m: Mutator<F>, passed: Passed<F>, st: State<F, N, S>)
    requires Shaped(ms, st) && Base(m) < |ms|
  {
    AllReady(env, ms, m, passed, st) && env.insert(OwnSpecs(env, ms, m, passed, st)).Accepted?
  }

  /** The hooks of a mutator let a success through. */
  ghost predicate LetsPass<F>(m: Mutator<F>) {
    m.Hooked? ==> m.hook.after(Ok).Ok? && LetsPass(m.next)
  }

  /** So do those of every builder after i. */
  ghost predicate LaterLetPass<F>(ms: seq<Mutator<F>>, i: nat) {
    forall j :: i < j < |ms| ==> LetsPass(ms[j])
  }

  lemma LaterLetPassStep<F>(ms: seq<Mutator<F>>, i: nat)
    requires i + 1 < |ms|
    ensures LaterLetPass(ms, i) <==> LetsPass(ms[i + 1]) && LaterLetPass(ms, i + 1)
  {
    hide LetsPass;
  }

  /** From builder i on, a builder is done exactly when the insert was accepted and its success came back to it. */
  ghost predicate ExactlyDone<F, N, S>(ms: seq<Mutator<F>>, st: State<F, N, S>, i: nat, accepted: bool)
    requires Shaped(ms, st)
  {
    forall j :: i <= j < |ms| ==> (st.held[j].done <==> accepted && LaterLetPass(ms, j))
  }

  /** What is known of one call: the induction over the chain and the hooks. */
  ghost predicate CallFacts<F, N, S>(
    env: Env<F, N, S>, ms: seq<Mutator<F>>, m: Mutator<F>, passed: Passed<F>, st: State<F, N, S>,
    st': State<F, N, S>, r: Outcome)
    requires Shaped(ms, st) && Shaped(ms, st') && Base(m) < |ms|
  {
    var i := Base(m);
    && InsertsOnce(env, ms, m, passed, st, st')
    && ExactlyDone(ms, st', i, InsertAccepted(env, ms, m, passed, st))
    && (r.Ok? <==> InsertAccepted(env, ms, m, passed, st) && LetsPass(m) && LaterLetPass(ms, i))
    && (forall j :: 0 <= j < i ==> st'.held[j] == st.held[j])
  }

  lemma {:induction false} CallLemma<F(!new), N, S>(
    env: Env<F, N, S>, ms: seq<Mutator<F>>, m: Mutator<F>, passed: Passed<F>, st: State<F, N, S>)
    requires WellBuilt(ms) && Shaped(ms, st) && Base(m) < |ms|
    requires HonestChain(ms) && HonestMutator(m) && Undone(st, Base(m))
    ensures
      var (st', r) := Mutate(env, ms, m, passed, st);
      CallFacts(env, ms, m, passed, st, st', r)
    decreases |ms| - Base(m), m
  {
    match m
    case Hooked(h, hook, next) => HookedLemma(env, ms, m, passed, st);
    case Link(i) => LinkLemma(env, ms, m, passed, st);
  }

  /** The hook's part of a builder taken alone. */
  lemma HookedReady<F, N, S>(env: Env<F, N, S>, m: Mutator<F>, own: F, passed: Passed<F>)
    requires m.Hooked?
    ensures
      var d := m.hook.before(if passed.Own? then own else passed.fields);
      && (d.Refuse? || d.Skip? ==> Ready(env, m, own, passed).None?)
      && (d.Forward? ==>
            Ready(env, m, own, passed) ==
            if passed.Own? then Ready(env, m.next, d.edited, Own) else Ready(env, m.next, own, Fresh(d.edited)))
      && (d.Replace? ==> Ready(env, m, own, passed) == Ready(env, m.next, own, Fresh(d.fields)))
  {
  }

  /** A hook that calls next leaves what each builder will insert as it was. */
  lemma SameReady<F, N, S>(
    env: Env<F, N, S>, ms: seq<Mutator<F>>, m: Mutator<F>, passed: Passed<F>, st: State<F, N, S>,
    passed2: Passed<F>, st2: State<F, N, S>)
    requires m.Hooked? && Shaped(ms, st) && Shaped(ms, st2) && Base(m) < |ms|
    requires st2.specs == st.specs
    requires forall j :: 0 <= j < |ms| && j != Base(m) ==> st2.held[j] == st.held[j]
    requires Ready(env, m, st.held[Base(m)].fields, passed) == Ready(env, m.next, st2.held[Base(m)].fields, passed2)
    ensures AllReady(env, ms, m, passed, st) <==> AllReady(env, ms, m.next, passed2, st2)
    ensures AllReady(env, ms, m, passed, st) ==>
      OwnSpecs(env, ms, m, passed, st) == OwnSpecs(env, ms, m.next, passed2, st2)
    ensures forall j :: Base(m) <= j < |ms| ==>
      ReadyAt(env, ms, m, passed, st, j) == ReadyAt(env, ms, m.next, passed2, st2, j)
  {
    hide Ready;
    forall j | Base(m) <= j < |ms|
      ensures ReadyAt(env, ms, m, passed, st, j) == ReadyAt(env, ms, m.next, passed2, st2, j)
    {
    }
  }

  lemma {:induction false} HookedLemma<F(!new), N, S>(
    env: Env<F, N, S>, ms: seq<Mutator<F>>, m: Mutator<F>, passed: Passed<F>, st: State<F, N, S>)
    requires m.Hooked? && WellBuilt(ms) && Shaped(ms, st) && Base(m) < |ms|
    requires HonestChain(ms) && HonestMutator(m) && Undone(st, Base(m))
    ensures
      var (st', r) := Mutate(env, ms, m, passed, st);
      CallFacts(env, ms, m, passed, st, st', r)
    decreases |ms| - Base(m), m, 0
  {
    hide Mutate, OwnSpecs, Ready, LaterLetPass;
    HookedCall(env, ms, m, passed, st, FieldsOf(st, Base(m), passed));
    HookedReady(env, m, st.held[Base(m)].fields, passed);
    var i := Base(m);
    var st1 := Log(st, Enter(i, m.number));
    match m.hook.before(FieldsOf(st1, i, passed)) {
      case Refuse(code) =>
        assert ReadyAt(env, ms, m, passed, st, i).None?;
      case Skip =>
      case Forward(f) =>
        var (st2, passed2) := Edit(st1, i, passed, f);
        CallLemma(env, ms, m.next, passed2, st2);
        SameReady(env, ms, m, passed, st, passed2, st2);
      case Replace(f) =>
        CallLemma(env, ms, m.next, Fresh(f), st1);
        SameReady(env, ms, m, passed, st, Fresh(f), st1);
    }
  }

  /** From what the next mutator did to what this link did. */
  lemma Unwind<F, N, S>(
    env: Env<F, N, S>, ms: seq<Mutator<F>>, m: Mutator<F>, passed: Passed<F>, st: State<F, N, S>,
    st2: State<F, N, S>, st3: State<F, N, S>, r: Outcome)
    requires m.Link? && WellBuilt(ms) && Shaped(ms, st) && Shaped(ms, st3) && m.index + 1 < |ms|
    requires Undone(st, m.index) && st2 == Adopt(env, Log(st, Check(m.index)), m.index, passed)
    requires AllReady(env, ms, m, passed, st) <==> AllReady(env, ms, ms[m.index + 1], Own, st2)
    requires AllReady(env, ms, m, passed, st) ==>
      OwnSpecs(env, ms, m, passed, st) == OwnSpecs(env, ms, ms[m.index + 1], Own, st2)
    requires CallFacts(env, ms, ms[m.index + 1], Own, st2, st3, r)
    requires st3.nodes[m.index].Some?
    ensures
      if r.Err? then CallFacts(env, ms, m, passed, st, st3, r)
      else CallFacts(env, ms, m, passed, st, Complete(st3, m.index), Ok)
  {
    LaterLetPassStep(ms, m.index);
    hide Ready, ReadyAt, OwnSpecs, AllReady, LaterLetPass;
  }

  lemma CheckFails<F, N, S>(
    env: Env<F, N, S>, ms: seq<Mutator<F>>, m: Mutator<F>, passed: Passed<F>, st: State<F, N, S>)
    requires m.Link? && Shaped(ms, st) && m.index < |ms| && env.check(st.held[m.index].fields).Some?
    ensures !AllReady(env, ms, m, passed, st)
  {
    assert ReadyAt(env, ms, m, passed, st, m.index).None?;
  }

  /** The rest of the chain is ready exactly when the whole of it is, once this check has passed. */
  lemma NextReady<F, N, S>(
    env: Env<F, N, S>, ms: seq<Mutator<F>>, m: Mutator<F>, passed: Passed<F>, st: State<F, N, S>, st2: State<F, N, S>)
    requires m.Link? && WellBuilt(ms) && Shaped(ms, st) && m.index + 1 < |ms|
    requires env.check(st.held[m.index].fields).None?
    requires st2 == Adopt(env, Log(st, Check(m.index)), m.index, passed)
    ensures AllReady(env, ms, m, passed, st) <==> AllReady(env, ms, ms[m.index + 1], Own, st2)
    ensures AllReady(env, ms, m, passed, st) ==>
      OwnSpecs(env, ms, m, passed, st) == OwnSpecs(env, ms, ms[m.index + 1], Own, st2)
    ensures forall j :: m.index < j < |ms| ==>
      ReadyAt(env, ms, m, passed, st, j) == ReadyAt(env, ms, ms[m.index + 1], Own, st2, j)
  {
    var rest := ms[m.index + 1];
    assert Base(rest) == m.index + 1;
    assert ReadyAt(env, ms, m, passed, st, m.index).Some?;
    assert forall j :: m.index < j < |ms| ==>
      ReadyAt(env, ms, m, passed, st, j) == ReadyAt(env, ms, rest, Own, st2, j);
    hide ReadyAt;
    if AllReady(env, ms, m, passed, st) {
      assert forall j :: Base(rest) <= j < |ms| ==> ReadyAt(env, ms, m, passed, st, j).Some?;
      assert AllReady(env, ms, rest, Own, st2);
    }
    if AllReady(env, ms, rest, Own, st2) {
      assert forall j :: m.index <= j < |ms| ==> j == m.index || ReadyAt(env, ms, rest, Own, st2, j).Some?;
      assert AllReady(env, ms, m, passed, st);
    }
  }

  lemma LastReady<F, N, S>(
    env: Env<F, N, S>, ms: seq<Mutator<F>>, m: Mutator<F>, passed: Passed<F>, st: State<F, N, S>, st2: State<F, N, S>)
    requires m.Link? && Shaped(ms, st) && m.index + 1 == |ms|
    requires env.check(st.held[m.index].fields).None?
    requires st2 == Adopt(env, Log(st, Check(m.index)), m.index, passed)
    ensures AllReady(env, ms, m, passed, st) && OwnSpecs(env, ms, m, passed, st) == st2.specs
  {
    assert ReadyAt(env, ms, m, passed, st, m.index) == Some(FieldsOf(st, m.index, passed));
  }

  lemma {:induction false} LinkLemma<F(!new), N, S>(
    env: Env<F, N, S>, ms: seq<Mutator<F>>, m: Mutator<F>, passed: Passed<F>, st: State<F, N, S>)
    requires m.Link? && WellBuilt(ms) && Shaped(ms, st) && Base(m) < |ms|
    requires HonestChain(ms) && Undone(st, Base(m))
    ensures
      var (st', r) := Mutate(env, ms, m, passed, st);
      CallFacts(env, ms, m, passed, st, st', r)
    decreases |ms| - Base(m), m, 0
  {
    LinkCall(env, ms, m.index, passed, st);
    hide Mutate, Ready, ReadyAt, OwnSpecs;
    var i := m.index;
    var st1 := Log(st, Check(i));
    if env.check(st1.held[i].fields).Some? {
      CheckFails(env, ms, m, passed, st);
    } else {
      var st2 := Adopt(env, st1, i, passed);
      if i + 1 < |ms| {
        CallLemma(env, ms, ms[i + 1], Own, st2);
        NextReady(env, ms, m, passed, st, st2);
        var (st3, r) := Mutate(env, ms, ms[i + 1], Own, st2);
        Unwind(env, ms, m, passed, st, st2, st3, r);
      } else {
        LastReady(env, ms, m, passed, st, st2);
      }
    }
  }

  // ---------- what a successful call leaves behind ----------

  /** The id that the insert gave to slot j, or zero when it gave none. */
  function GivenID<F, N, S>(st: State<F, N, S>, j: nat): int {
    if st.given(j).Some? then st.given(j).value else 0
  }

  ghost predicate FinishedAt<F, N, S>(env: Env<F, N, S>, st: State<F, N, S>, j: nat, ready: Option<F>)
    requires j < |st.held| == |st.nodes|
  {
    && ready.Some?
    && st.nodes[j] == Some((env.node(ready.value), GivenID(st, j)))
    && st.held[j] == Held(ready.value, Some(GivenID(st, j)), true)
  }

  /** Every builder from this one on is finished: its node, its id and its mutation are its own. */
  ghost predicate Finished<F, N, S>(
    env: Env<F, N, S>, ms: seq<Mutator<F>>, m: Mutator<F>, passed: Passed<F>, st: State<F, N, S>, st': State<F, N, S>)
    requires Shaped(ms, st) && Shaped(ms, st') && Base(m) < |ms|
  {
    forall j :: Base(m) <= j < |ms| ==> FinishedAt(env, st', j, ReadyAt(env, ms, m, passed, st, j))
  }

  ghost predicate LastInsertGave<F, N, S>(env: Env<F, N, S>, st: State<F, N, S>) {
    |st.batches| > 0 && env.insert(st.batches[|st.batches| - 1]) == Accepted(st.given)
  }

  /** A successful call finishes every builder from its own on, under the ids of the last insert. */
  ghost predicate FinishFacts<F, N, S>(
    env: Env<F, N, S>, ms: seq<Mutator<F>>, m: Mutator<F>, passed: Passed<F>, st: State<F, N, S>,
    st': State<F, N, S>, r: Outcome)
    requires Shaped(ms, st) && Shaped(ms, st') && Base(m) < |ms|
  {
    r.Ok? ==> Finished(env, ms, m, passed, st, st') && LastInsertGave(env, st')
  }

  lemma {:induction false} FinishLemma<F(!new), N, S>(
    env: Env<F, N, S>, ms: seq<Mutator<F>>, m: Mutator<F>, passed: Passed<F>, st: State<F, N, S>)
    requires WellBuilt(ms) && Shaped(ms, st) && Base(m) < |ms|
    requires HonestChain(ms) && HonestMutator(m)
    ensures
      var (st', r) := Mutate(env, ms, m, passed, st);
      FinishFacts(env, ms, m, passed, st, st', r)
    decreases |ms| - Base(m), m
  {
    if m.Link? {
      FinishLink(env, ms, m, passed, st);
    } else {
      FinishHooked(env, ms, m, passed, st);
    }
  }

  /** What the call of next finished is what the hooked call owes. */
  lemma FinishThrough<F, N, S>(
    env: Env<F, N, S>, ms: seq<Mutator<F>>, m: Mutator<F>, passed: Passed<F>, st: State<F, N, S>,
    passed2: Passed<F>, st2: State<F, N, S>, st3: State<F, N, S>)
    requires m.Hooked? && Shaped(ms, st) && Shaped(ms, st2) && Shaped(ms, st3) && Base(m) < |ms|
    requires st2.specs == st.specs
    requires forall j :: 0 <= j < |ms| && j != Base(m) ==> st2.held[j] == st.held[j]
    requires Ready(env, m, st.held[Base(m)].fields, passed) == Ready(env, m.next, st2.held[Base(m)].fields, passed2)
    ensures forall e ::
      Finished(env, ms, m.next, passed2, st2, st3) && LastInsertGave(env, st3) ==>
        Finished(env, ms, m, passed, st, Log(st3, e)) && LastInsertGave(env, Log(st3, e))
  {
    SameReady(env, ms, m, passed, st, passed2, st2);
    hide Ready, ReadyAt;
  }

  lemma {:induction false} FinishHooked<F(!new), N, S>(
    env: Env<F, N, S>, ms: seq<Mutator<F>>, m: Mutator<F>, passed: Passed<F>, st: State<F, N, S>)
    requires m.Hooked? && WellBuilt(ms) && Shaped(ms, st) && Base(m) < |ms|
    requires HonestChain(ms) && HonestMutator(m)
    ensures
      var (st', r) := Mutate(env, ms, m, passed, st);
      FinishFacts(env, ms, m, passed, st, st', r)
    decreases |ms| - Base(m), m, 0
  {
    HookedCall(env, ms, m, passed, st, FieldsOf(st, Base(m), passed));
    hide Mutate, Finished, LastInsertGave;
    var i := Base(m);
    var st1 := Log(st, Enter(i, m.number));
    match m.hook.before(FieldsOf(st1, i, passed)) {
      case Forward(f) =>
        var (st2, passed2) := Edit(st1, i, passed, f);
        FinishLemma(env, ms, m.next, passed2, st2);
        FinishThrough(env, ms, m, passed, st, passed2, st2, Mutate(env, ms, m.next, passed2, st2).0);
      case Replace(f) =>
        FinishLemma(env, ms, m.next, Fresh(f), st1);
        FinishThrough(env, ms, m, passed, st, Fresh(f), st1, Mutate(env, ms, m.next, Fresh(f), st1).0);
      case _ =>
    }
  }

  lemma LoggedCheck<F(!new), N, S>(ms: seq<Mutator<F>>, st: State<F, N, S>, i: nat)
    requires HonestChain(ms) && i < |ms|
    ensures Log(st, Check(i)).held == st.held && (i + 1 < |ms| ==> HonestMutator(ms[i + 1]))
  {
  }

  lemma FinishLast<F, N, S>(
    env: Env<F, N, S>, ms: seq<Mutator<F>>, m: Mutator<F>, passed: Passed<F>, st: State<F, N, S>, st2: State<F, N, S>)
    requires m.Link? && Shaped(ms, st) && m.index + 1 == |ms| && env.check(st.held[m.index].fields).None?
    requires st2 == Adopt(env, Log(st, Check(m.index)), m.index, passed)
    ensures Finished(env, ms, m, passed, st, Complete(InsertAll(env, st2).0, m.index))
    ensures InsertAll(env, st2).1.Ok? ==> LastInsertGave(env, Complete(InsertAll(env, st2).0, m.index))
  {
    assert ReadyAt(env, ms, m, passed, st, m.index) == Some(FieldsOf(st, m.index, passed));
  }

  lemma FinishTail<F, N, S>(
    env: Env<F, N, S>, ms: seq<Mutator<F>>, m: Mutator<F>, passed: Passed<F>, st: State<F, N, S>,
    st2: State<F, N, S>, st3: State<F, N, S>)
    requires m.Link? && WellBuilt(ms) && Shaped(ms, st) && Shaped(ms, st3) && m.index + 1 < |ms|
    requires env.check(st.held[m.index].fields).None?
    requires st2 == Adopt(env, Log(st, Check(m.index)), m.index, passed)
    requires Finished(env, ms, ms[m.index + 1], Own, st2, st3)
    requires st3.held[m.index] == st2.held[m.index] && st3.nodes[m.index] == st2.nodes[m.index]
    requires forall j :: m.index < j < |ms| ==>
      ReadyAt(env, ms, m, passed, st, j) == ReadyAt(env, ms, ms[m.index + 1], Own, st2, j)
    ensures Finished(env, ms, m, passed, st, Complete(st3, m.index))
    ensures LastInsertGave(env, st3) ==> LastInsertGave(env, Complete(st3, m.index))
  {
    assert ReadyAt(env, ms, m, passed, st, m.index) == Some(FieldsOf(st, m.index, passed));
    hide Ready, ReadyAt;
    var st' := Complete(st3, m.index);
    forall j | m.index <= j < |ms| ensures FinishedAt(env, st', j, ReadyAt(env, ms, m, passed, st, j)) {
      assert j > m.index ==> FinishedAt(env, st3, j, ReadyAt(env, ms, ms[m.index + 1], Own, st2, j));
    }
  }

  /** A call touches no builder before its own. */
  lemma {:induction false} EarlierKept<F, N, S>(
    env: Env<F, N, S>, ms: seq<Mutator<F>>, m: Mutator<F>, passed: Passed<F>, st: State<F, N, S>)
    requires WellBuilt(ms) && Shaped(ms, st) && Base(m) < |ms|
    ensures
      var (st', r) := Mutate(env, ms, m, passed, st);
      forall j :: 0 <= j < Base(m) ==> st'.held[j] == st.held[j]
    decreases |ms| - Base(m), m
  {
    var i := Base(m);
    match m
    case Hooked(h, hook, next) =>
      HookedCall(env, ms, m, passed, st, FieldsOf(st, Base(m), passed));
      hide Mutate;
      var st1 := Log(st, Enter(i, h));
      match hook.before(FieldsOf(st1, i, passed)) {
        case Forward(f) =>
          var (st2, passed2) := Edit(st1, i, passed, f);
          EarlierKept(env, ms, next, passed2, st2);
        case Replace(f) => EarlierKept(env, ms, next, Fresh(f), st1);
        case _ =>
      }
    case Link(_) =>
      LinkCall(env, ms, i, passed, st);
      hide Mutate;
      if i + 1 < |ms| {
        EarlierKept(env, ms, ms[i + 1], Own, Adopt(env, Log(st, Check(i)), i, passed));
      }
  }

  lemma {:induction false} FinishLink<F(!new), N, S>(
    env: Env<F, N, S>, ms: seq<Mutator<F>>, m: Mutator<F>, passed: Passed<F>, st: State<F, N, S>)
    requires m.Link? && WellBuilt(ms) && Shaped(ms, st) && Base(m) < |ms|
    requires HonestChain(ms)
    ensures
      var (st', r) := Mutate(env, ms, m, passed, st);
      FinishFacts(env, ms, m, passed, st, st', r)
    decreases |ms| - Base(m), m, 0
  {
    hide Mutate, LastInsertGave, Complete, InsertAll, Ready, ReadyAt, Finished, HonestMutator, HonestChain, WellBuilt,
      Adopt, Log, AllReady, OwnSpecs;
    var i := m.index;
    var st1 := Log(st, Check(i));
    LinkCall(env, ms, i, passed, st);
    LoggedCheck(ms, st, i);
    if env.check(st1.held[i].fields).None? {
      var st2 := Adopt(env, st1, i, passed);
      if i + 1 == |ms| {
        FinishLast(env, ms, m, passed, st, st2);
      } else {
        FinishLemma(env, ms, ms[i + 1], Own, st2);
        NextReady(env, ms, m, passed, st, st2);
        EarlierKept(env, ms, ms[i + 1], Own, st2);
        var (st3, r) := Mutate(env, ms, ms[i + 1], Own, st2);
        if r.Ok? { FinishTail(env, ms, m, passed, st, st2, st3); }
      }
    }
  }

  // ---------- the order of events ----------

  /** The events of a successful call. */
  ghost function Expected<F>(ms: seq<Mutator<F>>, m: Mutator<F>): seq<Event>
    requires WellBuilt(ms) && Base(m) < |ms|
    decreases |ms| - Base(m), m
  {
    match m
    case Hooked(h, _, next) => [Enter(Base(m), h)] + Expected(ms, next) + [Leave(Base(m), h)]
    case Link(i) =>
      [Check(i), MakeSpec(i)] + (if i + 1 < |ms| then Expected(ms, ms[i + 1]) else [Insert]) + [Finish(i)]
  }

  lemma {:induction false} TraceLemma<F(!new), N, S>(
    env: Env<F, N, S>, ms: seq<Mutator<F>>, m: Mutator<F>, passed: Passed<F>, st: State<F, N, S>)
    requires WellBuilt(ms) && Shaped(ms, st) && Base(m) < |ms|
    requires HonestChain(ms) && HonestMutator(m)
    ensures
      var (st', r) := Mutate(env, ms, m, passed, st);
      r.Ok? ==> st'.trace == st.trace + Expected(ms, m)
    decreases |ms| - Base(m), m
  {
    if m.Link? {
      TraceLink(env, ms, m, passed, st);
    } else {
      TraceHooked(env, ms, m, passed, st);
    }
  }

  lemma Regroup(t: seq<Event>, a: seq<Event>, b: seq<Event>, c: seq<Event>)
    ensures t + a + b + c == t + (a + b + c)
  {
  }

  lemma {:induction false} TraceHooked<F(!new), N, S>(
    env: Env<F, N, S>, ms: seq<Mutator<F>>, m: Mutator<F>, passed: Passed<F>, st: State<F, N, S>)
    requires WellBuilt(ms) && Shaped(ms, st) && Base(m) < |ms|
    requires HonestChain(ms) && HonestMutator(m) && m.Hooked?
    ensures
      var (st', r) := Mutate(env, ms, m, passed, st);
      r.Ok? ==> st'.trace == st.trace + Expected(ms, m)
    decreases |ms| - Base(m), m, 0
  {
    var i, h, next := Base(m), m.number, m.next;
    var st1 := Log(st, Enter(i, h));
    Regroup(st.trace, [Enter(i, h)], Expected(ms, next), [Leave(i, h)]);
    assert Expected(ms, m) == [Enter(i, h)] + Expected(ms, next) + [Leave(i, h)];
    HookedCall(env, ms, m, passed, st, FieldsOf(st, Base(m), passed));
    hide Expected, Mutate;
    match m.hook.before(FieldsOf(st1, i, passed)) {
      case Forward(f) =>
        var (st2, passed2) := Edit(st1, i, passed, f);
        TraceLemma(env, ms, next, passed2, st2);
      case Replace(f) =>
        TraceLemma(env, ms, next, Fresh(f), st1);
      case _ =>
    }
  }

  lemma ExpectedLink<F>(ms: seq<Mutator<F>>, m: Mutator<F>, middle: seq<Event>)
    requires WellBuilt(ms) && m.Link? && m.index < |ms|
    requires middle == if m.index + 1 < |ms| then Expected(ms, ms[m.index + 1]) else [Insert]
    ensures Expected(ms, m) == [Check(m.index), MakeSpec(m.index)] + middle + [Finish(m.index)]
  {
  }

  lemma LinkEvents<F, N, S>(
    env: Env<F, N, S>, st: State<F, N, S>, st2: State<F, N, S>, st3: State<F, N, S>, i: nat, passed: Passed<F>)
    requires i < |st.held| == |st.nodes| == |st.specs| && st2 == Adopt(env, Log(st, Check(i)), i, passed)
    requires i < |st3.held| == |st3.nodes| && st3.nodes[i].Some?
    ensures st2.trace == st.trace + [Check(i), MakeSpec(i)]
    ensures InsertAll(env, st2).0.trace == st2.trace + [Insert]
    ensures Complete(st3, i).trace == st3.trace + [Finish(i)]
  {
  }

  lemma {:induction false} TraceLink<F(!new), N, S>(
    env: Env<F, N, S>, ms: seq<Mutator<F>>, m: Mutator<F>, passed: Passed<F>, st: State<F, N, S>)
    requires WellBuilt(ms) && Shaped(ms, st) && Base(m) < |ms|
    requires HonestChain(ms) && HonestMutator(m) && m.Link?
    ensures
      var (st', r) := Mutate(env, ms, m, passed, st);
      r.Ok? ==> st'.trace == st.trace + Expected(ms, m)
    decreases |ms| - Base(m), m, 0
  {
    hide Mutate, Expected, HonestMutator, Adopt, Complete, InsertAll, WellBuilt;
    var i := m.index;
    var st1 := Log(st, Check(i));
    LinkCall(env, ms, i, passed, st);
    if env.check(st1.held[i].fields).None? {
      var st2 := Adopt(env, st1, i, passed);
      var middle := if i + 1 < |ms| then Expected(ms, ms[i + 1]) else [Insert];
      ExpectedLink(ms, m, middle);
      var (st3, r) := if i + 1 < |ms| then Mutate(env, ms, ms[i + 1], Own, st2) else InsertAll(env, st2);
      if i + 1 < |ms| {
        TraceLemma(env, ms, ms[i + 1], Own, st2);
      }
      LinkEvents(env, st, st2, st3, i, passed);
      Regroup(st.trace, [Check(i), MakeSpec(i)], middle, [Finish(i)]);
    }
  }

  /** Nothing of a builder after `j`, and no insert, is among the events added. */
  ghost predicate StopsAt(before: seq<Event>, after: seq<Event>, j: nat) {
    && |before| <= |after| && after[..|before|] == before
    && forall k :: |before| <= k < |after| ==> !after[k].Insert? && after[k].builder <= j
  }

  lemma StopsThrough(a: seq<Event>, e: Event, b: seq<Event>, f: Event, j: nat)
    requires StopsAt(a + [e], b, j) && !e.Insert? && e.builder <= j && !f.Insert? && f.builder <= j
    ensures StopsAt(a, b, j) && StopsAt(a, b + [f], j)
  {
    assert a == (a + [e])[..|a|] == b[..|a|];
  }

  lemma StopsHere(a: seq<Event>, e: Event, f: Event, j: nat)
    requires !e.Insert? && e.builder <= j && !f.Insert? && f.builder <= j
    ensures StopsAt(a, a + [e], j) && StopsAt(a, a + [e] + [f], j)
  {
  }

  /** When some builder is not ready, no hook, check or spec of a builder after it is reached. */
  lemma {:induction false} FailedTrace<F(!new), N, S>(
    env: Env<F, N, S>, ms: seq<Mutator<F>>, m: Mutator<F>, passed: Passed<F>, st: State<F, N, S>, j: nat)
    requires WellBuilt(ms) && Shaped(ms, st) && Base(m) <= j < |ms| && HonestChain(ms) && HonestMutator(m)
    requires ReadyAt(env, ms, m, passed, st, j).None?
    ensures StopsAt(st.trace, Mutate(env, ms, m, passed, st).0.trace, j)
    decreases |ms| - Base(m), m
  {
    var i := Base(m);
    match m
    case Hooked(h, hook, next) =>
      HookedCall(env, ms, m, passed, st, FieldsOf(st, i, passed));
      hide Mutate, StopsAt;
      var st1 := Log(st, Enter(i, h));
      StopsHere(st.trace, Enter(i, h), Leave(i, h), j);
      match hook.before(FieldsOf(st1, i, passed)) {
        case Forward(f) =>
          var (st2, passed2) := Edit(st1, i, passed, f);
          FailedTrace(env, ms, next, passed2, st2, j);
          StopsThrough(st.trace, Enter(i, h), Mutate(env, ms, next, passed2, st2).0.trace, Leave(i, h), j);
        case Replace(f) =>
          FailedTrace(env, ms, next, Fresh(f), st1, j);
          StopsThrough(st.trace, Enter(i, h), Mutate(env, ms, next, Fresh(f), st1).0.trace, Leave(i, h), j);
        case _ =>
      }
    case Link(_) => FailedLink(env, ms, m, passed, st, j);
  }

  lemma StopsOn(a: seq<Event>, b: seq<Event>, c: seq<Event>, f: Event, j: nat)
    requires StopsAt(a, b, j) && StopsAt(b, c, j) && !f.Insert? && f.builder <= j
    ensures StopsAt(a, c, j) && StopsAt(a, c + [f], j)
  {
    assert a == b[..|a|] == c[..|b|][..|a|] == c[..|a|];
  }

  lemma {:induction false} FailedLink<F(!new), N, S>(
    env: Env<F, N, S>, ms: seq<Mutator<F>>, m: Mutator<F>, passed: Passed<F>, st: State<F, N, S>, j: nat)
    requires WellBuilt(ms) && Shaped(ms, st) && Base(m) <= j < |ms| && HonestChain(ms) && m.Link?
    requires ReadyAt(env, ms, m, passed, st, j).None?
    ensures StopsAt(st.trace, Mutate(env, ms, m, passed, st).0.trace, j)
    decreases |ms| - Base(m), m, 0
  {
    var i := m.index;
    LinkCall(env, ms, i, passed, st);
    StopsHere(st.trace, Check(i), MakeSpec(i), j);
    hide Mutate, StopsAt, HonestMutator;
    if env.check(st.held[i].fields).None? {
      assert i < j;
      var st2 := Adopt(env, Log(st, Check(i)), i, passed);
      NextReady(env, ms, m, passed, st, st2);
      FailedTrace(env, ms, ms[i + 1], Own, st2, j);
      var after := Mutate(env, ms, ms[i + 1], Own, st2);
      assert st2.trace == (st.trace + [Check(i)]) + [MakeSpec(i)];
      StopsOn(st.trace, st2.trace, after.0.trace, Finish(i), j);
    }
  }

  lemma RegroupChain(
    en: seq<Event>, own: seq<Event>, inner: seq<Event>, ins: seq<Event>, outer: seq<Event>, fin: seq<Event>,
    lv: seq<Event>)
    ensures en + (own + (inner + ins + outer) + fin) + lv == (en + own + inner) + ins + (outer + fin + lv)
  {
  }

  ghost function Entering(i: nat, h: nat, n: nat): seq<Event>
    requires h <= n
    decreases n - h
  {
    if h == n then [] else [Enter(i, h)] + Entering(i, h + 1, n)
  }

  /** The events on the way in, from builder i on: its hooks in declaration order, its check, its spec. */
  ghost function Inward<F>(hooks: seq<seq<Hook<F>>>, i: nat): seq<Event>
    requires i <= |hooks|
    decreases |hooks| - i
  {
    if i == |hooks| then []
    else Entering(i, 0, |hooks[i]|) + [Check(i), MakeSpec(i)] + Inward(hooks, i + 1)
  }

  ghost function Leaving(i: nat, h: nat, n: nat): seq<Event>
    requires h <= n
    decreases n - h
  {
    if h == n then [] else Leaving(i, h + 1, n) + [Leave(i, h)]
  }

  /** The events on the way out: the last builder first, each before its hooks return in reverse. */
  ghost function Outward<F>(hooks: seq<seq<Hook<F>>>, i: nat): seq<Event>
    requires i <= |hooks|
    decreases |hooks| - i
  {
    if i == |hooks| then []
    else Outward(hooks, i + 1) + [Finish(i)] + Leaving(i, 0, |hooks[i]|)
  }

  lemma {:induction false} WrapTrace<F>(ms: seq<Mutator<F>>, hooks: seq<Hook<F>>, i: nat, h: nat)
    requires WellBuilt(ms) && i < |ms| && h <= |hooks|
    ensures Expected(ms, Wrap(hooks, i, h)) ==
            Entering(i, h, |hooks|) + Expected(ms, Link(i)) + Leaving(i, h, |hooks|)
    decreases |hooks| - h
  {
    if h == |hooks| {
    } else {
      WrapTrace(ms, hooks, i, h + 1);
    }
  }

  lemma {:induction false} ChainTrace<F>(ms: seq<Mutator<F>>, hooks: seq<seq<Hook<F>>>, i: nat)
    requires |ms| == |hooks| && i < |ms| && WellBuilt(ms)
    requires forall j :: 0 <= j < |ms| ==> ms[j] == Wrap(hooks[j], j, 0)
    ensures Expected(ms, ms[i]) == Inward(hooks, i) + [Insert] + Outward(hooks, i)
    decreases |ms| - i
  {
    WrapTrace(ms, hooks[i], i, 0);
    var en, own, fin, lv := Entering(i, 0, |hooks[i]|), [Check(i), MakeSpec(i)], [Finish(i)], Leaving(i, 0, |hooks[i]|);
    var inner, outer := Inward(hooks, i + 1), Outward(hooks, i + 1);
    assert Expected(ms, Link(i)) == own + (inner + [Insert] + outer) + fin by {
      if i + 1 < |ms| {
        ChainTrace(ms, hooks, i + 1);
      } else {
        assert inner + [Insert] + outer == [Insert];
      }
    }
    hide Expected, Entering, Leaving;
    RegroupChain(en, own, inner, [Insert], outer, fin, lv);
  }

  // ---------- Save ----------

  function Build<F>(hooks: seq<seq<Hook<F>>>): (ms: seq<Mutator<F>>)
    ensures |ms| == |hooks|
    ensures forall j :: 0 <= j < |ms| ==> ms[j] == Wrap(hooks[j], j, 0)
  {
    seq(|hooks|, j requires 0 <= j < |hooks| => Wrap(hooks[j], j, 0))
  }

  /** A slice of nil pointers, as make leaves it. */
  function Unset<T>(n: nat): (s: seq<Option<T>>)
    ensures |s| == n && forall i :: 0 <= i < n ==> s[i] == None
  {
    seq(n, _ => None)
  }

  function NoIDs(): nat -> Option<int> {
    _ => None
  }

  /** The state in which the chain is started, once defaults have been set. */
  function Start<F, N, S>(held: seq<Held<F>>): State<F, N, S> {
    State(held, Unset(|held|), Unset(|held|), NoIDs(), [], [])
  }

  /** Save, for builders that hold `held` once their defaults are set. */
  function Save<F, N, S>(
    env: Env<F, N, S>, held: seq<Held<F>>, hooks: seq<seq<Hook<F>>>): (r: (State<F, N, S>, Outcome))
    requires |held| == |hooks|
  {
    if |held| == 0 then (Start(held), Ok) else Mutate(env, Build(hooks), Build(hooks)[0], Own, Start(held))
  }

  ghost predicate HonestHooks<F(!new)>(hooks: seq<seq<Hook<F>>>) {
    forall i, h :: 0 <= i < |hooks| && 0 <= h < |hooks[i]| ==> Honest(hooks[i][h])
  }

  lemma {:induction false} WrapHonest<F(!new)>(hooks: seq<Hook<F>>, i: nat, h: nat)
    requires h <= |hooks| && forall k :: 0 <= k < |hooks| ==> Honest(hooks[k])
    ensures HonestMutator(Wrap(hooks, i, h))
    decreases |hooks| - h
  {
    hide Honest;
    if h == |hooks| {
    } else {
      WrapHonest(hooks, i, h + 1);
    }
  }

  lemma BuildHonest<F(!new)>(hooks: seq<seq<Hook<F>>>)
    requires HonestHooks(hooks)
    ensures WellBuilt(Build(hooks)) && HonestChain(Build(hooks))
  {
    hide Honest, HonestMutator;
    forall i | 0 <= i < |hooks| ensures HonestMutator(Build(hooks)[i]) {
      WrapHonest(hooks[i], i, 0);
    }
  }

  /** What builder j comes to on its own: the fields it would insert, or none. */
  ghost function Alone<F, N, S>(env: Env<F, N, S>, held: seq<Held<F>>, hooks: seq<seq<Hook<F>>>, j: nat): Option<F>
    requires |held| == |hooks| && j < |held|
  {
    Ready(env, Wrap(hooks[j], j, 0), held[j].fields, Own)
  }

  ghost predicate EveryBuilderReady<F, N, S>(env: Env<F, N, S>, held: seq<Held<F>>, hooks: seq<seq<Hook<F>>>)
    requires |held| == |hooks|
  {
    forall j :: 0 <= j < |held| ==> Alone(env, held, hooks, j).Some?
  }

  /** The batch: in slot j, the spec of builder j. */
  ghost function Batch<F, N, S>(
    env: Env<F, N, S>, held: seq<Held<F>>, hooks: seq<seq<Hook<F>>>): (specs: seq<Option<S>>)
    requires |held| == |hooks| && EveryBuilderReady(env, held, hooks)
    ensures |specs| == |held|
  {
    seq(|held|, j requires 0 <= j < |held| => Some(env.spec(Alone(env, held, hooks, j).value)))
  }

  /** No hook of a builder from `i` on turns a success into an error. */
  ghost predicate LetSuccessThrough<F>(hooks: seq<seq<Hook<F>>>, i: nat) {
    forall j, h :: i <= j < |hooks| && 0 <= h < |hooks[j]| ==> hooks[j][h].after(Ok).Ok?
  }

  lemma {:induction false} WrapLetsPass<F>(hooks: seq<Hook<F>>, i: nat, h: nat)
    requires h <= |hooks|
    ensures LetsPass(Wrap(hooks, i, h)) <==> forall k :: h <= k < |hooks| ==> hooks[k].after(Ok).Ok?
    decreases |hooks| - h
  {
    if h == |hooks| {
    } else {
      WrapLetsPass(hooks, i, h + 1);
    }
  }

  lemma BuildLetsPass<F>(hooks: seq<seq<Hook<F>>>)
    ensures forall i: nat :: i < |hooks| ==> (LaterLetPass(Build(hooks), i) <==> LetSuccessThrough(hooks, i + 1))
    ensures hooks != [] ==>
      (LetsPass(Build(hooks)[0]) && LaterLetPass(Build(hooks), 0) <==> LetSuccessThrough(hooks, 0))
  {
    hide LetsPass, Wrap;
    forall j | 0 <= j < |hooks|
      ensures LetsPass(Build(hooks)[j]) <==> forall k :: 0 <= k < |hooks[j]| ==> hooks[j][k].after(Ok).Ok?
    {
      WrapLetsPass(hooks[j], j, 0);
    }
  }

  /**
   All or nothing. With honest hooks, Save calls the batch insert exactly once when there is
   a builder and every builder, taken alone, is refused by no hook and passes its check, and
   never otherwise; the batch then holds each builder's own spec in its own slot. Save
   succeeds exactly when that insert is accepted and every hook lets a success through; and
   builder j is marked done exactly when it is accepted and the hooks of all later builders do.
   So the builders marked done are a suffix of the list, and all of them on success.
   */
  lemma SaveAllOrNothing<F(!new), N, S>(env: Env<F, N, S>, held: seq<Held<F>>, hooks: seq<seq<Hook<F>>>)
    requires |held| == |hooks| && HonestHooks(hooks)
    requires forall j :: 0 <= j < |held| ==> !held[j].done
    ensures
      var (st, r) := Save(env, held, hooks);
      var ready := held != [] && EveryBuilderReady(env, held, hooks);
      var accepted := ready && env.insert(Batch(env, held, hooks)).Accepted?;
      && st.batches == (if ready then [Batch(env, held, hooks)] else [])
      && (r.Ok? <==> held == [] || (accepted && LetSuccessThrough(hooks, 0)))
      && |st.held| == |held|
      && (forall j :: 0 <= j < |held| ==> (st.held[j].done <==> accepted && LetSuccessThrough(hooks, j + 1)))
  {
    if held != [] {
      BuildLetsPass(hooks);
      BuildHonest(hooks);
      var ms, st0 := Build(hooks), Start<F, N, S>(held);
      assert Undone(st0, 0);
      CallLemma(env, ms, ms[0], Own, st0);
      hide Ready, Wrap, HonestHooks, HonestChain, HonestMutator, Build;
      assert forall j :: 0 <= j < |held| ==> ReadyAt(env, ms, ms[0], Own, st0, j) == Alone(env, held, hooks, j);
      hide ReadyAt, Alone;
      assert EveryBuilderReady(env, held, hooks) <==> AllReady(env, ms, ms[0], Own, st0);
      if AllReady(env, ms, ms[0], Own, st0) {
        assert OwnSpecs(env, ms, ms[0], Own, st0) == Batch(env, held, hooks);
      }
    }
  }

  /**
   When Save succeeds it returns, in slot j, the node of builder j's own fields, under the id
   the insert gave to slot j (zero if it gave none); and builder j holds those fields and that id.
   */
  lemma SaveResult<F(!new), N, S>(env: Env<F, N, S>, held: seq<Held<F>>, hooks: seq<seq<Hook<F>>>)
    requires |held| == |hooks| && HonestHooks(hooks) && Save(env, held, hooks).1.Ok?
    ensures
      var st := Save(env, held, hooks).0;
      && |st.nodes| == |st.held| == |held|
      && (forall j :: 0 <= j < |held| ==> FinishedAt(env, st, j, Alone(env, held, hooks, j)))
      && (held != [] ==> |st.batches| > 0 && env.insert(st.batches[|st.batches| - 1]) == Accepted(st.given))
  {
    if held != [] {
      BuildHonest(hooks);
      var ms, st0 := Build(hooks), Start<F, N, S>(held);
      FinishLemma(env, ms, ms[0], Own, st0);
      hide Ready, Wrap, HonestHooks, HonestChain, HonestMutator, Build, FinishedAt;
      assert forall j :: 0 <= j < |held| ==> ReadyAt(env, ms, ms[0], Own, st0, j) == Alone(env, held, hooks, j);
    }
  }

  /**
   On success the events are: builder 0's hooks in declaration order, its check and its
   spec, then builder 1's, and so on to the one insert; then the builders are finished from
   the last to the first, each before its own hooks return in reverse.
   */
  lemma SaveTrace<F(!new), N, S>(env: Env<F, N, S>, held: seq<Held<F>>, hooks: seq<seq<Hook<F>>>)
    requires |held| == |hooks| && HonestHooks(hooks)
    ensures
      var (st, r) := Save(env, held, hooks);
      r.Ok? && held != [] ==> st.trace == Inward(hooks, 0) + [Insert] + Outward(hooks, 0)
  {
    if held != [] {
      BuildHonest(hooks);
      var ms, st0 := Build(hooks), Start<F, N, S>(held);
      TraceLemma(env, ms, ms[0], Own, st0);
      ChainTrace(ms, hooks, 0);
      hide Mutate, Expected, Inward, Outward, Build;
      assert [] + Expected(ms, ms[0]) == Expected(ms, ms[0]);
    }
  }

  /**
   When Save does not reach the insert, it stops at the first builder that a hook refuses or
   whose check fails: no hook, check or spec of a later builder runs.
   */
  lemma SaveStops<F(!new), N, S>(env: Env<F, N, S>, held: seq<Held<F>>, hooks: seq<seq<Hook<F>>>, j: nat)
    requires |held| == |hooks| && HonestHooks(hooks) && j < |held| && Alone(env, held, hooks, j).None?
    ensures forall k :: 0 <= k < |Save(env, held, hooks).0.trace| ==>
      var e := Save(env, held, hooks).0.trace[k];
      !e.Insert? && e.builder <= j
  {
    BuildHonest(hooks);
    var ms, st0 := Build(hooks), Start<F, N, S>(held);
    hide Mutate, HonestHooks, HonestChain, HonestMutator, Ready, Wrap;
    assert ReadyAt(env, ms, ms[0], Own, st0, j) == Alone(env, held, hooks, j);
    FailedTrace(env, ms, ms[0], Own, st0, j);
  }

  // ---------- what has been checked ----------

  /** What reaches a link: the builder's own fields by then, and those passed on. */
  function Arrives<F>(m: Mutator<F>, own: F, passed: Passed<F>): Option<(F, F)> {
    var seen := if passed.Own? then own else passed.fields;
    match m
    case Link(_) => Some((own, seen))
    case Hooked(_, hook, next) =>
      match hook.before(seen)
      case Refuse(_) => None
      case Skip => None
      case Forward(f) => if passed.Own? then Arrives(next, f, Own) else Arrives(next, own, Fresh(f))
      case Replace(f) => Arrives(next, own, Fresh(f))
  }

  /** A bulk Save inserts the fields passed on, if those that the builder keeps pass the check. */
  lemma {:induction false} ReadyArrives<F, N, S>(env: Env<F, N, S>, m: Mutator<F>, own: F, passed: Passed<F>)
    ensures
      match Arrives(m, own, passed)
      case None => Ready(env, m, own, passed).None?
      case Some((kept, sent)) => Ready(env, m, own, passed) == if env.check(kept).None? then Some(sent) else None
    decreases m
  {
    match m
    case Link(_) =>
    case Hooked(_, hook, next) =>
      match hook.before(if passed.Own? then own else passed.fields) {
        case Forward(f) =>
          if passed.Own? {
            ReadyArrives(env, next, f, Own);
          } else {
            ReadyArrives(env, next, own, Fresh(f));
          }
        case Replace(f) => ReadyArrives(env, next, own, Fresh(f));
        case _ =>
      }
  }

  /**
   What builder j inserts passes the check exactly when no mutation arrives, its own fails, or
   the one sent passes.
   */
  lemma CheckedIff<F, N, S>(env: Env<F, N, S>, m: Mutator<F>, own: F)
    ensures
      var arrived := Arrives(m, own, Own);
      (Ready(env, m, own, Own).Some? ==> env.check(Ready(env, m, own, Own).value).None?) <==>
      arrived.None? || env.check(arrived.value.0).Some? || env.check(arrived.value.1).None?
  {
    ReadyArrives(env, m, own, Own);
    hide Arrives, Ready;
  }

  ghost predicate Replaces<F(!new)>(m: Mutator<F>) {
    m.Hooked? && ((exists f :: m.hook.before(f).Replace?) || Replaces(m.next))
  }

  /** Hooks that only refuse or edit in place pass on what the builder keeps. */
  lemma {:induction false} EditingHooksPassTheirOwn<F(!new)>(m: Mutator<F>, own: F)
    requires !Replaces(m)
    ensures Arrives(m, own, Own).Some? ==> Arrives(m, own, Own).value.0 == Arrives(m, own, Own).value.1
    decreases m
  {
    match m
    case Link(_) =>
    case Hooked(_, hook, next) =>
      var d := hook.before(own);
      assert d.Replace? ==> hook.before(own).Replace?;
      if d.Forward? { EditingHooksPassTheirOwn(next, d.edited); }
  }

  /** What reaches builder j's link in a Save. */
  ghost function ArrivesAt<F>(held: seq<Held<F>>, hooks: seq<seq<Hook<F>>>, j: nat): Option<(F, F)>
    requires |held| == |hooks| && j < |held|
  {
    Arrives(Wrap(hooks[j], j, 0), held[j].fields, Own)
  }

  /** If Save inserts a batch, the fields of every slot have passed the check. */
  ghost predicate InsertsChecked<F, N, S>(env: Env<F, N, S>, held: seq<Held<F>>, hooks: seq<seq<Hook<F>>>)
    requires |held| == |hooks|
  {
    Save(env, held, hooks).0.batches != [] ==>
      forall j :: 0 <= j < |held| ==>
        Alone(env, held, hooks, j).Some? && env.check(Alone(env, held, hooks, j).value).None?
  }

  ghost predicate Stopped<F, N, S>(env: Env<F, N, S>, held: seq<Held<F>>, hooks: seq<seq<Hook<F>>>, j: nat)
    requires |held| == |hooks| && j < |held|
  {
    ArrivesAt(held, hooks, j).None? || env.check(ArrivesAt(held, hooks, j).value.0).Some?
  }

  ghost predicate SentPasses<F, N, S>(env: Env<F, N, S>, held: seq<Held<F>>, hooks: seq<seq<Hook<F>>>, j: nat)
    requires |held| == |hooks| && j < |held|
  {
    ArrivesAt(held, hooks, j).Some? ==> env.check(ArrivesAt(held, hooks, j).value.1).None?
  }

  /**
   Save inserts only checked fields exactly when some builder is refused or fails its check,
   so that nothing is inserted, or the fields sent by every builder pass.
   */
  lemma SaveCheckedIff<F(!new), N, S>(env: Env<F, N, S>, held: seq<Held<F>>, hooks: seq<seq<Hook<F>>>)
    requires |held| == |hooks| && HonestHooks(hooks)
    requires forall j :: 0 <= j < |held| ==> !held[j].done
    ensures InsertsChecked(env, held, hooks) <==>
      || (exists j :: 0 <= j < |held| && Stopped(env, held, hooks, j))
      || (forall j :: 0 <= j < |held| ==> SentPasses(env, held, hooks, j))
  {
    SaveAllOrNothing(env, held, hooks);
    hide Save, Ready, Wrap, Arrives, HonestHooks;
    forall j | 0 <= j < |held|
      ensures Alone(env, held, hooks, j).None? <==> Stopped(env, held, hooks, j)
      ensures Alone(env, held, hooks, j).Some? ==>
        (env.check(Alone(env, held, hooks, j).value).None? <==> SentPasses(env, held, hooks, j))
    {
      ReadyArrives(env, Wrap(hooks[j], j, 0), held[j].fields, Own);
    }
  }

  /** The fields that builder j sends are what some builder keeps. */
  ghost predicate SentIsKept<F>(held: seq<Held<F>>, hooks: seq<seq<Hook<F>>>, j: nat)
    requires |held| == |hooks| && j < |held|
  {
    ArrivesAt(held, hooks, j).Some? ==>
      exists k :: 0 <= k < |held| && ArrivesAt(held, hooks, k).Some?
                  && ArrivesAt(held, hooks, k).value.0 == ArrivesAt(held, hooks, j).value.1
  }

  /** The check that rejects these fields alone. */
  ghost function Rejects<F>(fields: F): F -> Option<Failure> {
    (f: F) => if f == fields then Some(CheckFailed("")) else None
  }

  /** Fields that are sent and not kept are inserted under a check that rejects them. */
  lemma SentUnchecked<F(!new), N, S>(env: Env<F, N, S>, held: seq<Held<F>>, hooks: seq<seq<Hook<F>>>, j: nat)
    requires |held| == |hooks| && HonestHooks(hooks) && j < |held|
    requires forall k :: 0 <= k < |held| ==> !held[k].done && ArrivesAt(held, hooks, k).Some?
    requires !SentIsKept(held, hooks, j)
    ensures !InsertsChecked(env.(check := Rejects(ArrivesAt(held, hooks, j).value.1)), held, hooks)
  {
    hide InsertsChecked, HonestHooks, ArrivesAt;
    var env' := env.(check := Rejects(ArrivesAt(held, hooks, j).value.1));
    SaveCheckedIff(env', held, hooks);
    assert !SentPasses(env', held, hooks, j);
    forall k | 0 <= k < |held| ensures !Stopped(env', held, hooks, k) {
    }
  }

  lemma SentKeptChecked<F(!new), N, S>(env: Env<F, N, S>, held: seq<Held<F>>, hooks: seq<seq<Hook<F>>>)
    requires |held| == |hooks| && HonestHooks(hooks)
    requires forall j :: 0 <= j < |held| ==> !held[j].done && SentIsKept(held, hooks, j)
    ensures InsertsChecked(env, held, hooks)
  {
    hide InsertsChecked, HonestHooks, ArrivesAt;
    SaveCheckedIff(env, held, hooks);
    if j :| 0 <= j < |held| && !SentPasses(env, held, hooks, j) {
      assert SentIsKept(held, hooks, j);
      var k :| 0 <= k < |held| && ArrivesAt(held, hooks, k).Some?
               && ArrivesAt(held, hooks, k).value.0 == ArrivesAt(held, hooks, j).value.1;
      assert Stopped(env, held, hooks, k);
    }
  }

  /**
   Whatever the check is, Save inserts only checked fields: this holds exactly when the hooks
   refuse some builder, or every builder sends fields that it or another builder keeps.
   */
  lemma CheckedForEveryCheckIff<F(!new), N, S>(env: Env<F, N, S>, held: seq<Held<F>>, hooks: seq<seq<Hook<F>>>)
    requires |held| == |hooks| && HonestHooks(hooks)
    requires forall j :: 0 <= j < |held| ==> !held[j].done
    ensures (forall check: F -> Option<Failure> :: InsertsChecked(env.(check := check), held, hooks)) <==>
      || (exists j :: 0 <= j < |held| && ArrivesAt(held, hooks, j).None?)
      || (forall j :: 0 <= j < |held| ==> SentIsKept(held, hooks, j))
  {
    hide InsertsChecked, HonestHooks, ArrivesAt;
    if j :| 0 <= j < |held| && ArrivesAt(held, hooks, j).None? {
      forall check: F -> Option<Failure> ensures InsertsChecked(env.(check := check), held, hooks) {
        SaveCheckedIff(env.(check := check), held, hooks);
        assert Stopped(env.(check := check), held, hooks, j);
      }
    } else if forall j :: 0 <= j < |held| ==> SentIsKept(held, hooks, j) {
      forall check: F -> Option<Failure> ensures InsertsChecked(env.(check := check), held, hooks) {
        SentKeptChecked(env.(check := check), held, hooks);
      }
    } else {
      var j :| 0 <= j < |held| && !SentIsKept(held, hooks, j);
      SentUnchecked(env, held, hooks, j);
    }
  }

  /** A check that rejects the empty name, and a database that accepts everything. */
  function NameRequired(): Env<string, string, string> {
    Env(name => if name == "" then Some(CheckFailed("name")) else None,
        name => name,
        name => name,
        _ => Accepted(_ => Some(1)))
  }

  function ClearName(): Hook<string> {
    Hook(_ => Replace(""), o => o)
  }

  /**
   A mutation that a hook puts in place of the builder's own is inserted unchecked: check
   runs on the builder's mutation before the builder adopts the other. Here the check
   rejects the empty name, and the empty name is inserted.
   */
  lemma ReplacedMutationUnchecked()
    ensures
      var (st, r) := Save(NameRequired(), [Held("account", None, false)], [[ClearName()]]);
      && Honest(ClearName()) && NameRequired().check("").Some?
      && r.Ok? && st.batches == [[Some("")]]
  {
    var env, hook := NameRequired(), ClearName();
    var ms := Build([[hook]]);
    assert Wrap([hook], 0, 1) == Link(0);
    assert ms[0] == Hooked(0, hook, Link(0));
    var st0 := Start<string, string, string>([Held("account", None, false)]);
    var st1 := Log(st0, Enter(0, 0));
    var st2 := Adopt(env, Log(st1, Check(0)), 0, Fresh(""));
    assert st2.specs == [Some("")];
    var (st3, r3) := InsertAll(env, st2);
    assert Mutate(env, ms, Link(0), Fresh(""), st1) == (Complete(st3, 0), Ok);
  }
}
