/**
 Creating one account: AccountCreate.Save and sqlSave of backend/ent/account_create.go and
 withHooks of backend/ent/ent.go, and how they differ from a bulk creation of one.

 A single Save copies the mutation that its hooks pass on into the builder's own, and then
 checks it. A bulk Save checks the builder's own mutation first, and then adopts the other.
 */
module SingleSave {
  import opened Common
  import opened BulkChain
  import opened BulkCreate

  /** The outcome of sqlgraph.CreateNode. */
  datatype InsertedOne = Refused(failure: Failure) | Given(id: int)

  /** `defaults` gives the fields it leaves behind, and its error. */
  datatype OneEnv<!F, !S> = OneEnv(
    defaults: F -> (F, Option<Failure>), check: F -> Option<Failure>, spec: F -> S, insert: S -> InsertedOne)

  /** The builder's own mutation, and the specs inserted so far. */
  datatype OneState<F, S> = OneState(held: Held<F>, inserts: seq<S>)

  function Seen<F, S>(st: OneState<F, S>, passed: Passed<F>): F {
    if passed.Own? then st.held.fields else passed.fields
  }

  /** The innermost mutator: the mutation passed on becomes the builder's own, and is checked and inserted. */
  function Execute<F, S>(env: OneEnv<F, S>, passed: Passed<F>, st: OneState<F, S>): (r: (OneState<F, S>, Outcome)) {
    var st1 := if passed.Own? then st else st.(held := Held(passed.fields, None, false));
    var failed := env.check(st1.held.fields);
    if failed.Some? then (st1, Err(failed.value))
    else
      var spec := env.spec(st1.held.fields);
      var st2 := st1.(inserts := st1.inserts + [spec]);
      match env.insert(spec)
      case Refused(f) => (st2, Err(f))
      case Given(id) => (st2.(held := st2.held.(id := Some(id), done := true)), Ok)
  }

  /** Calling a mutator. */
  function MutateOne<F, S>(
    env: OneEnv<F, S>, m: Mutator<F>, passed: Passed<F>, st: OneState<F, S>): (r: (OneState<F, S>, Outcome))
    decreases m
  {
    match m
    case Link(_) => Execute(env, passed, st)
    case Hooked(_, hook, next) =>
      var (st', r) := (match hook.before(Seen(st, passed))
        case Refuse(code) => (st, Err(HookRefused(code)))
        case Skip => (st, Ok)
        case Forward(f) =>
          if passed.Own? then MutateOne(env, next, Own, st.(held := st.held.(fields := f)))
          else MutateOne(env, next, Fresh(f), st)
        case Replace(f) => MutateOne(env, next, Fresh(f), st));
      (st', hook.after(r))
  }

  // ---------- on the heap ----------

  class OneCreate<F, S> {
    const env: OneEnv<F, S>
    const mutation: AccountMutation<F>
    const hooks: seq<Hook<F>>
    var inserts: seq<S>

    constructor (env: OneEnv<F, S>, mutation: AccountMutation<F>, hooks: seq<Hook<F>>)
      ensures this.env == env && this.mutation == mutation && this.hooks == hooks && inserts == []
    {
      this.env, this.mutation, this.hooks, inserts := env, mutation, hooks, [];
    }

    ghost function View(): OneState<F, S>
      reads this, mutation
    {
      OneState(mutation.View(), inserts)
    }

    ghost function PassedAs(m: AccountMutation<F>): Passed<F>
      reads m
    {
      if m == mutation then Own else Fresh(m.fields)
    }

    /** A mutation that is not the builder's own is one that a hook has just made. */
    ghost predicate MayPass(m: AccountMutation<F>)
      reads m
    {
      m != mutation ==> m.id == None && !m.done
    }

    /** *mutation = *mutationT, then sqlSave. */
    method ExecuteOn(m: AccountMutation<F>) returns (r: Outcome)
      requires MayPass(m)
      modifies this`inserts, mutation
      ensures (View(), r) == Execute(env, old(PassedAs(m)), old(View()))
    {
      mutation.fields, mutation.id, mutation.done := m.fields, m.id, m.done;
      var failed := env.check(mutation.fields);
      if failed.Some? {
        return Err(failed.value);
      }
      var spec := env.spec(mutation.fields);
      inserts := inserts + [spec];
      match env.insert(spec)
      case Refused(f) =>
        return Err(f);
      case Given(id) =>
        mutation.id, mutation.done := Some(id), true;
        return Ok;
    }

    method Mutate(mu: Mutator<F>, m: AccountMutation<F>) returns (r: Outcome)
      requires MayPass(m)
      modifies this`inserts, mutation, m
      ensures (View(), r) == MutateOne(env, mu, old(PassedAs(m)), old(View()))
      decreases mu
    {
      hide Execute;
      match mu
      case Link(_) => r := ExecuteOn(m);
      case Hooked(_, hook, next) =>
        match hook.before(m.fields) {
          case Refuse(code) => r := Err(HookRefused(code));
          case Skip => r := Ok;
          case Forward(f) =>
            m.fields := f;
            r := Mutate(next, m);
          case Replace(f) =>
            var other := new AccountMutation(f);
            r := Mutate(next, other);
        }
        r := hook.after(r);
    }

    ghost function Filled(): OneState<F, S>
      reads this, mutation
    {
      View().(held := mutation.View().(fields := env.defaults(mutation.fields).0))
    }

    /** The defaults, whose error ends the call, and then withHooks around sqlSave. */
    method Save() returns (r: Outcome)
      modifies this`inserts, mutation
      ensures
        var failed := env.defaults(old(mutation.fields)).1;
        if failed.Some? then r == Err(failed.value) && View() == old(Filled())
        else (View(), r) == MutateOne(env, Wrap(hooks, 0, 0), Own, old(Filled()))
    {
      var (filled, failed) := env.defaults(mutation.fields);
      mutation.fields := filled;
      if failed.Some? {
        return Err(failed.value);
      }
      if |hooks| == 0 {
        r := ExecuteOn(mutation);
        return;
      }
      var mut: Mutator<F> := Link(0);
      for i := |hooks| downto 0
        invariant mut == Wrap(hooks, 0, i)
      {
        mut := Hooked(i, hooks[i], mut);
      }
      r := Mutate(mut, mutation);
    }
  }

  // ---------- what a single Save inserts ----------

  /** The fields that a single Save inserts. */
  function ReadyOne<F, S>(env: OneEnv<F, S>, m: Mutator<F>, own: F, passed: Passed<F>): Option<F> {
    match Arrives(m, own, passed)
    case None => None
    case Some((_, f)) => if env.check(f).Some? then None else Some(f)
  }

  /**
   With honest hooks, a single Save inserts one spec or none: that of the fields its hooks pass
   on, if they pass the check. It marks the mutation done, with those fields and the id given,
   exactly when the insert is accepted, and succeeds exactly when the hooks let that through.
   */
  lemma {:induction false} OneAllOrNothing<F(!new), S>(
    env: OneEnv<F, S>, m: Mutator<F>, passed: Passed<F>, st: OneState<F, S>)
    requires HonestMutator(m) && !st.held.done
    ensures
      var (st', r) := MutateOne(env, m, passed, st);
      var ready := ReadyOne(env, m, st.held.fields, passed);
      && st'.inserts == (if ready.Some? then st.inserts + [env.spec(ready.value)] else st.inserts)
      && (st'.held.done <==> ready.Some? && env.insert(env.spec(ready.value)).Given?)
      && (r.Ok? <==> st'.held.done && LetsPass(m))
      && (st'.held.done ==> st'.held == Held(ready.value, Some(env.insert(env.spec(ready.value)).id), true))
    decreases m
  {
    match m
    case Link(_) =>
    case Hooked(_, hook, next) =>
      match hook.before(Seen(st, passed)) {
        case Forward(f) =>
          if passed.Own? {
            OneAllOrNothing(env, next, Own, st.(held := st.held.(fields := f)));
          } else {
            OneAllOrNothing(env, next, Fresh(f), st);
          }
        case Replace(f) => OneAllOrNothing(env, next, Fresh(f), st);
        case _ =>
      }
  }

  // ---------- what a single Save returns ----------

  /** The fields that hook h sees, or, for the number of hooks, that are inserted, if all hooks before pass some on. */
  function PassedTo<F>(hooks: seq<Hook<F>>, own: F, h: nat): F
    requires h <= |hooks|
  {
    if h == 0 then own
    else
      var seen := PassedTo(hooks, own, h - 1);
      match hooks[h - 1].before(seen)
      case Forward(f) => f
      case Replace(f) => f
      case _ => seen
  }

  /** Hook h does not call the next one. */
  predicate StopsAt<F>(hooks: seq<Hook<F>>, own: F, h: nat)
    requires h < |hooks|
  {
    var d := hooks[h].before(PassedTo(hooks, own, h));
    d.Refuse? || d.Skip?
  }

  /** Hook h is the first that does not call the next one. */
  ghost predicate FirstStops<F>(hooks: seq<Hook<F>>, own: F, h: nat) {
    h < |hooks| && StopsAt(hooks, own, h) && forall k :: 0 <= k < h ==> !StopsAt(hooks, own, k)
  }

  /** What hooks n - 1, ..., 0 make of an outcome, the last of them first. */
  function Outward<F>(hooks: seq<Hook<F>>, n: nat, o: Outcome): Outcome
    requires n <= |hooks|
  {
    if n == 0 then o else Outward(hooks, n - 1, hooks[n - 1].after(o))
  }

  /** A hook that refuses gives its own error, and one that skips gives none. */
  function StoppedBy<F>(hooks: seq<Hook<F>>, own: F, h: nat): Outcome
    requires h < |hooks|
  {
    match hooks[h].before(PassedTo(hooks, own, h))
    case Refuse(code) => Err(HookRefused(code))
    case _ => Ok
  }

  /** The failure of the check, if there is one, and otherwise that of the insert. */
  function InsertOne<F, S>(env: OneEnv<F, S>, fields: F): Outcome {
    if env.check(fields).Some? then Err(env.check(fields).value)
    else
      match env.insert(env.spec(fields))
      case Refused(f) => Err(f)
      case Given(_) => Ok
  }

  /** The state after the call, and what hooks h - 1, ..., 0 make of its outcome. */
  ghost predicate EndsAs<F, S>(
    hooks: seq<Hook<F>>, h: nat, r: (OneState<F, S>, Outcome), n: nat, o: Outcome, inserts: seq<S>)
    requires h <= |hooks| && n <= |hooks|
  {
    Outward(hooks, h, r.1) == Outward(hooks, n, o) && r.0.inserts == inserts
  }

  lemma ExecuteEnds<F, S>(env: OneEnv<F, S>, passed: Passed<F>, st: OneState<F, S>)
    ensures
      var (st', r) := Execute(env, passed, st);
      var fields := Seen(st, passed);
      && r == InsertOne(env, fields)
      && st'.inserts == st.inserts + if env.check(fields).Some? then [] else [env.spec(fields)]
  {
  }

  lemma EndsAtStop<F, S>(
    env: OneEnv<F, S>, hooks: seq<Hook<F>>, own: F, h: nat, passed: Passed<F>, st: OneState<F, S>)
    requires h < |hooks| && Seen(st, passed) == PassedTo(hooks, own, h) && StopsAt(hooks, own, h)
    ensures
      EndsAs(hooks, h, MutateOne(env, Wrap(hooks, 0, h), passed, st), h + 1, StoppedBy(hooks, own, h), st.inserts)
    ensures forall j: nat :: FirstStops(hooks, own, j) ==> j <= h
  {
  }

  /** A hook that calls the next one hands it the fields it passes on, and inserts nothing itself. */
  lemma PassesOn<F, S>(
    env: OneEnv<F, S>, hooks: seq<Hook<F>>, own: F, h: nat, passed: Passed<F>, st: OneState<F, S>)
    returns (passed': Passed<F>, st': OneState<F, S>)
    requires h < |hooks| && Seen(st, passed) == PassedTo(hooks, own, h) && !StopsAt(hooks, own, h)
    ensures Seen(st', passed') == PassedTo(hooks, own, h + 1) && st'.inserts == st.inserts
    ensures
      var inner := MutateOne(env, Wrap(hooks, 0, h + 1), passed', st');
      MutateOne(env, Wrap(hooks, 0, h), passed, st) == (inner.0, hooks[h].after(inner.1))
  {
    passed', st' := passed, st;
    match hooks[h].before(Seen(st, passed)) {
      case Forward(f) =>
        if passed.Own? {
          st' := st.(held := st.held.(fields := f));
        } else {
          passed' := Fresh(f);
        }
      case Replace(f) => passed' := Fresh(f);
      case _ =>
    }
  }

  /** From hook h on, when all before it have passed some fields on. */
  lemma {:induction false} EndsFrom<F, S>(
    env: OneEnv<F, S>, hooks: seq<Hook<F>>, own: F, h: nat, passed: Passed<F>, st: OneState<F, S>)
    requires h <= |hooks| && Seen(st, passed) == PassedTo(hooks, own, h)
    requires forall k :: 0 <= k < h ==> !StopsAt(hooks, own, k)
    ensures forall j: nat :: FirstStops(hooks, own, j) ==>
      EndsAs(hooks, h, MutateOne(env, Wrap(hooks, 0, h), passed, st), j + 1, StoppedBy(hooks, own, j), st.inserts)
    ensures (forall k :: 0 <= k < |hooks| ==> !StopsAt(hooks, own, k)) ==>
      var fields := PassedTo(hooks, own, |hooks|);
      EndsAs(
        hooks, h, MutateOne(env, Wrap(hooks, 0, h), passed, st), |hooks|, InsertOne(env, fields),
        st.inserts + if env.check(fields).Some? then [] else [env.spec(fields)])
    decreases |hooks| - h
  {
    hide Execute, InsertOne;
    if h == |hooks| {
      ExecuteEnds(env, passed, st);
    } else if StopsAt(hooks, own, h) {
      EndsAtStop(env, hooks, own, h, passed, st);
      hide MutateOne, EndsAs, StoppedBy;
    } else {
      hide MutateOne, StopsAt, StoppedBy, PassedTo, Wrap, Seen;
      var passed', st' := PassesOn(env, hooks, own, h, passed, st);
      EndsFrom(env, hooks, own, h + 1, passed', st');
    }
  }

  lemma NothingOutward<F>(hooks: seq<Hook<F>>, o: Outcome)
    ensures Outward(hooks, 0, o) == o
  {
  }

  /**
   Whatever the hooks are: if one of them does not call the next, a single Save inserts nothing
   and returns what the first such hook comes to, passed out through it and all hooks before
   it; otherwise it checks and inserts the fields that the last hook passes on, and returns the
   failure of the check, or what the insert comes to, passed out through all hooks.
   */
  lemma OneOutcome<F, S>(env: OneEnv<F, S>, hooks: seq<Hook<F>>, st: OneState<F, S>)
    ensures forall h: nat :: FirstStops(hooks, st.held.fields, h) ==>
      var (st', r) := MutateOne(env, Wrap(hooks, 0, 0), Own, st);
      st'.inserts == st.inserts && r == Outward(hooks, h + 1, StoppedBy(hooks, st.held.fields, h))
    ensures (forall k :: 0 <= k < |hooks| ==> !StopsAt(hooks, st.held.fields, k)) ==>
      var (st', r) := MutateOne(env, Wrap(hooks, 0, 0), Own, st);
      var fields := PassedTo(hooks, st.held.fields, |hooks|);
      && r == Outward(hooks, |hooks|, InsertOne(env, fields))
      && st'.inserts == st.inserts + if env.check(fields).Some? then [] else [env.spec(fields)]
  {
    hide MutateOne, InsertOne, StopsAt, StoppedBy;
    var r := MutateOne(env, Wrap(hooks, 0, 0), Own, st);
    NothingOutward(hooks, r.1);
    EndsFrom(env, hooks, st.held.fields, 0, Own, st);
  }

  // ---------- single and bulk ----------

  /**
   What the two ways to save insert, for one builder and its hooks: both insert the fields
   that the hooks pass on, a single Save if those pass the check, a bulk Save if the
   builder's own do.
   */
  lemma {:induction false} SingleAndBulk<F, N, S>(
    one: OneEnv<F, S>, bulk: Env<F, N, S>, m: Mutator<F>, own: F, passed: Passed<F>)
    requires forall f :: one.check(f) == bulk.check(f)
    ensures
      match Arrives(m, own, passed)
      case None => ReadyOne(one, m, own, passed).None? && Ready(bulk, m, own, passed).None?
      case Some((kept, sent)) =>
        && ReadyOne(one, m, own, passed) == (if one.check(sent).None? then Some(sent) else None)
        && Ready(bulk, m, own, passed) == (if one.check(kept).None? then Some(sent) else None)
    decreases m
  {
    match m
    case Link(_) =>
    case Hooked(_, hook, next) =>
      match hook.before(if passed.Own? then own else passed.fields) {
        case Forward(f) =>
          if passed.Own? {
            SingleAndBulk(one, bulk, next, f, Own);
          } else {
            SingleAndBulk(one, bulk, next, own, Fresh(f));
          }
        case Replace(f) => SingleAndBulk(one, bulk, next, own, Fresh(f));
        case _ =>
      }
  }

  /** They agree exactly when the check does not tell the fields kept from the fields passed on. */
  lemma SingleIsBulkIff<F, N, S>(one: OneEnv<F, S>, bulk: Env<F, N, S>, m: Mutator<F>, own: F)
    requires forall f :: one.check(f) == bulk.check(f)
    ensures
      ReadyOne(one, m, own, Own) == Ready(bulk, m, own, Own) <==>
      Arrives(m, own, Own).None? ||
      (one.check(Arrives(m, own, Own).value.0).None? <==> one.check(Arrives(m, own, Own).value.1).None?)
  {
    SingleAndBulk(one, bulk, m, own, Own);
    hide Arrives, ReadyOne, Ready;
  }
}
