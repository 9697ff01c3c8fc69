/**
 The builders and mutations that AccountCreateBulk.Save works on
 (backend/ent/account_create.go), proved to run the chain of module BulkChain.

 The function `fill` is what defaults leaves in a mutation; Save drops its error.
 */
module BulkCreate {
  import opened Common
  import opened BulkChain

  class AccountMutation<F> {
    var fields: F
    var id: Option<int>
    var done: bool

    constructor (fields: F)
      ensures this.fields == fields && id == None && !done
    {
      this.fields, id, done := fields, None, false;
    }

    ghost function View(): Held<F>
      reads this
    {
      Held(fields, id, done)
    }
  }

  class AccountCreate<F> {
    var mutation: AccountMutation<F>
    const hooks: seq<Hook<F>>

    constructor (mutation: AccountMutation<F>, hooks: seq<Hook<F>>)
      ensures this.mutation == mutation && this.hooks == hooks
    {
      this.mutation, this.hooks := mutation, hooks;
    }
  }

  class AccountCreateBulk<F, N, S> {
    const env: Env<F, N, S>
    const fill: F -> F
    const err: Option<Failure>
    const builders: seq<AccountCreate<F>>
    var nodes: seq<Option<(N, int)>>
    var specs: seq<Option<S>>
    var mutators: seq<Mutator<F>>
    // The batch insert: the ids it gave, its calls, and the events around it.
    var given: nat -> Option<int>
    var batches: seq<seq<Option<S>>>
    var trace: seq<Event>

    constructor (env: Env<F, N, S>, fill: F -> F, err: Option<Failure>, builders: seq<AccountCreate<F>>)
      ensures this.env == env && this.fill == fill && this.err == err && this.builders == builders
      ensures Unused()
    {
      this.env, this.fill, this.err, this.builders := env, fill, err, builders;
      nodes, specs, mutators := [], [], [];
      given, batches, trace := NoIDs(), [], [];
    }

    ghost predicate Unused()
      reads this
    {
      given == NoIDs() && batches == [] && trace == []
    }

    /** No builder is listed twice, and no two builders share a mutation. */
    ghost predicate Separate()
      reads this, builders
    {
      forall i, j :: 0 <= i < j < |builders| ==>
        builders[i] != builders[j] && builders[i].mutation != builders[j].mutation
    }

    ghost predicate Valid()
      reads this, builders
    {
      && Separate()
      && |nodes| == |specs| == |mutators| == |builders|
      && WellBuilt(mutators)
    }

    ghost function Mutations(): set<AccountMutation<F>>
      reads this, builders
    {
      set i | 0 <= i < |builders| :: builders[i].mutation
    }

    ghost function HeldView(): (held: seq<Held<F>>)
      reads this, builders, Mutations()
      ensures |held| == |builders|
      ensures forall i :: 0 <= i < |builders| ==> held[i] == builders[i].mutation.View()
    {
      seq(|builders|, i requires 0 <= i < |builders| reads this, builders, Mutations() => builders[i].mutation.View())
    }

    ghost function View(): State<F, N, S>
      reads this, builders, Mutations()
    {
      State(HeldView(), nodes, specs, given, batches, trace)
    }

    ghost function Hooks(): (hooks: seq<seq<Hook<F>>>)
      ensures |hooks| == |builders| && forall i :: 0 <= i < |hooks| ==> hooks[i] == builders[i].hooks
    {
      seq(|builders|, i requires 0 <= i < |builders| => builders[i].hooks)
    }

    /** How a link sees the mutation it is called with. */
    ghost function PassedAs(m: AccountMutation<F>, i: nat): Passed<F>
      requires i < |builders|
      reads this, builders, m
    {
      if m == builders[i].mutation then Own else Fresh(m.fields)
    }

    /** A mutation may be passed to link i if it is that builder's own or a new one. */
    ghost predicate MayPass(m: AccountMutation<F>, i: nat)
      requires i < |builders|
      reads this, builders, m
    {
      m == builders[i].mutation || (m !in Mutations() && m.id == None && !m.done)
    }

    /** A hook edits the mutation it was handed, in place. */
    method EditMutation(m: AccountMutation<F>, ghost i: nat, f: F)
      requires Valid() && i < |builders| && MayPass(m, i)
      modifies m
      ensures Valid() && MayPass(m, i)
      ensures (View(), PassedAs(m, i)) == Edit(old(View()), i, old(PassedAs(m, i)), f)
    {
      m.fields := f;
      assert HeldView() ==
             if m == builders[i].mutation then old(HeldView())[i := old(HeldView())[i].(fields := f)]
              else old(HeldView());
    }

    method Record(e: Event)
      requires Valid()
      modifies this`trace
      ensures Valid() && View() == Log(old(View()), e)
      ensures HeldView() == old(HeldView())
    {
      trace := trace + [e];
    }

    /** The builder takes over the mutation, and its node and spec are made. */
    method AdoptMutation(i: nat, m: AccountMutation<F>)
      requires Valid() && i < |builders| && MayPass(m, i)
      modifies this`nodes, this`specs, this`trace, builders[i]
      ensures Valid() && builders[i].mutation == m
      ensures forall k :: 0 <= k < |builders| && k != i ==> builders[k].mutation == old(builders[k].mutation)
      ensures View() == Adopt(env, old(View()), i, old(PassedAs(m, i)))
    {
      builders[i].mutation := m;
      nodes := nodes[i := Some((env.node(m.fields), 0))];
      specs := specs[i := Some(env.spec(m.fields))];
      trace := trace + [MakeSpec(i)];
    }

    /** The batch insert on the specs gathered so far. */
    method InsertBatch() returns (r: Outcome)
      requires Valid()
      modifies this`given, this`batches, this`trace
      ensures Valid() && (View(), r) == InsertAll(env, old(View())) && HeldView() == old(HeldView())
    {
      batches := batches + [specs];
      trace := trace + [Insert];
      match env.insert(specs) {
        case Rejected(f) => r := Err(f);
        case Accepted(ids) => given, r := ids, Ok;
      }
      assert HeldView() == old(HeldView());
    }

    /** The end of a link: the mutation takes the node's id, and is marked done. */
    method CompleteLink(i: nat)
      requires Valid() && i < |builders| && nodes[i].Some?
      modifies this`nodes, this`trace, builders[i].mutation
      ensures Valid() && View() == Complete(old(View()), i)
      ensures forall k :: 0 <= k < |builders| ==> builders[k].mutation == old(builders[k].mutation)
    {
      var (node, id) := nodes[i].value;
      if given(i).Some? {
        id := given(i).value;
      }
      nodes := nodes[i := Some((node, id))];
      var mutation := builders[i].mutation;
      mutation.id := Some(id);
      mutation.done := true;
      trace := trace + [Finish(i)];
      assert HeldView() == old(HeldView())[i := old(HeldView())[i].(id := Some(id), done := true)];
    }

    /** Calls a mutator with a mutation. */
    method Mutate(mu: Mutator<F>, m: AccountMutation<F>) returns (r: Outcome)
      requires Valid() && Base(mu) < |builders| && MayPass(m, Base(mu))
      modifies this`nodes, this`specs, this`given, this`batches, this`trace, builders, Mutations(), m
      ensures Valid()
      ensures (View(), r) == BulkChain.Mutate(env, mutators, mu, old(PassedAs(m, Base(mu))), old(View()))
      ensures forall k :: 0 <= k < Base(mu) ==> builders[k].mutation == old(builders[k].mutation)
      decreases |builders| - Base(mu), mu, 2
    {
      match mu
      case Hooked(h, hook, next) => r := CallHook(mu, m);
      case Link(i) => r := CallLink(i, m);
    }

    method CallHook(mu: Mutator<F>, m: AccountMutation<F>) returns (r: Outcome)
      requires mu.Hooked? && Valid() && Base(mu) < |builders| && MayPass(m, Base(mu))
      modifies this`nodes, this`specs, this`given, this`batches, this`trace, builders, Mutations(), m
      ensures Valid()
      ensures (View(), r) == BulkChain.Mutate(env, mutators, mu, old(PassedAs(m, Base(mu))), old(View()))
      ensures forall k :: 0 <= k < Base(mu) ==> builders[k].mutation == old(builders[k].mutation)
      decreases |builders| - Base(mu), mu, 1
    {
      ghost var i, passed, st0 := Base(mu), PassedAs(m, Base(mu)), View();
      HookedCall(env, mutators, mu, passed, st0, m.fields);
      hide *;
      Record(Enter(Base(mu), mu.number));
      match mu.hook.before(m.fields) {
        case Refuse(code) => r := Err(HookRefused(code));
        case Skip => r := Ok;
        case Forward(f) =>
          EditMutation(m, i, f);
          r := Mutate(mu.next, m);
        case Replace(f) => r := CallReplaced(mu.next, f);
      }
      Record(Leave(Base(mu), mu.number));
      r := mu.hook.after(r);
    }

    /** A hook calls next with a mutation of its own making. */
    method CallReplaced(mu: Mutator<F>, f: F) returns (r: Outcome)
      requires Valid() && Base(mu) < |builders|
      modifies this`nodes, this`specs, this`given, this`batches, this`trace, builders, Mutations()
      ensures Valid()
      ensures (View(), r) == BulkChain.Mutate(env, mutators, mu, Fresh(f), old(View()))
      ensures forall k :: 0 <= k < Base(mu) ==> builders[k].mutation == old(builders[k].mutation)
      decreases |builders| - Base(mu), mu, 3
    {
      var other := NewMutation(Base(mu), f);
      r := Mutate(mu, other);
    }

    /** A mutation that a hook makes to pass on instead of the one it was handed. */
    method NewMutation(ghost i: nat, f: F) returns (m: AccountMutation<F>)
      requires Valid() && i < |builders|
      ensures fresh(m) && Valid() && MayPass(m, i) && PassedAs(m, i) == Fresh(f) && View() == old(View())
      ensures Mutations() == old(Mutations())
    {
      m := new AccountMutation(f);
      assert HeldView() == old(HeldView());
    }

    method CallLink(i: nat, m: AccountMutation<F>) returns (r: Outcome)
      requires Valid() && i < |builders| && MayPass(m, i)
      modifies this`nodes, this`specs, this`given, this`batches, this`trace, builders, Mutations(), m
      ensures Valid()
      ensures (View(), r) == BulkChain.Mutate(env, mutators, Link(i), old(PassedAs(m, i)), old(View()))
      ensures forall k :: 0 <= k < i ==> builders[k].mutation == old(builders[k].mutation)
      decreases |builders| - i, Mutator<F>.Link(i), 1
    {
      ghost var passed, st0 := PassedAs(m, i), View();
      LinkCall(env, mutators, i, passed, st0);
      assert st0.held[i].fields == builders[i].mutation.fields;
      hide *;
      Record(Check(i));
      var failed := env.check(builders[i].mutation.fields);
      if failed.Some? {
        return Err(failed.value);
      }
      AdoptMutation(i, m);
      r := CallRest(i);
      if r.Ok? {
        CompleteLink(i);
      }
    }

    /** The rest of the chain: the next mutator, or the batch insert after the last. */
    method CallRest(i: nat) returns (r: Outcome)
      requires Valid() && i < |builders|
      modifies this`nodes, this`specs, this`given, this`batches, this`trace, builders, Mutations()
      ensures Valid()
      ensures (View(), r) ==
              if i + 1 < |mutators| then BulkChain.Mutate(env, mutators, mutators[i + 1], Own, old(View()))
              else InsertAll(env, old(View()))
      ensures forall k :: 0 <= k <= i ==> builders[k].mutation == old(builders[k].mutation)
      decreases |builders| - i, Mutator<F>.Link(i), 0
    {
      if i + 1 < |mutators| {
        r := Mutate(mutators[i + 1], builders[i + 1].mutation);
      } else {
        r := InsertBatch();
      }
    }

    /** The hooks are applied from the last to the first, so that the first is outermost. */
    method BuildMutator(i: nat) returns (mut: Mutator<F>)
      requires i < |builders|
      ensures mut == Wrap(builders[i].hooks, i, 0)
    {
      mut := Link(i);
      for h := |builders[i].hooks| downto 0
        invariant mut == Wrap(builders[i].hooks, i, h)
      {
        mut := Hooked(h, builders[i].hooks[h], mut);
      }
    }

    /** builder.defaults(), whose error is dropped. */
    method FillDefaults(i: nat)
      requires i < |builders|
      modifies builders[i].mutation
      ensures builders[i].mutation.View() ==
              old(builders[i].mutation.View()).(fields := fill(old(builders[i].mutation.View()).fields))
    {
      var mutation := builders[i].mutation;
      mutation.fields := fill(mutation.fields);
    }

    /** The first loop of Save: defaults, whose error is dropped, and the closures. */
    method Prepare()
      requires Separate()
      modifies this`nodes, this`specs, this`mutators, Mutations()
      ensures Valid() && mutators == Build(Hooks())
      ensures HeldView() == Filled(old(HeldView()))
      ensures View() == State(Filled(old(HeldView())), Unset(|builders|), Unset(|builders|),
                              old(given), old(batches), old(trace))
    {
      hide Wrap, HeldView, Filled, Hooks, Build, Unset, AccountMutation.View;
      nodes, specs := Unset(|builders|), Unset(|builders|);
      var ms: seq<Mutator<F>> := [];
      for i := 0 to |builders|
        invariant nodes == Unset(|builders|) && specs == Unset(|builders|)
        invariant |ms| == i && forall j :: 0 <= j < i ==> ms[j] == Wrap(builders[j].hooks, j, 0)
        invariant forall j :: 0 <= j < i ==> builders[j].mutation.View() == Filled(old(HeldView()))[j]
        invariant forall j :: i <= j < |builders| ==> builders[j].mutation.View() == old(HeldView())[j]
      {
        FillDefaults(i);
        var mut := BuildMutator(i);
        ms := ms + [mut];
      }
      mutators := ms;
      assert mutators == Build(Hooks());
      assert HeldView() == Filled(old(HeldView()));
    }

    ghost function Filled(held: seq<Held<F>>): (filled: seq<Held<F>>)
      ensures |filled| == |held| && forall i :: 0 <= i < |held| ==>
        filled[i] == held[i].(fields := fill(held[i].fields))
    {
      seq(|held|, i requires 0 <= i < |held| => held[i].(fields := fill(held[i].fields)))
    }

    /**
     Creates all the accounts, or none: it reaches the state and the outcome of BulkChain.Save
     on the builders' mutations with their defaults filled in, unless the builder carries an error.
     */
    method Save() returns (r: Outcome)
      requires Separate() && Unused()
      modifies this`nodes, this`specs, this`mutators, this`given, this`batches, this`trace, builders, Mutations()
      ensures err.Some? ==> r == Err(err.value) && View() == old(View())
      ensures err.None? ==>
        var (st, outcome) := BulkChain.Save(env, Filled(old(HeldView())), Hooks());
        r == outcome && View() == st
    {
      if err.Some? {
        return Err(err.value);
      }
      hide *;
      Prepare();
      r := Ok;
      if |mutators| > 0 {
        r := Mutate(mutators[0], builders[0].mutation);
      }
    }
  }
}
