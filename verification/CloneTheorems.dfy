/** What Clone of backend/ent/account_query.go means for the calls that follow it. */
module CloneTheorems {
  import opened Common
  import opened QueryBuilder

  // ---------- independence ----------

  /** Calls in time order, each on the original or on its clone. */
  datatype Turn = OnOriginal(call: AccountCall) | OnClone(call: AccountCall)

  function OriginalCalls(turns: seq<Turn>): seq<AccountCall> {
    if turns == [] then []
    else
      OriginalCalls(turns[..|turns| - 1]) +
      match turns[|turns| - 1] { case OnOriginal(c) => [c] case OnClone(_) => [] }
  }

  function CloneCalls(turns: seq<Turn>): seq<AccountCall> {
    if turns == [] then []
    else
      CloneCalls(turns[..|turns| - 1]) +
      match turns[|turns| - 1] { case OnOriginal(_) => [] case OnClone(c) => [c] }
  }

  lemma TurnsExtend(turns: seq<Turn>, i: int)
    requires 0 <= i < |turns|
    ensures turns[i].OnOriginal? ==>
      && OriginalCalls(turns[..i + 1]) == OriginalCalls(turns[..i]) + [turns[i].call]
      && CloneCalls(turns[..i + 1]) == CloneCalls(turns[..i])
    ensures turns[i].OnClone? ==>
      && CloneCalls(turns[..i + 1]) == CloneCalls(turns[..i]) + [turns[i].call]
      && OriginalCalls(turns[..i + 1]) == OriginalCalls(turns[..i])
  {
    assert turns[..i + 1][..i] == turns[..i];
  }

  lemma CalledLast(v: AccountView, calls: seq<AccountCall>, c: AccountCall)
    ensures CalledAll(v, calls + [c]) == Called(CalledAll(v, calls), c)
  {
    assert (calls + [c])[..|calls|] == calls;
  }

  /** A call on one of two trees that share nothing changes that one alone, and they still share nothing. */
  method TakeTurn(q: AccountQuery, c: AccountQuery, t: Turn)
    requires q.Valid() && c.Valid() && q.Repr !! c.Repr
    modifies q.Repr, c.Repr
    ensures q.Valid() && c.Valid() && q.Repr !! c.Repr
    ensures fresh(q.Repr - old(q.Repr)) && fresh(c.Repr - old(c.Repr))
    ensures q.View() == if t.OnOriginal? then Called(old(q.View()), t.call) else old(q.View())
    ensures c.View() == if t.OnClone? then Called(old(c.View()), t.call) else old(c.View())
  {
    hide *;
    q.Parts();
    c.Parts();
    match t
    case OnOriginal(call) => q.Apply(call);
    case OnClone(call) => c.Apply(call);
  }

  lemma NoTurns(v: AccountView)
    ensures CalledAll(v, OriginalCalls([])) == v && CalledAll(v, CloneCalls([])) == v
  {
  }

  /**
   After Clone, builder calls on the original and on the clone, in any number and any
   order, never meet: each ends as if only its own calls had been made.
   */
  method CloneThenCalls(q: AccountQuery, turns: seq<Turn>) returns (c: AccountQuery)
    requires q.Valid()
    modifies q.Repr
    ensures q.Valid() && c.Valid() && fresh(c.Repr) && q.Repr !! c.Repr
    ensures q.View() == CalledAll(old(q.View()), OriginalCalls(turns))
    ensures c.View() == CalledAll(Plain(old(q.View())), CloneCalls(turns))
  {
    hide *;
    c := q.Clone();
    ghost var v := q.View();
    NoTurns(v);
    NoTurns(Plain(v));
    assert turns[..0] == [];
    for i := 0 to |turns|
      invariant q.Valid() && c.Valid() && fresh(c.Repr) && fresh(q.Repr - old(q.Repr)) && q.Repr !! c.Repr
      invariant q.View() == CalledAll(v, OriginalCalls(turns[..i]))
      invariant c.View() == CalledAll(Plain(v), CloneCalls(turns[..i]))
    {
      TurnsExtend(turns, i);
      CalledLast(v, OriginalCalls(turns[..i]), turns[i].call);
      CalledLast(Plain(v), CloneCalls(turns[..i]), turns[i].call);
      TakeTurn(q, c, turns[i]);
    }
    assert turns[..|turns|] == turns;
  }

  // ---------- modifiers ----------

  predicate UnmodifiedEdge<C>(b: Option<Base<C>>) {
    b.Some? ==> b.value.modifiers == []
  }

  predicate Unmodified(v: AccountView) {
    && v.base.modifiers == [] && UnmodifiedEdge(v.groups) && UnmodifiedEdge(v.proxy)
    && UnmodifiedEdge(v.owner) && UnmodifiedEdge(v.usageLogs)
    && (v.links.Some? ==> UnmodifiedLink(v.links.value))
  }

  predicate UnmodifiedLink(v: LinkView) {
    v.base.modifiers == [] && UnmodifiedEdge(v.group) && (v.account.Some? ==> Unmodified(v.account.value))
  }

  /** A clone is the same query exactly when no builder of the tree had a modifier, such as a row lock. */
  lemma {:induction false} CloneIsEqualIff(v: AccountView)
    ensures Plain(v) == v <==> Unmodified(v)
    ensures Unmodified(Plain(v))
  {
    if v.links.Some? {
      LinkCloneIsEqualIff(v.links.value);
    }
  }

  lemma {:induction false} LinkCloneIsEqualIff(v: LinkView)
    ensures PlainLink(v) == v <==> UnmodifiedLink(v)
    ensures UnmodifiedLink(PlainLink(v))
  {
    if v.account.Some? {
      CloneIsEqualIff(v.account.value);
    }
  }

  lemma SameAfterStep<C>(b: Base<C>, d: Base<C>, s: Step<C>)
    requires PlainBase(b) == PlainBase(d)
    ensures PlainBase(Stepped(b, s)) == PlainBase(Stepped(d, s))
  {
  }

  /** A call maps queries that differ in modifiers alone to such queries. */
  lemma SameAfterCall(v: AccountView, w: AccountView, c: AccountCall)
    requires Plain(v) == Plain(w)
    ensures Plain(Called(v, c)) == Plain(Called(w, c))
  {
    hide SteppedAll, LinkCalledAll;
    match c
    case Own(s) =>
      assert PlainBase(Stepped(v.base, s)) == PlainBase(Stepped(w.base, s)) by { SameAfterStep(v.base, w.base, s); }
    case WithGroups(_) =>
    case WithProxy(_) =>
    case WithOwner(_) =>
    case WithUsageLogs(_) =>
    case WithAccountGroups(_) =>
  }

  /** Cloning first and then calling differs from calling on the original in the modifiers alone. */
  lemma {:induction false} CloneThenCallsIsCallsThenClone(v: AccountView, calls: seq<AccountCall>)
    ensures Plain(CalledAll(Plain(v), calls)) == Plain(CalledAll(v, calls))
  {
    if calls == [] {
      CloneIsEqualIff(Plain(v));
      CloneIsEqualIff(v);
    } else {
      var init, last := calls[..|calls| - 1], calls[|calls| - 1];
      CloneThenCallsIsCallsThenClone(v, init);
      SameAfterCall(CalledAll(Plain(v), init), CalledAll(v, init), last);
    }
  }
}
