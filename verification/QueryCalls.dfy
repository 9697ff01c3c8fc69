/**
 What calls on a query builder come to, part by part: the calls of backend/ent/account_query.go
 and backend/ent/accountgroup_query.go, and what the query that they build asks for.
 */
module QueryCalls {
  import opened Common
  import opened RowCodec
  import opened Entities
  import opened Projection
  import opened ToOneLoading
  import opened ToManyLoading
  import opened AccountLoading
  import opened QueryBuilder
  import opened QuerySpecs
  import opened EagerRuns

  // ---------- the steps on one builder ----------

  /** What some calls give, one after the other. */
  function Given<T, U>(calls: seq<T>, f: T -> seq<U>): seq<U> {
    if calls == [] then [] else Given(calls[..|calls| - 1], f) + f(calls[|calls| - 1])
  }

  /** The last of some values, if there is any. */
  function LastOr<U>(values: seq<U>, otherwise: Option<U>): Option<U> {
    if values == [] then otherwise else Some(values[|values| - 1])
  }

  function Predicates<C>(s: Step<C>): seq<Predicate> {
    if s.Where? then [s.added] else []
  }

  function Orders<C>(s: Step<C>): seq<string> {
    if s.Order? then [s.option] else []
  }

  function Limits<C>(s: Step<C>): seq<nat> {
    if s.Limit? then [s.limit] else []
  }

  function Offsets<C>(s: Step<C>): seq<nat> {
    if s.Offset? then [s.offset] else []
  }

  /** A lock on Postgres turns uniqueness off. */
  function Uniques<C>(s: Step<C>): seq<bool> {
    if s.Unique? then [s.unique] else if s.Lock? && s.postgres then [false] else []
  }

  function Modifiers<C>(s: Step<C>): seq<string> {
    if s.Lock? then [s.modifier] else []
  }

  function Selectors<C>(s: Step<C>): seq<string> {
    if s.StartFrom? then [s.selector] else []
  }

  function Selected<C>(s: Step<C>): seq<C> {
    if s.Select? then s.fields else []
  }

  /** All but the fields, after one step. */
  ghost predicate StepGives<C>(b: Base<C>, s: Step<C>, d: Base<C>) {
    && d.predicates == b.predicates + Predicates(s) && d.order == b.order + Orders(s)
    && d.modifiers == b.modifiers + Modifiers(s) && d.ctx.limit == LastOr(Limits(s), b.ctx.limit)
    && d.ctx.offset == LastOr(Offsets(s), b.ctx.offset) && d.ctx.unique == LastOr(Uniques(s), b.ctx.unique)
    && d.sql == LastOr(Selectors(s), b.sql) && d.inters == b.inters && d.path == b.path
  }

  lemma OneStep<C>(b: Base<C>, s: Step<C>)
    ensures StepGives(b, s, Stepped(b, s))
  {
    hide WithKey;
    match s
    case Where(p) =>
    case Order(o) =>
    case Limit(n) =>
    case Offset(n) =>
    case Unique(u) =>
    case Select(fs) =>
    case GroupBy(f, fs) =>
    case Lock(m, postgres) =>
    case KeyField(f) =>
    case StartFrom(q) =>
  }

  /** All but the fields, after some steps. */
  ghost predicate StepsGive<C>(b: Base<C>, steps: seq<Step<C>>, d: Base<C>) {
    && d.predicates == b.predicates + Given(steps, Predicates)
    && d.order == b.order + Given(steps, Orders)
    && d.modifiers == b.modifiers + Given(steps, Modifiers)
    && d.ctx.limit == LastOr(Given(steps, Limits), b.ctx.limit)
    && d.ctx.offset == LastOr(Given(steps, Offsets), b.ctx.offset)
    && d.ctx.unique == LastOr(Given(steps, Uniques), b.ctx.unique)
    && d.sql == LastOr(Given(steps, Selectors), b.sql)
    && d.inters == b.inters && d.path == b.path
  }

  /** What one more call gives comes last. */
  lemma OneMore<T, U>(calls: seq<T>, f: T -> seq<U>)
    requires calls != []
    ensures Given(calls, f) == Given(calls[..|calls| - 1], f) + f(calls[|calls| - 1])
    ensures forall otherwise ::
      LastOr(Given(calls, f), otherwise) ==
      LastOr(f(calls[|calls| - 1]), LastOr(Given(calls[..|calls| - 1], f), otherwise))
  {
  }

  /**
   After any steps on a builder, its predicates, orders and modifiers are those of the steps, in
   order and after those it had, its limit, offset, uniqueness and selector are each the last
   that a step gave, or what it had, and its interceptors and its path are as before.
   */
  lemma {:induction false} StepsComeTo<C>(b: Base<C>, steps: seq<Step<C>>)
    ensures StepsGive(b, steps, SteppedAll(b, steps))
  {
    hide Stepped, Predicates, Orders, Modifiers, Limits, Offsets, Uniques, Selectors;
    if steps == [] {
    } else {
      var init, last := steps[..|steps| - 1], steps[|steps| - 1];
      StepsComeTo(b, init);
      OneStep(SteppedAll(b, init), last);
      OneMore(steps, Predicates);
      OneMore(steps, Orders);
      OneMore(steps, Modifiers);
      OneMore(steps, Limits);
      OneMore(steps, Offsets);
      OneMore(steps, Uniques);
      OneMore(steps, Selectors);
      hide LastOr, Given;
    }
  }

  /** No GroupBy among the steps from here on, nor a key that a loader adds. */
  ghost predicate OnlySelects<C>(steps: seq<Step<C>>, from: int) {
    forall j :: 0 <= from <= j < |steps| ==> !steps[j].GroupBy? && !steps[j].KeyField?
  }

  lemma FieldsAfterStep<C>(b: Base<C>, s: Step<C>)
    requires !s.GroupBy? && !s.KeyField?
    ensures Stepped(b, s).ctx.fields == b.ctx.fields + Selected(s)
  {
  }

  /** The selected fields are those of all Select calls, in order. */
  lemma {:induction false} SelectionComesTo<C>(b: Base<C>, steps: seq<Step<C>>)
    requires OnlySelects(steps, 0)
    ensures SteppedAll(b, steps).ctx.fields == b.ctx.fields + Given(steps, Selected)
  {
    if steps == [] {
    } else {
      var init, last := steps[..|steps| - 1], steps[|steps| - 1];
      assert OnlySelects(init, 0);
      assert !last.GroupBy? && !last.KeyField?;
      SelectionComesTo(b, init);
      FieldsAfterStep(SteppedAll(b, init), last);
      OneMore(steps, Selected);
      hide Given, OnlySelects;
    }
  }

  lemma FieldsAfterGroupBy<C>(b: Base<C>, s: Step<C>)
    requires s.GroupBy?
    ensures Stepped(b, s).ctx.fields == [s.field] + s.others
  {
  }

  lemma OneMoreFrom<T, U>(calls: seq<T>, i: int, f: T -> seq<U>)
    requires 0 <= i < |calls|
    ensures Given(calls[i..], f) == Given(calls[..|calls| - 1][i..], f) + f(calls[|calls| - 1])
  {
    assert calls[i..][..|calls| - i - 1] == calls[..|calls| - 1][i..];
  }

  /** GroupBy replaces what was selected before it. */
  lemma {:induction false} GroupingComesTo<C>(b: Base<C>, steps: seq<Step<C>>, i: int)
    requires 0 <= i < |steps| && steps[i].GroupBy? && OnlySelects(steps, i + 1)
    ensures SteppedAll(b, steps).ctx.fields == [steps[i].field] + steps[i].others + Given(steps[i + 1..], Selected)
    decreases |steps|
  {
    hide Selected, Stepped;
    var init, last := steps[..|steps| - 1], steps[|steps| - 1];
    if i == |steps| - 1 {
      FieldsAfterGroupBy(SteppedAll(b, init), last);
      assert steps[i + 1..] == [];
    } else {
      assert OnlySelects(init, i + 1);
      assert !last.GroupBy? && !last.KeyField?;
      GroupingComesTo(b, init, i);
      FieldsAfterStep(SteppedAll(b, init), last);
      OneMoreFrom(steps, i + 1, Selected);
      hide Given, OnlySelects;
    }
  }

  // ---------- calls on an account query ----------

  function OwnSteps(c: AccountCall): seq<Step<Column>> {
    if c.Own? then [c.step] else []
  }

  /** The last With call for an edge. */
  ghost predicate LastAsk(calls: seq<AccountCall>, e: Edge, i: int) {
    0 <= i < |calls| && AsksFor(calls[i], e) && forall j :: i < j < |calls| ==> !AsksFor(calls[j], e)
  }

  ghost predicate Asked(calls: seq<AccountCall>, e: Edge) {
    exists i :: 0 <= i < |calls| && AsksFor(calls[i], e)
  }

  ghost predicate CallsGive(v: AccountView, calls: seq<AccountCall>, w: AccountView) {
    && w.base == SteppedAll(v.base, Given(calls, OwnSteps))
    && (forall e, i :: LastAsk(calls, e, i) ==> HoldsOnly(w, e, calls[i]))
    && (forall e :: !Asked(calls, e) ==> SameEdge(w, v, e))
  }

  lemma OneMoreStep<T, C>(b: Base<C>, calls: seq<T>, f: T -> seq<Step<C>>)
    requires calls != [] && |f(calls[|calls| - 1])| <= 1
    ensures
      var given, last := Given(calls[..|calls| - 1], f), f(calls[|calls| - 1]);
      SteppedAll(b, Given(calls, f)) ==
      if last == [] then SteppedAll(b, given) else Stepped(SteppedAll(b, given), last[0])
  {
    hide Stepped;
    var given, last := Given(calls[..|calls| - 1], f), f(calls[|calls| - 1]);
    if last == [] {
      assert given + last == given;
    } else {
      assert (given + last)[..|given|] == given;
    }
  }

  lemma AskedBefore(calls: seq<AccountCall>, e: Edge)
    requires calls != [] && !AsksFor(calls[|calls| - 1], e)
    ensures Asked(calls, e) <==> Asked(calls[..|calls| - 1], e)
    ensures forall i :: LastAsk(calls, e, i) ==> LastAsk(calls[..|calls| - 1], e, i)
  {
    hide AsksFor;
    var init := calls[..|calls| - 1];
    assert forall j :: 0 <= j < |init| ==> init[j] == calls[j];
    if Asked(calls, e) {
      var i :| 0 <= i < |calls| && AsksFor(calls[i], e);
      assert AsksFor(init[i], e);
    }
    if Asked(init, e) {
      var i :| 0 <= i < |init| && AsksFor(init[i], e);
      assert AsksFor(calls[i], e);
    }
  }

  lemma NothingAsked(v: AccountView)
    ensures forall e, i :: !LastAsk([], e, i)
    ensures forall e :: SameEdge(v, v, e)
  {
  }

  lemma SameThrough(v: AccountView, w: AccountView, x: AccountView, e: Edge)
    requires SameEdge(x, w, e)
    ensures SameEdge(w, v, e) ==> SameEdge(x, v, e)
    ensures forall c :: AsksFor(c, e) && HoldsOnly(w, e, c) ==> HoldsOnly(x, e, c)
  {
  }

  lemma HeldAfterCall(calls: seq<AccountCall>, w: AccountView, x: AccountView, v: AccountView, e: Edge, i: int)
    requires calls != [] && CallsGive(v, calls[..|calls| - 1], w) && CallMade(w, calls[|calls| - 1], x)
    requires LastAsk(calls, e, i)
    ensures HoldsOnly(x, e, calls[i])
  {
    hide HoldsOnly, SameEdge, AsksFor;
    if !AsksFor(calls[|calls| - 1], e) {
      AskedBefore(calls, e);
      SameThrough(v, w, x, e);
      assert HoldsOnly(w, e, calls[..|calls| - 1][i]);
    }
  }

  lemma EdgesAfterCall(v: AccountView, calls: seq<AccountCall>, w: AccountView, x: AccountView)
    requires calls != [] && CallsGive(v, calls[..|calls| - 1], w) && CallMade(w, calls[|calls| - 1], x)
    ensures forall e, i :: LastAsk(calls, e, i) ==> HoldsOnly(x, e, calls[i])
    ensures forall e :: !Asked(calls, e) ==> SameEdge(x, v, e)
  {
    hide HoldsOnly, SameEdge, AsksFor;
    forall e, i | LastAsk(calls, e, i) ensures HoldsOnly(x, e, calls[i]) {
      HeldAfterCall(calls, w, x, v, e, i);
    }
    forall e | !Asked(calls, e) ensures SameEdge(x, v, e) {
      AskedBefore(calls, e);
      SameThrough(v, w, x, e);
    }
  }

  /**
   After any calls on an account query, the query of each edge is new from the last With call
   for that edge and has seen the calls that came with it and no others; an edge without a With
   call is as before; and all that is left is what the query's own calls come to.
   */
  lemma {:induction false} CallsComeTo(v: AccountView, calls: seq<AccountCall>)
    ensures CallsGive(v, calls, CalledAll(v, calls))
    decreases |calls|
  {
    hide Stepped, Called, HoldsOnly, SameEdge, AsksFor, LastAsk, Asked;
    if calls == [] {
      assert Given(calls, OwnSteps) == [];
      NothingAsked(v);
    } else {
      var init, last := calls[..|calls| - 1], calls[|calls| - 1];
      CallsComeTo(v, init);
      CallMakes(CalledAll(v, init), last);
      OneMoreStep(v.base, calls, OwnSteps);
      EdgesAfterCall(v, calls, CalledAll(v, init), CalledAll(v, calls));
    }
  }

  lemma LastAsks(calls: seq<AccountCall>, e: Edge, i: int)
    requires LastAsk(calls, e, i)
    ensures 0 <= i < |calls| && AsksFor(calls[i], e)
  {
  }

  predicate Has(v: AccountView, e: Edge) {
    match e
    case GroupsEdge => v.groups.Some?
    case ProxyEdge => v.proxy.Some?
    case OwnerEdge => v.owner.Some?
    case UsageLogsEdge => v.usageLogs.Some?
    case AccountGroupsEdge => v.links.Some?
  }

  /** If some call asks for the edge, there is a last one. */
  lemma {:induction false} SomeLast(calls: seq<AccountCall>, e: Edge) returns (i: int)
    requires Asked(calls, e)
    ensures LastAsk(calls, e, i)
    decreases |calls|
  {
    hide AsksFor;
    var n := |calls| - 1;
    if AsksFor(calls[n], e) {
      i := n;
    } else {
      AskedBefore(calls, e);
      i := SomeLast(calls[..n], e);
    }
  }

  lemma HeldIsThere(v: AccountView, e: Edge, c: AccountCall)
    requires AsksFor(c, e) && HoldsOnly(v, e, c)
    ensures Has(v, e)
  {
  }

  lemma SameIsAbsent(v: AccountView, e: Edge)
    ensures SameEdge(v, EMPTY_ACCOUNT, e) ==> !Has(v, e)
  {
  }

  /** A query built from nothing has a query for exactly the edges whose With calls were made. */
  lemma PresentIff(calls: seq<AccountCall>, e: Edge)
    ensures Has(CalledAll(EMPTY_ACCOUNT, calls), e) <==> Asked(calls, e)
  {
    hide CalledAll, Has, HoldsOnly, SameEdge, AsksFor, LastAsk, Asked;
    var v := CalledAll(EMPTY_ACCOUNT, calls);
    CallsComeTo(EMPTY_ACCOUNT, calls);
    SameIsAbsent(v, e);
    if Asked(calls, e) {
      var i := SomeLast(calls, e);
      LastAsks(calls, e, i);
      HeldIsThere(v, e, calls[i]);
    }
  }

  // ---------- what the query asks for ----------

  /** The value given, or the default. */
  function Or<T>(given: Option<T>, otherwise: T): T {
    if given.Some? then given.value else otherwise
  }

  /**
   After any calls, the query asks for the rows that meet all predicates, in the order of the
   Order calls, under the last Limit and the last Offset, of which 0 is none; distinct rows if
   the last Unique call says so or, when there is none, if the query has a traversal path.
   */
  lemma SpecOfCalls(v: AccountView, calls: seq<AccountCall>)
    ensures
      var spec, steps, b := SpecOf(CalledAll(v, calls)), Given(calls, OwnSteps), v.base;
      && spec.predicates == b.predicates + Given(steps, Predicates) && spec.order == b.order + Given(steps, Orders)
      && spec.limit == Or(LastOr(Given(steps, Limits), b.ctx.limit), 0)
      && spec.offset == Or(LastOr(Given(steps, Offsets), b.ctx.offset), 0)
      && spec.unique == Or(LastOr(Given(steps, Uniques), b.ctx.unique), b.path.Some?)
      && spec.modifiers == b.modifiers + Given(steps, Modifiers)
      && spec.from == LastOr(Given(steps, Selectors), b.sql)
  {
    hide CalledAll, SteppedAll, Given, LastOr, LastAsk, Asked, HoldsOnly, SameEdge, AccountColumns;
    CallsComeTo(v, calls);
    StepsComeTo(v.base, Given(calls, OwnSteps));
  }

  /**
   A query built from nothing that selects no field scans every column of accounts; any other
   scans the id, once and first, what it selects, and the keys of the to-one edges that it asks
   for.
   */
  lemma ColumnsOfCalls(calls: seq<AccountCall>)
    ensures
      var v := CalledAll(EMPTY_ACCOUNT, calls);
      var columns, fields := SpecOf(v).columns, v.base.ctx.fields;
      && columns != [] && columns[0] == ID && (forall i :: 0 < i < |columns| ==> columns[i] != ID)
      && forall c :: c in columns <==>
        if fields == [] then !c.Other?
        else
          || c == ID || c in fields || (c == ProxyID && Asked(calls, ProxyEdge))
          || (c == OwnerUserID && Asked(calls, OwnerEdge))
  {
    hide CalledAll, Asked, AllColumns, Without;
    var v := CalledAll(EMPTY_ACCOUNT, calls);
    PresentIff(calls, ProxyEdge);
    PresentIff(calls, OwnerEdge);
    AccountColumnsSound(v.base.ctx.fields, v.proxy.Some?, v.owner.Some?);
    AllAreListed();
  }

  // ---------- what a run loads ----------

  predicate IsLoaded(t: LoadedTypes, e: Edge) {
    match e
    case GroupsEdge => t.groups
    case ProxyEdge => t.proxy
    case OwnerEdge => t.owner
    case UsageLogsEdge => t.usageLogs
    case AccountGroupsEdge => t.accountGroups
  }

  /** A run requests what the query has edges for. */
  lemma RunRequests(db: Database, v: AccountView, e: Edge)
    ensures
      var result := RunAccounts(db, v).1;
      result.Ran? ==> (IsLoaded(Requests(result.plan), e) <==> Has(v, e))
  {
    hide LinksStep, FirstEdges, SpecOf, Readable, InvalidField, Stepped;
    var w := Prepared(db, v);
    match db.accounts(SpecOf(w)) {
      case None =>
      case Some(rows) => EdgesKeep(db, Progress(w, Unloaded(w, rows), None));
    }
  }

  /** What a node shows of the edges that its plan requested. */
  lemma NodeLoaded(nodes: seq<Account>, plan: AccountPlan, json: JsonCodec, k: int)
    requires Eager(nodes, plan, json) && 0 <= k < |nodes|
    ensures nodes[k].loadedTypes == Requests(plan)
    ensures nodes[k].ProxyOrErr().NotLoaded? <==> plan.withProxy.None?
    ensures nodes[k].OwnerOrErr().NotLoaded? <==> plan.withOwner.None?
    ensures plan.withGroups.None? ==> nodes[k].groups == []
    ensures plan.withUsageLogs.None? ==> nodes[k].usageLogs == []
    ensures plan.withAccountGroups.None? ==> nodes[k].accountGroups == []
  {
    hide ReadableRow, DecodeRow, ToOneRow, LogsOf, LinksFor, RowIDs;
    assert OwnLinks(nodes, k);
    assert Shown(nodes[k]) == NodeOf(plan, json, k) by { hide Shown, NodeOf; }
  }

  /** A run on a query that these calls build from nothing ends well. */
  ghost predicate RunsTo(db: Database, calls: seq<AccountCall>, plan: AccountPlan) {
    RunAccounts(db, CalledAll(EMPTY_ACCOUNT, calls)).1 == Ran(plan)
  }

  lemma RequestsAreCalls(db: Database, calls: seq<AccountCall>, plan: AccountPlan, e: Edge)
    requires RunsTo(db, calls, plan)
    ensures IsLoaded(Requests(plan), e) <==> Asked(calls, e)
  {
    hide CalledAll, RunAccounts, Asked, Has;
    PresentIff(calls, e);
    RunRequests(db, CalledAll(EMPTY_ACCOUNT, calls), e);
  }

  /**
   After the With calls of a new query and a run, each node has loaded exactly the edges whose
   With calls were made, its accessors answer `not loaded` for exactly the others, and the
   lists of the others are empty.
   */
  lemma LoadedExactly(db: Database, calls: seq<AccountCall>, plan: AccountPlan, nodes: seq<Account>, k: int)
    requires RunsTo(db, calls, plan) && Eager(nodes, plan, db.json) && 0 <= k < |nodes|
    ensures forall e :: IsLoaded(nodes[k].loadedTypes, e) <==> Asked(calls, e)
    ensures nodes[k].ProxyOrErr().NotLoaded? <==> !Asked(calls, ProxyEdge)
    ensures nodes[k].OwnerOrErr().NotLoaded? <==> !Asked(calls, OwnerEdge)
    ensures nodes[k].groups != [] ==> Asked(calls, GroupsEdge)
    ensures nodes[k].usageLogs != [] ==> Asked(calls, UsageLogsEdge)
    ensures nodes[k].accountGroups != [] ==> Asked(calls, AccountGroupsEdge)
  {
    hide RunsTo, Eager, Asked, LinksBelow;
    NodeLoaded(nodes, plan, db.json, k);
    forall e ensures IsLoaded(Requests(plan), e) <==> Asked(calls, e) {
      RequestsAreCalls(db, calls, plan, e);
    }
    assert IsLoaded(Requests(plan), GroupsEdge) <==> Asked(calls, GroupsEdge);
    assert IsLoaded(Requests(plan), ProxyEdge) <==> Asked(calls, ProxyEdge);
    assert IsLoaded(Requests(plan), OwnerEdge) <==> Asked(calls, OwnerEdge);
    assert IsLoaded(Requests(plan), UsageLogsEdge) <==> Asked(calls, UsageLogsEdge);
    assert IsLoaded(Requests(plan), AccountGroupsEdge) <==> Asked(calls, AccountGroupsEdge);
  }

  // ---------- calls on an account-group query ----------

  function OwnLinkSteps(c: LinkCall): seq<Step<LinkColumn>> {
    if c.OwnLink? then [c.step] else []
  }

  ghost predicate LastLinkAsk(calls: seq<LinkCall>, e: LinkEdge, i: int) {
    0 <= i < |calls| && LinkAsksFor(calls[i], e) && forall j :: i < j < |calls| ==> !LinkAsksFor(calls[j], e)
  }

  ghost predicate LinkAsked(calls: seq<LinkCall>, e: LinkEdge) {
    exists i :: 0 <= i < |calls| && LinkAsksFor(calls[i], e)
  }

  ghost predicate LinkCallsGive(v: LinkView, calls: seq<LinkCall>, w: LinkView) {
    && w.base == SteppedAll(v.base, Given(calls, OwnLinkSteps))
    && (forall e, i :: LastLinkAsk(calls, e, i) ==> LinkHoldsOnly(w, e, calls[i]))
    && (forall e :: !LinkAsked(calls, e) ==> SameLinkEdge(w, v, e))
  }

  lemma LinkAskedBefore(calls: seq<LinkCall>, e: LinkEdge)
    requires calls != [] && !LinkAsksFor(calls[|calls| - 1], e)
    ensures LinkAsked(calls, e) <==> LinkAsked(calls[..|calls| - 1], e)
    ensures forall i :: LastLinkAsk(calls, e, i) ==> LastLinkAsk(calls[..|calls| - 1], e, i)
  {
    hide LinkAsksFor;
    var init := calls[..|calls| - 1];
    assert forall j :: 0 <= j < |init| ==> init[j] == calls[j];
    if LinkAsked(calls, e) {
      var i :| 0 <= i < |calls| && LinkAsksFor(calls[i], e);
      assert LinkAsksFor(init[i], e);
    }
    if LinkAsked(init, e) {
      var i :| 0 <= i < |init| && LinkAsksFor(init[i], e);
      assert LinkAsksFor(calls[i], e);
    }
  }

  lemma NoLinkAsked(v: LinkView)
    ensures forall e, i :: !LastLinkAsk([], e, i)
    ensures forall e :: SameLinkEdge(v, v, e)
  {
  }

  lemma SameLinkThrough(v: LinkView, w: LinkView, x: LinkView, e: LinkEdge)
    requires SameLinkEdge(x, w, e)
    ensures SameLinkEdge(w, v, e) ==> SameLinkEdge(x, v, e)
    ensures forall c :: LinkAsksFor(c, e) && LinkHoldsOnly(w, e, c) ==> LinkHoldsOnly(x, e, c)
  {
  }

  lemma LinkHeldAfterCall(calls: seq<LinkCall>, w: LinkView, x: LinkView, v: LinkView, e: LinkEdge, i: int)
    requires calls != [] && LinkCallsGive(v, calls[..|calls| - 1], w) && LinkCallMade(w, calls[|calls| - 1], x)
    requires LastLinkAsk(calls, e, i)
    ensures LinkHoldsOnly(x, e, calls[i])
  {
    hide LinkHoldsOnly, SameLinkEdge, LinkAsksFor;
    if !LinkAsksFor(calls[|calls| - 1], e) {
      LinkAskedBefore(calls, e);
      SameLinkThrough(v, w, x, e);
      assert LinkHoldsOnly(w, e, calls[..|calls| - 1][i]);
    }
  }

  lemma LinkEdgesAfterCall(v: LinkView, calls: seq<LinkCall>, w: LinkView, x: LinkView)
    requires calls != [] && LinkCallsGive(v, calls[..|calls| - 1], w) && LinkCallMade(w, calls[|calls| - 1], x)
    ensures forall e, i :: LastLinkAsk(calls, e, i) ==> LinkHoldsOnly(x, e, calls[i])
    ensures forall e :: !LinkAsked(calls, e) ==> SameLinkEdge(x, v, e)
  {
    hide LinkHoldsOnly, SameLinkEdge, LinkAsksFor;
    forall e, i | LastLinkAsk(calls, e, i) ensures LinkHoldsOnly(x, e, calls[i]) {
      LinkHeldAfterCall(calls, w, x, v, e, i);
    }
    forall e | !LinkAsked(calls, e) ensures SameLinkEdge(x, v, e) {
      LinkAskedBefore(calls, e);
      SameLinkThrough(v, w, x, e);
    }
  }

  /** The same for an account-group query: each With call makes the query of its own edge anew. */
  lemma {:induction false} LinkCallsComeTo(v: LinkView, calls: seq<LinkCall>)
    ensures LinkCallsGive(v, calls, LinkCalledAll(v, calls))
    decreases |calls|
  {
    hide Stepped, LinkCalled, LinkHoldsOnly, SameLinkEdge, LinkAsksFor, LastLinkAsk, LinkAsked;
    if calls == [] {
      assert Given(calls, OwnLinkSteps) == [];
      NoLinkAsked(v);
    } else {
      var init, last := calls[..|calls| - 1], calls[|calls| - 1];
      LinkCallsComeTo(v, init);
      LinkCallMakes(LinkCalledAll(v, init), last);
      OneMoreStep(v.base, calls, OwnLinkSteps);
      LinkEdgesAfterCall(v, calls, LinkCalledAll(v, init), LinkCalledAll(v, calls));
    }
  }

  predicate LinkHas(v: LinkView, e: LinkEdge) {
    match e
    case AccountEdge => v.account.Some?
    case GroupEdge => v.group.Some?
  }

  lemma {:induction false} SomeLastLink(calls: seq<LinkCall>, e: LinkEdge) returns (i: int)
    requires LinkAsked(calls, e)
    ensures LastLinkAsk(calls, e, i) && 0 <= i < |calls| && LinkAsksFor(calls[i], e)
    decreases |calls|
  {
    hide LinkAsksFor;
    var n := |calls| - 1;
    if LinkAsksFor(calls[n], e) {
      i := n;
    } else {
      LinkAskedBefore(calls, e);
      i := SomeLastLink(calls[..n], e);
    }
  }

  lemma LinkHeldIsThere(v: LinkView, e: LinkEdge, c: LinkCall)
    requires LinkAsksFor(c, e) && LinkHoldsOnly(v, e, c)
    ensures LinkHas(v, e)
  {
  }

  lemma LinkSameIsAbsent(v: LinkView, e: LinkEdge)
    ensures SameLinkEdge(v, EMPTY_LINK, e) ==> !LinkHas(v, e)
  {
  }

  lemma LinkPresentIff(calls: seq<LinkCall>, e: LinkEdge)
    ensures LinkHas(LinkCalledAll(EMPTY_LINK, calls), e) <==> LinkAsked(calls, e)
  {
    hide LinkCalledAll, LinkHas, LinkHoldsOnly, SameLinkEdge, LinkAsksFor, LastLinkAsk, LinkAsked;
    var v := LinkCalledAll(EMPTY_LINK, calls);
    LinkCallsComeTo(EMPTY_LINK, calls);
    LinkSameIsAbsent(v, e);
    if LinkAsked(calls, e) {
      var i := SomeLastLink(calls, e);
      LinkHeldIsThere(v, e, calls[i]);
    }
  }

  /** The plan asks for the edges of the links that the query has builders for. */
  ghost predicate LinkPlanFits(v: LinkView, plan: AccountGroupPlan) {
    plan.withAccount.Some? == v.account.Some? && plan.withGroup.Some? == v.group.Some?
  }

  lemma LinkRunRequests(db: Database, v: LinkView, accounts: seq<int>)
    ensures RunLinks(db, v, accounts).1.Ran? ==> LinkPlanFits(v, RunLinks(db, v, accounts).1.plan)
  {
    hide PlannedLinks, RunAccounts, LoadedAccounts, Answers, Stepped, DistinctKeys;
  }

  lemma UnloadedParts(v: AccountView, rows: seq<Row>)
    ensures Unloaded(v, rows).rows == rows
    ensures Unloaded(v, rows).withAccountGroups.Some? == v.links.Some?
  {
  }

  /** The last step of a run that ends well leaves the plan of its account-group query. */
  lemma LinksStepRequests(db: Database, p: Progress)
    requires p.error.None? && p.view.links.Some?
    ensures
      var r := LinksStep(db, p);
      r.error.None? ==>
        r.plan.withAccountGroups.Some? && LinkPlanFits(p.view.links.value, r.plan.withAccountGroups.value)
  {
    hide RunLinks, LinkPlanFits, AccountGroupsRequested, RowIDs;
    LinkRunRequests(db, p.view.links.value, RowIDs(p.plan.rows));
  }

  /** A run that has nodes requests the edges of their links that the account-group query has. */
  lemma RunLinkRequests(db: Database, v: AccountView)
    requires v.links.Some?
    ensures
      var result := RunAccounts(db, v).1;
      result.Ran? && result.plan.rows != [] ==>
        result.plan.withAccountGroups.Some? && LinkPlanFits(v.links.value, result.plan.withAccountGroups.value)
  {
    hide FirstEdges, LinksStep, SpecOf, Readable, InvalidField, Stepped, LinkPlanFits, Unloaded;
    var w := Prepared(db, v);
    match db.accounts(SpecOf(w)) {
      case None =>
      case Some(rows) =>
        UnloadedParts(w, rows);
        var p := FirstEdges(db, Progress(w, Unloaded(w, rows), None));
        if p.error.None? {
          LinksStepRequests(db, p);
        }
    }
  }

  lemma LinkLoaded(nodes: seq<Account>, plan: AccountPlan, json: JsonCodec, k: int, l: int)
    requires Eager(nodes, plan, json) && 0 <= k < |nodes| && 0 <= l < |nodes[k].accountGroups|
    ensures plan.withAccountGroups.Some?
    ensures nodes[k].accountGroups[l].AccountOrErr().NotLoaded? <==> plan.withAccountGroups.value.withAccount.None?
    ensures nodes[k].accountGroups[l].GroupOrErr().NotLoaded? <==> plan.withAccountGroups.value.withGroup.None?
  {
    hide ReadableRow, DecodeRow, ToOneEdge, GroupsOf, UsageLogsOf, LinksOf, PlannedLinks, LinkedAccount, LinkedGroup,
      RowIDs, Requests;
    assert OwnLinks(nodes, k);
    assert Shown(nodes[k]) == NodeOf(plan, json, k) by { hide Shown, NodeOf; }
    assert ShownLinks(nodes[k].accountGroups)[l] == ShownLink(nodes[k].accountGroups[l]);
  }

  /** The calls that came with the last WithAccountGroups call. */
  ghost predicate LastLinks(calls: seq<AccountCall>, links: seq<LinkCall>) {
    exists i :: LastAsk(calls, AccountGroupsEdge, i) && calls[i] == WithAccountGroups(links)
  }

  lemma LinkRequestsAreCalls(db: Database, calls: seq<AccountCall>, links: seq<LinkCall>, plan: AccountPlan)
    requires RunsTo(db, calls, plan) && LastLinks(calls, links) && plan.rows != []
    ensures plan.withAccountGroups.Some?
    ensures plan.withAccountGroups.value.withAccount.None? <==> !LinkAsked(links, AccountEdge)
    ensures plan.withAccountGroups.value.withGroup.None? <==> !LinkAsked(links, GroupEdge)
  {
    hide CalledAll, LinkCalledAll, RunAccounts, LinkAsked, SameEdge, Asked;
    var v := CalledAll(EMPTY_ACCOUNT, calls);
    var i :| LastAsk(calls, AccountGroupsEdge, i) && calls[i] == WithAccountGroups(links);
    CallsComeTo(EMPTY_ACCOUNT, calls);
    assert HoldsOnly(v, AccountGroupsEdge, calls[i]);
    LinkPresentIff(links, AccountEdge);
    LinkPresentIff(links, GroupEdge);
    RunLinkRequests(db, v);
  }

  /**
   The same below: the accessors of a node's account_groups rows answer `not loaded` for exactly
   the edges whose With calls did not come with the last WithAccountGroups call.
   */
  lemma LinksLoadedExactly(
    db: Database, calls: seq<AccountCall>, links: seq<LinkCall>, plan: AccountPlan, nodes: seq<Account>, k: int,
    l: int)
    requires RunsTo(db, calls, plan) && LastLinks(calls, links)
    requires Eager(nodes, plan, db.json) && 0 <= k < |nodes| && 0 <= l < |nodes[k].accountGroups|
    ensures nodes[k].accountGroups[l].AccountOrErr().NotLoaded? <==> !LinkAsked(links, AccountEdge)
    ensures nodes[k].accountGroups[l].GroupOrErr().NotLoaded? <==> !LinkAsked(links, GroupEdge)
  {
    hide RunsTo, LinkAsked, LastLinks, Readable, Shown, NodeOf;
    assert plan.rows != [];
    LinkLoaded(nodes, plan, db.json, k, l);
    LinkRequestsAreCalls(db, calls, links, plan);
  }
}
