/**
 Which edges a later run of a builder loads. The edge query of a run is the one that the
 caller configured, with the predicates of every earlier run and its own; over tables, an
 edge is loaded exactly for the ids that all of them ask for.
 */
module LaterEdges {
  import opened Common
  import opened RowCodec
  import opened Entities
  import opened Projection
  import opened ToOneLoading
  import opened ToManyLoading
  import opened AccountLoading
  import opened EdgeTheorems
  import opened QueryBuilder
  import opened QuerySpecs
  import opened EagerRuns
  import opened QueryRuns
  import opened NarrowedEdges

  // ---------- the edge queries of a successful run ----------

  /** A to-one edge holds what its query returned: nothing, without a query, when no key is set. */
  ghost predicate RanKeyed(
    answer: Option<seq<NodeRow>>, query: Option<IDQuery>, asked: seq<Predicate>, keys: seq<Option<int>>)
  {
    && query.Some? && asked == (if DistinctKeys(keys) == [] then [] else [IDIn(DistinctKeys(keys))])
    && (DistinctKeys(keys) != [] ==> answer == Some(ReturnedRows(keys, query.value)))
  }

  lemma ProxiesRan(db: Database, p: Progress)
    requires p.error.None? && ProxiesStep(db, p).error.None? && PlanFits(p.view, p.plan) && p.view.proxy.Some?
    ensures
      var p', keys := ProxiesStep(db, p), RowKeys(p.plan.rows, ProxyID);
      && p'.view.proxy.Some?
      && RanKeyed(
           db.proxies(p'.view.proxy.value), p'.plan.withProxy,
           if DistinctKeys(keys) == [] then [] else [IDIn(DistinctKeys(keys))], keys)
  {
    hide ToOneAnswered, DistinctKeys, RowKeys;
  }

  lemma OwnersRan(db: Database, p: Progress)
    requires p.error.None? && OwnersStep(db, p).error.None? && PlanFits(p.view, p.plan) && p.view.owner.Some?
    ensures
      var p', keys := OwnersStep(db, p), RowKeys(p.plan.rows, OwnerUserID);
      && p'.view.owner.Some?
      && RanKeyed(
           db.owners(p'.view.owner.value), p'.plan.withOwner,
           if DistinctKeys(keys) == [] then [] else [IDIn(DistinctKeys(keys))], keys)
  {
    hide ToOneAnswered, DistinctKeys, RowKeys;
  }

  lemma GroupsRan(db: Database, p: Progress)
    requires p.error.None? && GroupsStep(db, p).error.None? && PlanFits(p.view, p.plan) && p.view.groups.Some?
    ensures
      var p', ids := GroupsStep(db, p), RowIDs(p.plan.rows);
      && p'.view.groups.Some? && p'.plan.withGroups.Some?
      && db.groups(p'.view.groups.value) == Some(p'.plan.withGroups.value(ids))
      && CanScan(p'.view.groups.value, p'.plan.withGroups.value(ids))
  {
    hide RowIDs, GroupsRequested, CanScan;
  }

  lemma UsageLogsRan(db: Database, p: Progress)
    requires p.error.None? && UsageLogsStep(db, p).error.None? && PlanFits(p.view, p.plan) && p.view.usageLogs.Some?
    ensures
      var p', ids := UsageLogsStep(db, p), RowIDs(p.plan.rows);
      && p'.view.usageLogs.Some? && p'.plan.withUsageLogs.Some?
      && db.usageLogs(p'.view.usageLogs.value) == Some(p'.plan.withUsageLogs.value.run(ids))
  {
    hide RowIDs, UsageLogsRequested;
  }

  lemma LinkRunRows(db: Database, v: LinkView, ids: seq<int>)
    requires RunLinks(db, v, ids).1.Ran?
    ensures db.links(RunLinks(db, v, ids).0.base) == Some(RunLinks(db, v, ids).1.plan.run(ids))
  {
    hide RunAccounts, DistinctKeys, Answers, PlannedLinks, LinkAccountKeys, LinkGroupKeys, LoadedAccounts;
  }

  lemma LinksRan(db: Database, p: Progress)
    requires p.error.None? && LinksStep(db, p).error.None? && PlanFits(p.view, p.plan) && p.view.links.Some?
    ensures
      var p', ids := LinksStep(db, p), RowIDs(p.plan.rows);
      && p'.view.links.Some? && p'.plan.withAccountGroups.Some?
      && db.links(p'.view.links.value.base) == Some(p'.plan.withAccountGroups.value.run(ids))
  {
    hide RowIDs, AccountGroupsRequested, RunLinks;
    LinkRunRows(db, p.view.links.value, RowIDs(p.plan.rows));
  }

  /** The rows of each requested edge are those that its query, as the run leaves it, returned. */
  ghost predicate RanEdges(db: Database, v: AccountView, after: AccountView, plan: AccountPlan) {
    && PlanFits(v, plan)
    && after.groups.Some? == v.groups.Some? && after.proxy.Some? == v.proxy.Some?
    && after.owner.Some? == v.owner.Some? && after.usageLogs.Some? == v.usageLogs.Some?
    && after.links.Some? == v.links.Some?
    && (v.groups.Some? ==>
          && db.groups(after.groups.value) == Some(plan.withGroups.value(RowIDs(plan.rows)))
          && CanScan(after.groups.value, plan.withGroups.value(RowIDs(plan.rows))))
    && (v.proxy.Some? ==>
          RanKeyed(db.proxies(after.proxy.value), plan.withProxy, ProxyAsk(db, v), RowKeys(plan.rows, ProxyID)))
    && (v.owner.Some? ==>
          RanKeyed(db.owners(after.owner.value), plan.withOwner, OwnerAsk(db, v), RowKeys(plan.rows, OwnerUserID)))
    && (v.usageLogs.Some? ==>
          db.usageLogs(after.usageLogs.value) == Some(plan.withUsageLogs.value.run(RowIDs(plan.rows))))
    && (v.links.Some? ==>
          db.links(after.links.value.base) == Some(plan.withAccountGroups.value.run(RowIDs(plan.rows))))
  }

  lemma StartIfRows(db: Database, v: AccountView)
    requires RunAccounts(db, v).1.Ran? && RunAccounts(db, v).1.plan.rows != []
    ensures Start(db, v).Some?
  {
    hide InvalidField, SpecOf, Readable, LinksStep, FirstEdges;
  }

  /** A successful run over some rows goes through every step without an error. */
  lemma RanSteps(db: Database, v: AccountView) returns (p: Progress)
    requires RunAccounts(db, v).1.Ran? && RunAccounts(db, v).1.plan.rows != []
    ensures Start(db, v) == Some(p) && p.view == v.(base := p.view.base) && p.error.None?
    ensures PlanFits(v, p.plan) && PlanFits(p.view, p.plan)
    ensures FirstEdges(db, p) == UsageLogsStep(db, OwnersStep(db, ProxiesStep(db, GroupsStep(db, p))))
    ensures
      var q := LinksStep(db, FirstEdges(db, p));
      q.error.None? && RunAccounts(db, v) == (q.view, Ran(q.plan)) && p.plan.rows == q.plan.rows
  {
    hide *;
    StartIfRows(db, v);
    p := Start(db, v).value;
    StartFits(db, v);
    RunUnfolds(db, v, p);
  }

  lemma RunAnswered(db: Database, v: AccountView)
    requires RunAccounts(db, v).1.Ran? && RunAccounts(db, v).1.plan.rows != []
    ensures RanEdges(db, v, RunAccounts(db, v).0, RunAccounts(db, v).1.plan)
  {
    hide InvalidField, SpecOf, Readable, RowKeys, RowIDs, DistinctKeys, GroupsStep, ProxiesStep, OwnersStep,
      UsageLogsStep, LinksStep, Unloaded, FirstEdges, RunAccounts, RanKeyed, CanScan;
    var p := RanSteps(db, v);
    var p1 := GroupsStep(db, p);
    var p2 := ProxiesStep(db, p1);
    var p3 := OwnersStep(db, p2);
    var p4 := UsageLogsStep(db, p3);
    GroupsStepKeeps(db, p);
    ProxiesStepKeeps(db, p1);
    OwnersStepKeeps(db, p2);
    UsageLogsStepKeeps(db, p3);
    LinksStepKeeps(db, p4);
    if v.groups.Some? { GroupsRan(db, p); }
    if v.proxy.Some? { ProxiesRan(db, p1); }
    if v.owner.Some? { OwnersRan(db, p2); }
    if v.usageLogs.Some? { UsageLogsRan(db, p3); }
    if v.links.Some? { LinksRan(db, p4); }
    assert p.error.None? && p1.error.None? && p2.error.None? && p3.error.None? && p4.error.None?;
  }

  // ---------- the edge queries of a later call ----------

  /** What All, First or Only gets when it is called after some other calls. */
  ghost function Later(db: Database, v: AccountView, calls: seq<Read>, r: Read): Result<AccountPlan> {
    RunAccounts(db, Limited(After(db, v, calls), r)).1
  }

  lemma LaterIsRun(db: Database, v: AccountView, calls: seq<Read>, r: Read)
    ensures Later(db, v, calls, r) == RunAccounts(db, Limited(After(db, v, calls), r)).1
    ensures !r.SetTo? ==> After(db, v, calls + [r]) == RunAccounts(db, Limited(After(db, v, calls), r)).0
  {
    assert (calls + [r])[|calls|] == r && (calls + [r])[..|calls|] == calls;
    hide RunAccounts, SeenResult;
  }

  /**
   Without any assumption on the database: the edge queries of a later call are those that the
   caller configured, with the predicates of every call up to this one, and what they returned
   is what the nodes show.
   */
  lemma LaterQueries(db: Database, v: AccountView, calls: seq<Read>, r: Read)
    requires !r.SetTo? && Later(db, v, calls, r).Ran? && Later(db, v, calls, r).plan.rows != []
    ensures
      var w := Limited(After(db, v, calls), r);
      var after := RunAccounts(db, w).0;
      && RanEdges(db, w, after, Later(db, v, calls, r).plan)
      && Narrowed(db, v, calls + [r], after) && NarrowedLinks(db, v, calls + [r], after)
      && Readable(Later(db, v, calls, r).plan, db.json)
  {
    hide *;
    var w := Limited(After(db, v, calls), r);
    LaterIsRun(db, v, calls, r);
    RunAnswered(db, w);
    RunKeepsMain(db, w);
    AfterIsNarrowed(db, v, calls + [r]);
    LinksAreNarrowed(db, v, calls + [r]);
  }

  lemma LaterAsks(db: Database, v: AccountView, calls: seq<Read>, r: Read)
    requires !r.SetTo?
    ensures
      var w := Limited(After(db, v, calls), r);
      && GroupsAsks(db, v, calls + [r]) == GroupsAsks(db, v, calls) + GroupsAsk(db, w)
      && ProxyAsks(db, v, calls + [r]) == ProxyAsks(db, v, calls) + ProxyAsk(db, w)
      && OwnerAsks(db, v, calls + [r]) == OwnerAsks(db, v, calls) + OwnerAsk(db, w)
      && UsageLogsAsks(db, v, calls + [r]) == UsageLogsAsks(db, v, calls) + UsageLogsAsk(db, w)
      && LinksAsks(db, v, calls + [r]) == LinksAsks(db, v, calls) + LinksAsk(db, w)
      && LinkAccountAsks(db, v, calls + [r]) == LinkAccountAsks(db, v, calls) + LinkAccountAsk(db, w)
      && LinkGroupAsks(db, v, calls + [r]) == LinkGroupAsks(db, v, calls) + LinkGroupAsk(db, w)
  {
    hide *;
    assert (calls + [r])[|calls|] == r && (calls + [r])[..|calls + [r]| - 1] == calls;
    AsksStep(db, v, calls, r, calls + [r]);
  }

  // ---------- edges over tables ----------

  /** The query has no limit or offset of its own. */
  predicate Whole<C>(b: Base<C>) {
    b.ctx.limit.None? && b.ctx.offset.None?
  }

  ghost predicate FiltersBy<C, T(!new)>(
    query: Base<C> -> Option<seq<T>>, meets: (T, Predicate) -> bool, b: Base<C>, p: Predicate)
    requires query(b).Some?
  {
    query(Plus(b, [p])).Some? && forall r :: r in query(Plus(b, [p])).value <==> r in query(b).value && meets(r, p)
  }

  /** A query over a table: adding a predicate of one kind leaves exactly the rows that meet it. */
  ghost predicate Filters<C(!new), T(!new)>(
    query: Base<C> -> Option<seq<T>>, kind: Predicate -> bool, meets: (T, Predicate) -> bool)
  {
    forall b: Base<C>, p: Predicate :: kind(p) && Whole(b) && query(b).Some? ==> FiltersBy(query, meets, b, p)
  }

  /** With several added, it leaves the rows that meet them all. */
  lemma {:induction false} FiltersAll<C(!new), T(!new)>(
    query: Base<C> -> Option<seq<T>>, kind: Predicate -> bool, meets: (T, Predicate) -> bool,
    b: Base<C>, ps: seq<Predicate>)
    requires Filters(query, kind, meets) && Whole(b) && query(b).Some? && forall p :: p in ps ==> kind(p)
    ensures query(Plus(b, ps)).Some?
    ensures forall r :: r in query(Plus(b, ps)).value <==> r in query(b).value && forall p :: p in ps ==> meets(r, p)
  {
    if ps == [] {
      assert b.predicates + ps == b.predicates;
    } else {
      var n := |ps| - 1;
      var init, last := ps[..n], ps[n];
      assert ps == init + [last];
      FiltersAll(query, kind, meets, b, init);
      assert Plus(Plus(b, init), [last]) == Plus(b, ps) by {
        assert (b.predicates + init) + [last] == b.predicates + ps;
      }
      assert FiltersBy(query, meets, Plus(b, init), last);
      hide Plus;
    }
  }

  predicate OnID(p: Predicate) {
    p.IDIn?
  }

  predicate OnKey(p: Predicate) {
    p.KeyIn?
  }

  predicate MeetsID(r: NodeRow, p: Predicate) {
    p.Custom? || r.id in p.ids
  }

  predicate MeetsLogKey(r: LogRow, p: Predicate) {
    p.Custom? || r.accountID in p.ids
  }

  predicate MeetsLinkKey(r: LinkRow, p: Predicate) {
    p.Custom? || r.accountID in p.ids
  }

  /** All the predicates ask for the id. */
  ghost predicate AskedIn(ps: seq<Predicate>, id: int) {
    forall p :: p in ps ==> p.Custom? || id in p.ids
  }

  // ---------- to-one edges ----------

  /**
   A requested to-one edge is loaded exactly when the key is set, every earlier run asked for
   it too, and the query that the caller configured returns a row with it.
   */
  ghost predicate LoadedIff(e: EdgeResult<NodeRow>, key: Option<int>, earlier: seq<Predicate>, all: seq<NodeRow>) {
    && !e.NotLoaded?
    && (e.Value? <==> key.Some? && AskedIn(earlier, key.value) && exists n :: n in all && n.id == key.value)
    && (e.Value? ==> e.value in all && key == Some(e.value.id))
  }

  /** The rows of a narrowed query. */
  ghost predicate Narrows(rows: seq<NodeRow>, all: seq<NodeRow>, asked: seq<Predicate>) {
    forall n :: n in rows <==> n in all && AskedIn(asked, n.id)
  }

  lemma NarrowedRows(
    query: Base<string> -> Option<seq<NodeRow>>, b: Base<string>, asked: seq<Predicate>)
    requires Filters(query, OnID, MeetsID) && Whole(b) && query(b).Some? && forall p :: p in asked ==> OnID(p)
    ensures query(Plus(b, asked)).Some? && Narrows(query(Plus(b, asked)).value, query(b).value, asked)
  {
    FiltersAll(query, OnID, MeetsID, b, asked);
  }

  lemma LoadedToOne(
    all: seq<NodeRow>, earlier: seq<Predicate>, answer: Option<seq<NodeRow>>, own: seq<Predicate>,
    query: Option<IDQuery>, rows: seq<Row>, c: Column, i: int)
    requires 0 <= i < |rows| && RanKeyed(answer, query, own, RowKeys(rows, c))
    requires answer.Some? && Narrows(answer.value, all, earlier + own)
    ensures LoadedIff(ToOneEdge(query, rows, c, i), RowKey(rows[i], c), earlier, all)
  {
    var keys := RowKeys(rows, c);
    var ids := DistinctKeys(keys);
    DistinctKeysContents(keys, ids);
    ToOneOutcome(query, rows, c, i);
    hide RowKeys, DistinctKeys, ToOneEdge, RowKey;
    var key := keys[i];
    if key.Some? {
      assert key in keys && key.value in ids;
      assert own == [IDIn(ids)];
      assert AskedIn(earlier + own, key.value) <==> AskedIn(earlier, key.value);
    }
  }

  /** Every proxy and owner query is one over a table. */
  ghost predicate ToOneTables(db: Database) {
    Filters(db.proxies, OnID, MeetsID) && Filters(db.owners, OnID, MeetsID)
  }

  lemma ToOneAsksOnID(db: Database, v: AccountView, calls: seq<Read>)
    ensures forall p :: p in ProxyAsks(db, v, calls) ==> OnID(p)
    ensures forall p :: p in OwnerAsks(db, v, calls) ==> OnID(p)
  {
    hide Start, GroupsStep, ProxiesStep, DistinctKeys, RowKeys, Asks;
    AsksOfOneKind(db, v, calls, ProxyAsk, OnID, ProxyAsks(db, v, calls));
    AsksOfOneKind(db, v, calls, OwnerAsk, OnID, OwnerAsks(db, v, calls));
  }

  /** The proxy edge of a later call. */
  lemma LaterProxy(db: Database, v: AccountView, calls: seq<Read>, r: Read, i: int)
    requires ToOneTables(db) && v.proxy.Some? && Whole(v.proxy.value) && db.proxies(v.proxy.value).Some?
    requires !r.SetTo? && Later(db, v, calls, r).Ran? && 0 <= i < |Later(db, v, calls, r).plan.rows|
    ensures
      var plan := Later(db, v, calls, r).plan;
      && ReadableRow(plan, plan.rows[i], db.json)
      && LoadedIff(
           NodeOf(plan, db.json, i).proxy, RowKey(plan.rows[i], ProxyID), ProxyAsks(db, v, calls),
           db.proxies(v.proxy.value).value)
  {
    hide Later, After, Limited, RunAccounts, ProxyAsks, ProxyAsk, ReadableRow, Plus, LoadedIff, RanKeyed, Narrows,
      Filters, ToOneEdge, RowKeys, RowKey, DecodeRow, GroupsOf, UsageLogsOf, AccountGroupsOf, OnID;
    var plan, b := Later(db, v, calls, r).plan, v.proxy.value;
    var w, asked := Limited(After(db, v, calls), r), ProxyAsks(db, v, calls + [r]);
    LaterQueries(db, v, calls, r);
    LaterAsks(db, v, calls, r);
    ToOneAsksOnID(db, v, calls + [r]);
    NarrowedRows(db.proxies, b, asked);
    LoadedToOne(
      db.proxies(b).value, ProxyAsks(db, v, calls), db.proxies(Plus(b, asked)), ProxyAsk(db, w), plan.withProxy,
      plan.rows, ProxyID, i);
  }

  /** The owner edge of a later call. */
  lemma LaterOwner(db: Database, v: AccountView, calls: seq<Read>, r: Read, i: int)
    requires ToOneTables(db) && v.owner.Some? && Whole(v.owner.value) && db.owners(v.owner.value).Some?
    requires !r.SetTo? && Later(db, v, calls, r).Ran? && 0 <= i < |Later(db, v, calls, r).plan.rows|
    ensures
      var plan := Later(db, v, calls, r).plan;
      && ReadableRow(plan, plan.rows[i], db.json)
      && LoadedIff(
           NodeOf(plan, db.json, i).owner, RowKey(plan.rows[i], OwnerUserID), OwnerAsks(db, v, calls),
           db.owners(v.owner.value).value)
  {
    hide Later, After, Limited, RunAccounts, OwnerAsks, OwnerAsk, ReadableRow, Plus, LoadedIff, RanKeyed, Narrows,
      Filters, ToOneEdge, RowKeys, RowKey, DecodeRow, GroupsOf, UsageLogsOf, AccountGroupsOf, OnID;
    var plan, b := Later(db, v, calls, r).plan, v.owner.value;
    var w, asked := Limited(After(db, v, calls), r), OwnerAsks(db, v, calls + [r]);
    LaterQueries(db, v, calls, r);
    LaterAsks(db, v, calls, r);
    ToOneAsksOnID(db, v, calls + [r]);
    NarrowedRows(db.owners, b, asked);
    LoadedToOne(
      db.owners(b).value, OwnerAsks(db, v, calls), db.owners(Plus(b, asked)), OwnerAsk(db, w), plan.withOwner,
      plan.rows, OwnerUserID, i);
  }

  // ---------- to-many edges ----------

  ghost predicate AnyFields<C(!new), T(!new)>(query: Base<C> -> Option<seq<T>>) {
    forall b: Base<C>, fields: seq<C> :: query(b.(ctx := b.ctx.(fields := fields))) == query(b)
  }

  /** Usage-log and link queries are over tables, whose rows do not depend on the selected fields. */
  ghost predicate ToManyTables(db: Database) {
    && Filters(db.usageLogs, OnKey, MeetsLogKey) && Filters(db.links, OnKey, MeetsLinkKey)
    && AnyFields(db.usageLogs) && AnyFields(db.links)
  }

  lemma AnyFieldsKeyed<C(!new), T(!new)>(query: Base<C> -> Option<seq<T>>, b: Base<C>, key: C, ps: seq<Predicate>)
    requires AnyFields(query)
    ensures query(PlusKeyed(b, key, ps)) == query(Plus(b, ps))
  {
    hide WithKey;
  }

  lemma ToManyAsksOnKey(db: Database, v: AccountView, calls: seq<Read>)
    ensures forall p :: p in UsageLogsAsks(db, v, calls) ==> OnKey(p)
    ensures forall p :: p in LinksAsks(db, v, calls) ==> OnKey(p)
  {
    hide Start, GroupsStep, ProxiesStep, OwnersStep, FirstEdges, RowIDs, Asks;
    AsksOfOneKind(db, v, calls, UsageLogsAsk, OnKey, UsageLogsAsks(db, v, calls));
    AsksOfOneKind(db, v, calls, LinksAsk, OnKey, LinksAsks(db, v, calls));
  }

  /** A successful run asked its to-many edges for the accounts it returns. */
  lemma OwnAsks(db: Database, v: AccountView)
    requires RunAccounts(db, v).1.Ran? && RunAccounts(db, v).1.plan.rows != []
    ensures v.usageLogs.Some? ==> UsageLogsAsk(db, v) == [KeyIn(RowIDs(RunAccounts(db, v).1.plan.rows))]
    ensures v.links.Some? ==> LinksAsk(db, v) == [KeyIn(RowIDs(RunAccounts(db, v).1.plan.rows))]
  {
    hide InvalidField, SpecOf, Readable, RowKeys, RowIDs, DistinctKeys, GroupsStep, ProxiesStep, OwnersStep,
      UsageLogsStep, LinksStep, Unloaded, FirstEdges, RunAccounts;
    var p := RanSteps(db, v);
  }

  /** The logs of an account that a narrowed query leaves. */
  lemma LogsLeft(db: Database, b: Base<LogColumn>, earlier: seq<Predicate>, ids: seq<int>, log: LogRow)
    requires ToManyTables(db) && Whole(b) && db.usageLogs(b).Some? && log.accountID in ids
    requires forall p :: p in earlier + [KeyIn(ids)] ==> OnKey(p)
    ensures
      var rows := db.usageLogs(PlusKeyed(b, LogAccountID, earlier + [KeyIn(ids)]));
      rows.Some? && (log in rows.value <==> log in db.usageLogs(b).value && AskedIn(earlier, log.accountID))
  {
    hide Filters, AnyFields, Plus, PlusKeyed, Whole;
    var asked := earlier + [KeyIn(ids)];
    AnyFieldsKeyed(db.usageLogs, b, LogAccountID, asked);
    FiltersAll(db.usageLogs, OnKey, MeetsLogKey, b, asked);
    assert forall p :: p in asked <==> p in earlier || p == KeyIn(ids);
  }

  /** The links of an account that a narrowed query leaves. */
  lemma LinksLeft(db: Database, b: Base<LinkColumn>, earlier: seq<Predicate>, ids: seq<int>, account: int)
    requires ToManyTables(db) && Whole(b) && db.links(b).Some? && account in ids
    requires forall p :: p in earlier + [KeyIn(ids)] ==> OnKey(p)
    ensures
      var rows := db.links(PlusKeyed(b, LinkAccountID, earlier + [KeyIn(ids)]));
      && rows.Some?
      && forall l: LinkRow :: l.accountID == account ==>
        (l in rows.value <==> l in db.links(b).value && AskedIn(earlier, account))
  {
    hide Filters, AnyFields, Plus, PlusKeyed, Whole;
    var asked := earlier + [KeyIn(ids)];
    AnyFieldsKeyed(db.links, b, LinkAccountID, asked);
    FiltersAll(db.links, OnKey, MeetsLinkKey, b, asked);
    assert forall p :: p in asked <==> p in earlier || p == KeyIn(ids);
  }

  /** The queries of the to-many edges of a later call. */
  lemma LaterKeyed(db: Database, v: AccountView, calls: seq<Read>, r: Read)
    requires !r.SetTo? && Later(db, v, calls, r).Ran? && Later(db, v, calls, r).plan.rows != []
    ensures
      var plan, ids := Later(db, v, calls, r).plan, RowIDs(Later(db, v, calls, r).plan.rows);
      var logs, links := UsageLogsAsks(db, v, calls) + [KeyIn(ids)], LinksAsks(db, v, calls) + [KeyIn(ids)];
      && Readable(plan, db.json)
      && plan.withUsageLogs.Some? == v.usageLogs.Some? && plan.withAccountGroups.Some? == v.links.Some?
      && (v.usageLogs.Some? ==>
            && (forall p :: p in logs ==> OnKey(p))
            && db.usageLogs(PlusKeyed(v.usageLogs.value, LogAccountID, logs)) ==
               Some(plan.withUsageLogs.value.run(ids)))
      && (v.links.Some? ==>
            && (forall p :: p in links ==> OnKey(p))
            && db.links(PlusKeyed(v.links.value.base, LinkAccountID, links)) ==
               Some(plan.withAccountGroups.value.run(ids)))
  {
    hide Later, After, Limited, RunAccounts, UsageLogsAsks, UsageLogsAsk, LinksAsks, LinksAsk, Readable, PlusKeyed,
      CanScan, LinkAdded, RanKeyed, RowIDs, OnKey, GroupsAsks, ProxyAsks, OwnerAsks, GroupsAsk, ProxyAsk, OwnerAsk,
      RowKeys;
    LaterIsRun(db, v, calls, r);
    LaterQueries(db, v, calls, r);
    LaterAsks(db, v, calls, r);
    OwnAsks(db, Limited(After(db, v, calls), r));
    ToManyAsksOnKey(db, v, calls + [r]);
  }

  /**
   The usage logs of a later call: an account shows exactly the logs of the configured query
   that are its own, if every earlier run asked for it too, and none otherwise.
   */
  lemma LaterUsageLogs(db: Database, v: AccountView, calls: seq<Read>, r: Read, i: int, log: LogRow)
    requires ToManyTables(db)
    requires v.usageLogs.Some? && Whole(v.usageLogs.value) && db.usageLogs(v.usageLogs.value).Some?
    requires !r.SetTo? && Later(db, v, calls, r).Ran? && 0 <= i < |Later(db, v, calls, r).plan.rows|
    requires LastAt(RowIDs(Later(db, v, calls, r).plan.rows), i)
    ensures
      var plan := Later(db, v, calls, r).plan;
      var account := RowID(plan.rows[i]);
      && ReadableRow(plan, plan.rows[i], db.json)
      && (log in NodeOf(plan, db.json, i).usageLogs <==>
          log in db.usageLogs(v.usageLogs.value).value && log.accountID == account
          && AskedIn(UsageLogsAsks(db, v, calls), account))
  {
    hide Later, UsageLogsAsks, LinksAsks, ReadableRow, PlusKeyed, LogsOf, RowID, RowIDs, DecodeRow, GroupsOf,
      ToOneEdge, AccountGroupsOf, OnKey, Whole, ToManyTables, AskedIn;
    var plan, ids := Later(db, v, calls, r).plan, RowIDs(Later(db, v, calls, r).plan.rows);
    LaterKeyed(db, v, calls, r);
    LogsOfContents(plan.withUsageLogs.value.run(ids), ids[i]);
    if log.accountID == ids[i] {
      assert ids[i] in ids;
      LogsLeft(db, v.usageLogs.value, UsageLogsAsks(db, v, calls), ids, log);
    }
  }

  /** The rows that a node's account_groups edge shows. */
  ghost function LinkRowsShown(node: NodeShown): set<LinkRow> {
    set l | l in node.accountGroups :: l.row
  }

  /** The rows shown are the account's own. */
  lemma LinksShown(plan: AccountPlan, i: int, json: JsonCodec, rows: seq<LinkRow>, link: LinkRow)
    requires 0 <= i < |plan.rows| && ReadableRow(plan, plan.rows[i], json) && LastAt(RowIDs(plan.rows), i)
    requires plan.withAccountGroups.Some? && plan.withAccountGroups.value.run(RowIDs(plan.rows)) == rows
    ensures
      link in LinkRowsShown(NodeOf(plan, json, i)) <==>
      exists l :: l in rows && l.accountID == RowID(plan.rows[i])
                  && link == ScanLink(l, true, GroupColumn(plan.withAccountGroups.value))
  {
    hide RowIDs, RowID, GroupColumn, DecodeRow, GroupsOf, ToOneEdge, UsageLogsOf, LinksOf, LinkedAccount, LinkedGroup;
    var p, ids, account := plan.withAccountGroups.value, RowIDs(plan.rows), RowID(plan.rows[i]);
    var scanned := PlannedLinks(p, ids);
    var own := LinksOf(scanned, account);
    LinksOfContents(scanned, account);
    var shown := LinksFor(p, ids, own);
    assert NodeOf(plan, json, i).accountGroups == shown;
    if link in own {
      var k :| 0 <= k < |own| && own[k] == link;
      assert shown[k] in shown && shown[k].row == link;
      var j :| 0 <= j < |scanned| && scanned[j] == link;
      assert rows[j] in rows;
    }
    if l :| l in rows && l.accountID == account && link == ScanLink(l, true, GroupColumn(p)) {
      var j :| 0 <= j < |rows| && rows[j] == l;
      assert scanned[j] in scanned;
    }
  }

  /** The account groups of a later call, in the same way; an unselected group id is zero. */
  lemma LaterLinks(db: Database, v: AccountView, calls: seq<Read>, r: Read, i: int, link: LinkRow)
    requires ToManyTables(db)
    requires v.links.Some? && Whole(v.links.value.base) && db.links(v.links.value.base).Some?
    requires !r.SetTo? && Later(db, v, calls, r).Ran? && 0 <= i < |Later(db, v, calls, r).plan.rows|
    requires LastAt(RowIDs(Later(db, v, calls, r).plan.rows), i)
    ensures
      var plan := Later(db, v, calls, r).plan;
      var account := RowID(plan.rows[i]);
      && ReadableRow(plan, plan.rows[i], db.json) && plan.withAccountGroups.Some?
      && (link in LinkRowsShown(NodeOf(plan, db.json, i)) <==>
          (exists l :: l in db.links(v.links.value.base).value && l.accountID == account
                       && link == ScanLink(l, true, GroupColumn(plan.withAccountGroups.value)))
          && AskedIn(LinksAsks(db, v, calls), account))
  {
    hide Later, UsageLogsAsks, LinksAsks, ReadableRow, PlusKeyed, GroupColumn, RowID, RowIDs, DecodeRow, GroupsOf,
      ToOneEdge, UsageLogsOf, AccountGroupsOf, OnKey, Whole, ToManyTables, AskedIn, LinkRowsShown, NodeOf, ScanLink;
    var plan, ids := Later(db, v, calls, r).plan, RowIDs(Later(db, v, calls, r).plan.rows);
    LaterKeyed(db, v, calls, r);
    assert ids[i] in ids;
    LinksLeft(db, v.links.value.base, LinksAsks(db, v, calls), ids, ids[i]);
    LinksShown(plan, i, db.json, plan.withAccountGroups.value.run(ids), link);
  }
}
