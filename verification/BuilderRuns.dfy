/**
 All of backend/ent/account_query.go and backend/ent/accountgroup_query.go on builders and
 nodes, proved to do what module EagerRuns says.
 */
module BuilderRuns {
  import opened Common
  import opened GroupJoin
  import opened RowCodec
  import opened Entities
  import opened Projection
  import opened EagerLoading
  import opened ToOneLoading
  import opened ToManyLoading
  import opened AccountLoading
  import opened QueryBuilder
  import opened QuerySpecs
  import opened GroupScan
  import opened EagerRuns

  // ---------- what a step needs ----------

  /** The nodes are no part of the builder tree. */
  ghost predicate Outside(nodes: seq<Account>, q: AccountQuery)
    reads q`Repr
  {
    forall i :: 0 <= i < |nodes| ==> nodes[i] !in q.Repr
  }

  lemma EdgeBuilders(q: AccountQuery)
    requires q.Valid()
    ensures
      var v := q.View();
      && (v.groups == if q.withGroups == null then None else Some(q.withGroups.View()))
      && (v.proxy == if q.withProxy == null then None else Some(q.withProxy.View()))
      && (v.owner == if q.withOwner == null then None else Some(q.withOwner.View()))
      && (v.usageLogs == if q.withUsageLogs == null then None else Some(q.withUsageLogs.View()))
      && v.base == q.base.View()
    ensures q.withGroups != null ==> q.withGroups in q.Repr && q.withGroups.ctx in q.Repr
    ensures q.withProxy != null ==> q.withProxy in q.Repr && q.withProxy.ctx in q.Repr
    ensures q.withOwner != null ==> q.withOwner in q.Repr && q.withOwner.ctx in q.Repr
    ensures q.withUsageLogs != null ==> q.withUsageLogs in q.Repr && q.withUsageLogs.ctx in q.Repr
  {
    hide AccountGroupQuery.Valid, AccountGroupQuery.View;
  }

  ghost predicate SameButGroups(plan: AccountPlan, plan': AccountPlan) {
    plan' == plan.(withGroups := plan'.withGroups) && plan'.withGroups.Some? == plan.withGroups.Some?
  }

  ghost predicate SameButProxies(plan: AccountPlan, plan': AccountPlan) {
    plan' == plan.(withProxy := plan'.withProxy) && plan'.withProxy.Some? == plan.withProxy.Some?
  }

  ghost predicate SameButOwners(plan: AccountPlan, plan': AccountPlan) {
    plan' == plan.(withOwner := plan'.withOwner) && plan'.withOwner.Some? == plan.withOwner.Some?
  }

  ghost predicate SameButUsageLogs(plan: AccountPlan, plan': AccountPlan) {
    plan' == plan.(withUsageLogs := plan'.withUsageLogs) && plan'.withUsageLogs.Some? == plan.withUsageLogs.Some?
  }

  ghost predicate SameButLinks(plan: AccountPlan, plan': AccountPlan) {
    && plan' == plan.(withAccountGroups := plan'.withAccountGroups)
    && plan'.withAccountGroups.Some? == plan.withAccountGroups.Some?
  }

  lemma SomeColumns(fields: seq<string>, ps: seq<Predicate>)
    ensures Selection(fields, ps) != []
  {
    SelectionShape(fields, ps);
  }

  // ---------- the five steps ----------

  /** The join query of loadGroups, and its callbacks over the rows. */
  method AskGroups(q: AccountQuery, ids: seq<int>, db: Database) returns (answer: Option<seq<JoinRow>>, ok: bool)
    requires q.Valid() && q.withGroups != null
    modifies q.withGroups, q.withGroups.ctx
    ensures q.Valid() && q.Repr == old(q.Repr) && old(q.View()).groups.Some?
    ensures
      var b := Stepped(old(q.View()).groups.value, Where(JoinedTo(ids)));
      && q.View() == old(q.View()).(groups := Some(b)) && answer == db.groups(b)
      && (ok <==> answer.Some? && CanScan(b, answer.value))
  {
    hide AccountQuery.Valid, AccountQuery.View, Stepped, Selection, Aligned;
    EdgeBuilders(q);
    q.StepGroups(Where(JoinedTo(ids)));
    EdgeBuilders(q);
    answer := db.groups(q.withGroups.View());
    if answer.None? {
      return answer, false;
    }
    var columns := SelectColumns(q.withGroups.ctx.fields, q.withGroups.predicates);
    SomeColumns(q.withGroups.ctx.fields, q.withGroups.predicates);
    ok := ScanJoin(columns, answer.value);
  }

  method RunGroups(q: AccountQuery, nodes: seq<Account>, plan: AccountPlan, db: Database)
    returns (plan': AccountPlan, error: Option<RunError>)
    requires q.Valid() && Outside(nodes, q) && PlanFits(q.View(), plan) && InOrder(nodes, plan)
    requires forall a :: a in nodes ==> a.groups == []
    modifies q.Repr, nodes`groups
    ensures q.Valid() && q.Repr == old(q.Repr) && PlanFits(q.View(), plan')
    ensures Progress(q.View(), plan', error) == GroupsStep(db, Progress(old(q.View()), plan, None))
    ensures plan'.rows == plan.rows && SameButGroups(plan, plan')
    ensures error.None? ==> HoldRequestedGroups(nodes, plan')
  {
    hide AccountQuery.Valid, AccountQuery.View, GroupsRequested, HoldRequestedGroups, IDs, RowIDs, NoDuplicates,
      Stepped, CanScan;
    EdgeBuilders(q);
    plan', error := plan, None;
    if q.withGroups != null {
      var ids, byID := IndexByID(nodes);
      var answer, ok := AskGroups(q, ids, db);
      if answer.None? {
        return plan, Some(QueryFailed);
      }
      if !ok {
        return plan, Some(Panicked(ShiftedColumns));
      }
      plan' := plan.(withGroups := Some(Answered(answer.value)));
    }
    ghost var v := q.View();
    var status := LoadRequestedGroups(nodes, plan');
    assert q.View() == v;
    error := if status.Loaded? then None else Some(Panicked(NilNode));
  }

  method RunProxy(q: AccountQuery, nodes: seq<Account>, plan: AccountPlan, db: Database)
    returns (plan': AccountPlan, error: Option<RunError>)
    requires q.Valid() && Outside(nodes, q) && PlanFits(q.View(), plan) && |nodes| == |plan.rows|
    requires plan.withProxy.Some? ==> ProxyKeys(nodes) == RowKeys(plan.rows, ProxyID)
    requires forall a :: a in nodes ==> a.proxy == null
    modifies q.Repr, nodes`proxy
    ensures q.Valid() && q.Repr == old(q.Repr) && PlanFits(q.View(), plan')
    ensures Progress(q.View(), plan', error) == ProxiesStep(db, Progress(old(q.View()), plan, None))
    ensures plan'.rows == plan.rows && SameButProxies(plan, plan')
    ensures error.None? ==> HoldProxies(nodes, plan')
  {
    hide AccountQuery.Valid, AccountQuery.View, ToOneAnswered, HoldProxies, ProxyKeys, RowKeys, DistinctKeys, Stepped;
    EdgeBuilders(q);
    plan', error := plan, None;
    if q.withProxy != null {
      var ids := DistinctKeys(ProxyKeys(nodes));
      if ids != [] {
        q.StepProxy(Where(IDIn(ids)));
        EdgeBuilders(q);
        var answer := db.proxies(q.withProxy.View());
        if answer.None? {
          return plan, Some(QueryFailed);
        }
        plan' := plan.(withProxy := Some(Answered(answer.value)));
      }
    }
    ghost var v := q.View();
    var status := LoadRequestedProxy(nodes, plan');
    assert q.View() == v;
    error := if status.Loaded? then None else Some(EdgeRefused);
  }

  method RunOwner(q: AccountQuery, nodes: seq<Account>, plan: AccountPlan, db: Database)
    returns (plan': AccountPlan, error: Option<RunError>)
    requires q.Valid() && Outside(nodes, q) && PlanFits(q.View(), plan) && |nodes| == |plan.rows|
    requires plan.withOwner.Some? ==> OwnerKeys(nodes) == RowKeys(plan.rows, OwnerUserID)
    requires forall a :: a in nodes ==> a.owner == null
    modifies q.Repr, nodes`owner
    ensures q.Valid() && q.Repr == old(q.Repr) && PlanFits(q.View(), plan')
    ensures Progress(q.View(), plan', error) == OwnersStep(db, Progress(old(q.View()), plan, None))
    ensures plan'.rows == plan.rows && SameButOwners(plan, plan')
    ensures error.None? ==> HoldOwners(nodes, plan')
  {
    hide AccountQuery.Valid, AccountQuery.View, ToOneAnswered, HoldOwners, OwnerKeys, RowKeys, DistinctKeys, Stepped;
    EdgeBuilders(q);
    plan', error := plan, None;
    if q.withOwner != null {
      var ids := DistinctKeys(OwnerKeys(nodes));
      if ids != [] {
        q.StepOwner(Where(IDIn(ids)));
        EdgeBuilders(q);
        var answer := db.owners(q.withOwner.View());
        if answer.None? {
          return plan, Some(QueryFailed);
        }
        plan' := plan.(withOwner := Some(Answered(answer.value)));
      }
    }
    ghost var v := q.View();
    var status := LoadRequestedOwner(nodes, plan');
    assert q.View() == v;
    error := if status.Loaded? then None else Some(EdgeRefused);
  }

  method NarrowUsageLogs(q: AccountQuery, ids: seq<int>)
    requires q.Valid() && q.withUsageLogs != null
    modifies q.withUsageLogs, q.withUsageLogs.ctx
    ensures q.Valid() && q.Repr == old(q.Repr)
    ensures q.View() == old(q.View()).(usageLogs := Some(
      Stepped(Stepped(old(q.View()).usageLogs.value, KeyField(LogAccountID)), Where(KeyIn(ids)))))
  {
    hide AccountQuery.Valid, AccountQuery.View, Stepped;
    q.StepUsageLogs(KeyField(LogAccountID));
    q.StepUsageLogs(Where(KeyIn(ids)));
  }

  method RunUsageLogs(q: AccountQuery, nodes: seq<Account>, plan: AccountPlan, db: Database)
    returns (plan': AccountPlan, error: Option<RunError>)
    requires q.Valid() && Outside(nodes, q) && PlanFits(q.View(), plan) && InOrder(nodes, plan)
    requires forall a :: a in nodes ==> a.usageLogs == []
    modifies q.Repr, nodes`usageLogs
    ensures q.Valid() && q.Repr == old(q.Repr) && PlanFits(q.View(), plan')
    ensures Progress(q.View(), plan', error) == UsageLogsStep(db, Progress(old(q.View()), plan, None))
    ensures plan'.rows == plan.rows && SameButUsageLogs(plan, plan')
    ensures error.None? ==> HoldRequestedLogs(nodes, plan')
  {
    hide AccountQuery.Valid, AccountQuery.View, UsageLogsRequested, HoldRequestedLogs, IDs, RowIDs, NoDuplicates,
      Stepped;
    EdgeBuilders(q);
    plan', error := plan, None;
    if q.withUsageLogs != null {
      var ids, byID := IndexByID(nodes);
      NarrowUsageLogs(q, ids);
      EdgeBuilders(q);
      var b := q.withUsageLogs.View();
      var answer := db.usageLogs(b);
      if answer.None? {
        return plan, Some(QueryFailed);
      }
      plan' := plan.(withUsageLogs := Some(UsageLogPlan(b.ctx.fields, Answered(answer.value))));
    }
    ghost var v := q.View();
    var status := LoadRequestedLogs(nodes, plan');
    assert q.View() == v;
    error := if status.Loaded? then None else Some(EdgeRefused);
  }

  // ---------- the account-group query ----------

  lemma LinkBuilders(l: AccountGroupQuery)
    requires l.Valid()
    ensures
      var v := l.View();
      && (v.group == if l.withGroup == null then None else Some(l.withGroup.View()))
      && (v.account.Some? <==> l.withAccount != null)
      && (l.withAccount != null ==> l.withAccount.Valid() && v.account == Some(l.withAccount.View()))
      && v.base == l.base.View()
    ensures l.base in l.Repr && l.base.ctx in l.Repr
    ensures l.withGroup != null ==> l.withGroup in l.Repr && l.withGroup.ctx in l.Repr
    ensures l.withAccount != null ==> l.withAccount.Repr < l.Repr && l !in l.withAccount.Repr
  {
    hide AccountQuery.Valid, AccountQuery.View;
  }

  /** What loadAccount hands out: the loaded accounts, by id and name. */
  function AccountRows(nodes: seq<Account>): (rows: seq<NodeRow>)
    reads nodes
    ensures |rows| == |nodes| && forall i :: 0 <= i < |rows| ==> rows[i] == NodeRow(nodes[i].rec.id, nodes[i].rec.name)
  {
    if nodes == [] then []
    else AccountRows(nodes[..|nodes| - 1]) + [NodeRow(nodes[|nodes| - 1].rec.id, nodes[|nodes| - 1].rec.name)]
  }

  lemma AccountRowsLoaded(nodes: seq<Account>, plan: AccountPlan, json: JsonCodec)
    requires Eager(nodes, plan, json)
    ensures AccountRows(nodes) == LoadedAccounts(json, plan)
  {
    hide ReadableRow, DecodeRow, GroupsOf, UsageLogsOf, AccountGroupsOf, ToOneEdge, LinksBelow;
    forall i | 0 <= i < |nodes| ensures AccountRows(nodes)[i] == LoadedAccounts(json, plan)[i] {
      assert ReadableRow(plan, plan.rows[i], json);
      assert Shown(nodes[i]) == NodeOf(plan, json, i);
    }
  }

  method RunLinkAccount(l: AccountGroupQuery, plan: AccountGroupPlan, keys: seq<Option<int>>, db: Database)
    returns (result: Result<AccountGroupPlan>)
    requires l.Valid()
    modifies l.Repr
    ensures l.Valid() && l.Repr == old(l.Repr)
    ensures (l.View(), result) == QueryLinkAccounts(db, old(l.View()), plan, keys)
    decreases l.Repr, 0
  {
    hide AccountQuery.Valid, AccountQuery.View, AccountGroupQuery.Valid, AccountGroupQuery.View, DistinctKeys, Stepped,
      Answers, Handout, Eager, RunAccounts, LoadedAccounts;
    LinkBuilders(l);
    var ids := DistinctKeys(keys);
    if l.withAccount == null || ids == [] {
      return Ran(plan);
    }
    var a := l.withAccount;
    a.Parts();
    a.Do(Where(IDIn(ids)));
    var r, nodes := RunAll(a, db);
    l.AccountChanged();
    match r
    case Failed(e) => return Failed(Below(e));
    case Ran(accounts) =>
      AccountRowsLoaded(nodes, accounts, db.json);
      var rows := AccountRows(nodes);
      HandoutAnswers(rows, keys);
      if Handout(NodeIDs(rows), ids).Loaded? {
        return Ran(plan.(withAccount := Some(Answered(rows))));
      }
      return Failed(EdgeRefused);
  }

  method RunLinkGroup(l: AccountGroupQuery, plan: AccountGroupPlan, keys: seq<Option<int>>, db: Database)
    returns (result: Result<AccountGroupPlan>)
    requires l.Valid()
    modifies l.Repr
    ensures l.Valid() && l.Repr == old(l.Repr)
    ensures (l.View(), result) == QueryLinkGroups(db, old(l.View()), plan, keys)
  {
    hide AccountQuery.Valid, AccountQuery.View, AccountGroupQuery.Valid, AccountGroupQuery.View, DistinctKeys, Stepped,
      Answers, Handout;
    LinkBuilders(l);
    var ids := DistinctKeys(keys);
    if l.withGroup == null || ids == [] {
      return Ran(plan);
    }
    l.StepGroup(Where(IDIn(ids)));
    LinkBuilders(l);
    var answer := db.groupsByID(l.withGroup.View());
    if answer.None? {
      return Failed(QueryFailed);
    }
    HandoutAnswers(answer.value, keys);
    if Handout(NodeIDs(answer.value), ids).Loaded? {
      return Ran(plan.(withGroup := Some(Answered(answer.value))));
    }
    return Failed(EdgeRefused);
  }

  lemma LinkKeysOfRows(links: seq<AccountGroup>, rows: seq<LinkRow>)
    requires LinkRows(links) == rows
    ensures AccountKeys(links) == LinkAccountKeys(rows) && GroupKeys(links) == LinkGroupKeys(rows)
  {
    assert forall i :: 0 <= i < |links| ==> links[i].row == rows[i];
  }

  /** AccountGroupQuery.All, as loadAccountGroups calls it. */
  method RunLinkQuery(l: AccountGroupQuery, accounts: seq<int>, db: Database) returns (result: Result<AccountGroupPlan>)
    requires l.Valid()
    modifies l.Repr
    ensures l.Valid() && l.Repr == old(l.Repr)
    ensures (l.View(), result) == RunLinks(db, old(l.View()), accounts)
    decreases l.Repr, 1
  {
    hide AccountQuery.Valid, AccountQuery.View, AccountGroupQuery.Valid, AccountGroupQuery.View, Stepped, PlannedLinks,
      QueryLinkAccounts, QueryLinkGroups, LinkAccountKeys, LinkGroupKeys;
    LinkBuilders(l);
    l.Do(KeyField(LinkAccountID));
    LinkBuilders(l);
    l.Do(Where(KeyIn(accounts)));
    LinkBuilders(l);
    var b := l.base.View();
    var answer := db.links(b);
    if answer.None? {
      return Failed(QueryFailed);
    }
    var plan := AccountGroupPlan(
      b.ctx.fields, Answered(answer.value), AnsweredIf(l.withAccount != null, []), AnsweredIf(l.withGroup != null, []));
    if answer.value == [] {
      return Ran(plan);
    }
    ghost var v := l.View();
    var links := ScanLinkRows(plan, accounts);
    assert l.View() == v;
    LinkKeysOfRows(links, PlannedLinks(plan, accounts));
    result := RunLinkAccount(l, plan, AccountKeys(links), db);
    match result {
      case Failed(_) =>
      case Ran(plan') => result := RunLinkGroup(l, plan', GroupKeys(links), db);
    }
  }

  lemma LinksBuilder(q: AccountQuery)
    requires q.Valid()
    ensures q.View().links.Some? <==> q.withAccountGroups != null
    ensures q.withAccountGroups != null ==>
      && q.withAccountGroups.Valid() && q.View().links == Some(q.withAccountGroups.View())
      && q.withAccountGroups.Repr < q.Repr && q !in q.withAccountGroups.Repr
  {
    hide AccountGroupQuery.Valid, AccountGroupQuery.View;
  }

  method RunAccountGroups(q: AccountQuery, nodes: seq<Account>, plan: AccountPlan, db: Database)
    returns (plan': AccountPlan, error: Option<RunError>)
    requires q.Valid() && Outside(nodes, q) && PlanFits(q.View(), plan) && InOrder(nodes, plan)
    requires forall a :: a in nodes ==> a.accountGroups == []
    modifies q.Repr, nodes`accountGroups
    ensures q.Valid() && q.Repr == old(q.Repr) && PlanFits(q.View(), plan')
    ensures Progress(q.View(), plan', error) == LinksStep(db, Progress(old(q.View()), plan, None))
    ensures plan'.rows == plan.rows && SameButLinks(plan, plan')
    ensures error.None? ==> HoldRequestedLinks(nodes, plan')
    decreases q.Repr, 2
  {
    hide AccountQuery.Valid, AccountQuery.View, AccountGroupQuery.Valid, AccountGroupQuery.View,
      AccountGroupsRequested, HoldRequestedLinks, IDs, RowIDs, NoDuplicates, RunLinks;
    LinksBuilder(q);
    plan', error := plan, None;
    if q.withAccountGroups != null {
      var ids, byID := IndexByID(nodes);
      var result := RunLinkQuery(q.withAccountGroups, ids, db);
      q.LinksChanged();
      match result {
        case Failed(e) => return plan, Some(e);
        case Ran(links) => plan' := plan.(withAccountGroups := Some(links));
      }
    }
    ghost var v := q.View();
    var status := LoadRequestedLinks(nodes, plan');
    assert q.View() == v;
    error := if status.Loaded? then None else Some(EdgeRefused);
  }

  // ---------- AccountQuery.All ----------

  /** The plan before any edge query. */
  method StartPlan(q: AccountQuery, rows: seq<Row>) returns (plan: AccountPlan)
    requires q.Valid()
    ensures plan == Unloaded(q.View(), rows) && PlanFits(q.View(), plan)
  {
    EdgeBuilders(q);
    LinksBuilder(q);
    hide AccountQuery.Valid, AccountQuery.View;
    plan := AccountPlan(
      q.base.ctx.fields, rows, AnsweredIf(q.withGroups != null, []), AnsweredIf(q.withProxy != null, []),
      AnsweredIf(q.withOwner != null, []),
      if q.withUsageLogs != null then Some(UsageLogPlan([], Answered([]))) else None,
      if q.withAccountGroups != null then Some(AccountGroupPlan([], Answered([]), None, None)) else None);
  }

  /** What a step leaves alone in the nodes holds for the plan that it extends. */
  lemma Carried(nodes: seq<Account>, plan: AccountPlan, plan': AccountPlan, json: JsonCodec)
    requires plan'.rows == plan.rows && plan'.fields == plan.fields && Requests(plan') == Requests(plan)
    ensures InOrder(nodes, plan) ==> InOrder(nodes, plan')
    ensures DecodedFrom(nodes, plan, json) ==> DecodedFrom(nodes, plan', json)
    ensures plan'.withGroups == plan.withGroups && HoldRequestedGroups(nodes, plan) ==>
      HoldRequestedGroups(nodes, plan')
    ensures plan'.withProxy == plan.withProxy && HoldProxies(nodes, plan) ==> HoldProxies(nodes, plan')
    ensures plan'.withOwner == plan.withOwner && HoldOwners(nodes, plan) ==> HoldOwners(nodes, plan')
    ensures plan'.withUsageLogs == plan.withUsageLogs && HoldRequestedLogs(nodes, plan) ==>
      HoldRequestedLogs(nodes, plan')
  {
    hide IDs, RowIDs, RowKeys, ReturnedRows, LastMatch, DecodeRow, Scannable, AccountColumns, EdgeOf, LogsOf,
      NoDuplicates;
    assert SelectedColumns(plan') == SelectedColumns(plan);
    assert DecodedFrom(nodes, plan, json) ==> DecodedFrom(nodes, plan', json) by {
      hide SelectedColumns, RowID, RowKey;
      assert forall i :: 0 <= i < |plan.rows| ==>
        (ReadableRow(plan, plan.rows[i], json) <==> ReadableRow(plan', plan.rows[i], json));
    }
  }

  /** The first four steps of sqlAll. */
  method RunFirstEdges(q: AccountQuery, nodes: seq<Account>, plan: AccountPlan, db: Database)
    returns (plan': AccountPlan, error: Option<RunError>)
    requires q.Valid() && Outside(nodes, q) && PlanFits(q.View(), plan)
    requires NoDuplicates(nodes) && DecodedFrom(nodes, plan, db.json) && NoEdges(nodes)
    modifies q.Repr, nodes`groups, nodes`proxy, nodes`owner, nodes`usageLogs
    ensures q.Valid() && q.Repr == old(q.Repr) && PlanFits(q.View(), plan')
    ensures Progress(q.View(), plan', error) == FirstEdges(db, Progress(old(q.View()), plan, None))
    ensures error.None? ==>
      && InOrder(nodes, plan') && DecodedFrom(nodes, plan', db.json)
      && HoldRequestedGroups(nodes, plan') && HoldProxies(nodes, plan') && HoldOwners(nodes, plan')
      && HoldRequestedLogs(nodes, plan')
  {
    hide AccountQuery.Valid, AccountQuery.View, GroupsStep, ProxiesStep, OwnersStep, UsageLogsStep, DecodedFrom,
      InOrder, HoldRequestedGroups, HoldProxies, HoldOwners, HoldRequestedLogs, IDs, RowIDs, RowKeys, ProxyKeys,
      OwnerKeys, NoDuplicates, NoEdges, PlanFits;
    DecodedInOrder(nodes, plan, db.json);
    NoEdgesMeans(nodes);
    var p1, p2, p3;
    p1, error := RunGroups(q, nodes, plan, db);
    if error.Some? {
      return p1, error;
    }
    Carried(nodes, plan, p1, db.json);
    DecodedInOrder(nodes, p1, db.json);
    p2, error := RunProxy(q, nodes, p1, db);
    if error.Some? {
      return p2, error;
    }
    Carried(nodes, p1, p2, db.json);
    DecodedInOrder(nodes, p2, db.json);
    p3, error := RunOwner(q, nodes, p2, db);
    if error.Some? {
      return p3, error;
    }
    Carried(nodes, p2, p3, db.json);
    plan', error := RunUsageLogs(q, nodes, p3, db);
    if error.None? {
      Carried(nodes, p3, plan', db.json);
    }
  }

  /** The five steps of sqlAll. */
  method RunEdges(q: AccountQuery, nodes: seq<Account>, plan: AccountPlan, db: Database)
    returns (plan': AccountPlan, error: Option<RunError>)
    requires q.Valid() && Outside(nodes, q) && PlanFits(q.View(), plan)
    requires NoDuplicates(nodes) && DecodedFrom(nodes, plan, db.json) && NoEdges(nodes)
    modifies q.Repr, nodes`groups, nodes`proxy, nodes`owner, nodes`usageLogs, nodes`accountGroups
    ensures q.Valid() && q.Repr == old(q.Repr)
    ensures Progress(q.View(), plan', error) == LinksStep(db, FirstEdges(db, Progress(old(q.View()), plan, None)))
    ensures error.None? ==> Eager(nodes, plan', db.json)
    decreases q.Repr, 3
  {
    hide AccountQuery.Valid, AccountQuery.View, FirstEdges, LinksStep, DecodedFrom, InOrder, HoldRequestedGroups,
      HoldProxies, HoldOwners, HoldRequestedLogs, HoldRequestedLinks, Eager, LinksBelow, NoDuplicates, NoEdges,
      PlanFits;
    NoEdgesMeans(nodes);
    var p4;
    p4, error := RunFirstEdges(q, nodes, plan, db);
    if error.Some? {
      return p4, error;
    }
    plan', error := RunAccountGroups(q, nodes, p4, db);
    if error.None? {
      Carried(nodes, p4, plan', db.json);
      AllShown(nodes, plan', db.json);
    }
  }

  lemma UnloadedRows(v: AccountView, rows: seq<Row>)
    ensures Unloaded(v, rows).rows == rows
  {
  }

  lemma DecodedCount(nodes: seq<Account>, plan: AccountPlan, json: JsonCodec)
    requires DecodedFrom(nodes, plan, json)
    ensures |nodes| == |plan.rows|
  {
  }

  /** prepareQuery, once the fields are valid. */
  method PrepareQuery(q: AccountQuery, db: Database) returns (ok: bool)
    requires q.Valid()
    modifies q.Repr
    ensures q.Valid() && q.Repr == old(q.Repr)
    ensures ok <==> !PathFails(db, old(q.View()))
    ensures q.View() == Prepared(db, old(q.View()))
  {
    hide AccountQuery.Valid, AccountQuery.View, Stepped;
    q.Parts();
    if q.base.path.Some? {
      var selector := db.selectors(q.base.path.value);
      if selector.None? {
        return false;
      }
      q.Do(StartFrom(selector.value));
    }
    return true;
  }

  /** The rest of All: the query itself and its edges. */
  method QueryAll(q: AccountQuery, db: Database) returns (result: Result<AccountPlan>, nodes: seq<Account>)
    requires q.Valid()
    modifies q.Repr
    ensures q.Valid() && q.Repr == old(q.Repr)
    ensures (q.View(), result) == RunPrepared(db, old(q.View()))
    ensures result.Ran? ==> Eager(nodes, result.plan, db.json)
    ensures forall i :: 0 <= i < |nodes| ==> fresh(nodes[i])
    decreases q.Repr, 4
  {
    hide AccountQuery.Valid, AccountQuery.View, AccountGroupQuery.Valid, AccountGroupQuery.View, Readable, Eager,
      NoEdges, DecodedFrom, LinksStep, FirstEdges, Unloaded, SpecOf, NoDuplicates;
    EdgeBuilders(q);
    nodes := [];
    var spec := BuildSpec(q);
    var answer := db.accounts(spec);
    if answer.None? {
      return Failed(QueryFailed), nodes;
    }
    var plan := StartPlan(q, answer.value);
    UnloadedRows(q.View(), answer.value);
    ghost var v := q.View();
    var status;
    status, nodes := QueryNodes(plan, db.json);
    assert q.View() == v;
    if !status.Success? {
      return Failed(Unreadable), nodes;
    }
    DecodedCount(nodes, plan, db.json);
    if |nodes| == 0 {
      NothingToLoad(nodes, plan, db.json);
      return Ran(plan), nodes;
    }
    var plan', error := RunEdges(q, nodes, plan, db);
    return if error.Some? then Failed(error.value) else Ran(plan'), nodes;
  }

  method RunAll(q: AccountQuery, db: Database) returns (result: Result<AccountPlan>, nodes: seq<Account>)
    requires q.Valid()
    modifies q.Repr
    ensures q.Valid() && q.Repr == old(q.Repr)
    ensures (q.View(), result) == RunAccounts(db, old(q.View()))
    ensures result.Ran? ==> Eager(nodes, result.plan, db.json)
    ensures forall i :: 0 <= i < |nodes| ==> fresh(nodes[i])
    decreases q.Repr, 5
  {
    hide AccountQuery.Valid, AccountQuery.View, AccountGroupQuery.Valid, AccountGroupQuery.View, RunPrepared,
      InvalidField, Eager;
    EdgeBuilders(q);
    nodes := [];
    var bad := FirstInvalid(q.base.ctx.fields);
    if bad.Some? {
      return Failed(BadField(bad.value)), nodes;
    }
    var ok := PrepareQuery(q, db);
    if !ok {
      return Failed(QueryFailed), nodes;
    }
    result, nodes := QueryAll(q, db);
  }
}
