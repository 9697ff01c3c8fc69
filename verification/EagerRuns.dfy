/**
 Running a builder tree: All of backend/ent/account_query.go and
 backend/ent/accountgroup_query.go, with its eager loading.

 A run changes the tree: each loader adds to its edge query a predicate for the ids it asks
 for, and a one-to-many loader its key to the selected fields. `RunAccounts` says what a run
 returns and what it leaves behind, on values; module BuilderRuns does it on builders and
 nodes. A database answers each query with rows, or with an error.
 */
module EagerRuns {
  import opened Common
  import opened GroupJoin
  import opened RowCodec
  import opened Entities
  import opened Projection
  import opened ToOneLoading
  import opened ToManyLoading
  import opened AccountLoading
  import opened QueryBuilder
  import opened QuerySpecs
  import opened GroupScan

  /** The database, with the selector that each traversal path leads to. */
  datatype Database = Database(
    accounts: QuerySpec -> Option<seq<Row>>,
    groups: Base<string> -> Option<seq<JoinRow>>,
    proxies: Base<string> -> Option<seq<NodeRow>>,
    owners: Base<string> -> Option<seq<NodeRow>>,
    usageLogs: Base<LogColumn> -> Option<seq<LogRow>>,
    links: Base<LinkColumn> -> Option<seq<LinkRow>>,
    groupsByID: Base<string> -> Option<seq<NodeRow>>,
    selectors: string -> Option<string>,
    json: JsonCodec)

  /** A node that is not there, or a type assertion on columns that have moved. */
  datatype Panic = NilNode | ShiftedColumns

  /** An error that a run returns, or a panic that ends it; `Below` marks one of the account query nested in it. */
  datatype RunError =
    | BadField(field: Column)
    | QueryFailed
    | Unreadable
    | EdgeRefused
    | Panicked(cause: Panic)
    | Below(error: RunError)

  /** How a run ended: with an error, or with the rows that its queries returned, as a plan. */
  datatype Result<+P> = Failed(error: RunError) | Ran(plan: P)

  /** A query that has been answered. */
  function Answered<T>(rows: seq<T>): seq<int> -> seq<T> {
    _ => rows
  }

  function AnsweredIf<T>(requested: bool, rows: seq<T>): Option<seq<int> -> seq<T>> {
    if requested then Some(Answered(rows)) else None
  }

  // ---------- a run, on values ----------

  /** Account queries nested below this one. */
  function Height(v: AccountView): nat {
    if v.links.None? || v.links.value.account.None? then 0 else 1 + Height(v.links.value.account.value)
  }

  function LinkHeight(v: LinkView): nat {
    if v.account.None? then 0 else 1 + Height(v.account.value)
  }

  /** The plan of a run before any edge query: those that were requested have returned nothing yet. */
  function Unloaded(v: AccountView, rows: seq<Row>): AccountPlan {
    AccountPlan(
      v.base.ctx.fields, rows, AnsweredIf(v.groups.Some?, []), AnsweredIf(v.proxy.Some?, []),
      AnsweredIf(v.owner.Some?, []),
      if v.usageLogs.Some? then Some(UsageLogPlan([], Answered([]))) else None,
      if v.links.Some? then Some(AccountGroupPlan([], Answered([]), None, None)) else None)
  }

  /** prepareQuery makes a query with a traversal path start from the selector that the path leads to. */
  function Prepared(db: Database, v: AccountView): AccountView {
    if v.base.path.None? || db.selectors(v.base.path.value).None? then v
    else v.(base := Stepped(v.base, StartFrom(db.selectors(v.base.path.value).value)))
  }

  /** What a run asks the database for, once it is prepared. */
  function RunSpec(db: Database, v: AccountView): QuerySpec {
    SpecOf(Prepared(db, v))
  }

  predicate PathFails(db: Database, v: AccountView) {
    v.base.path.Some? && db.selectors(v.base.path.value).None?
  }

  /** A run under way: the tree so far, the rows so far, and the error that stopped it. */
  datatype Progress = Progress(view: AccountView, plan: AccountPlan, error: Option<RunError>)

  ghost function Refuse(p: Progress, answered: bool, refusal: RunError): Progress {
    if p.error.None? && !answered then p.(error := Some(refusal)) else p
  }

  /** The callbacks of loadGroups can read the rows of the query: there are none, or its columns are in place. */
  predicate CanScan(b: Base<string>, rows: seq<JoinRow>) {
    rows == [] || Aligned(Selection(b.ctx.fields, b.predicates))
  }

  function QueryGroups(db: Database, p: Progress): (r: Progress)
    ensures r.view.links == p.view.links && r.view.base == p.view.base && r.plan.rows == p.plan.rows
  {
    if p.error.Some? || p.view.groups.None? then p
    else
      var b := Stepped(p.view.groups.value, Where(JoinedTo(RowIDs(p.plan.rows))));
      var view := p.view.(groups := Some(b));
      match db.groups(b)
      case None => Progress(view, p.plan, Some(QueryFailed))
      case Some(rows) =>
        if !CanScan(b, rows) then Progress(view, p.plan, Some(Panicked(ShiftedColumns)))
        else Progress(view, p.plan.(withGroups := Some(Answered(rows))), None)
  }

  function QueryProxies(db: Database, p: Progress): (r: Progress)
    ensures r.view.links == p.view.links && r.view.base == p.view.base && r.plan.rows == p.plan.rows
  {
    var ids := DistinctKeys(RowKeys(p.plan.rows, ProxyID));
    if p.error.Some? || p.view.proxy.None? || ids == [] then p
    else
      var b := Stepped(p.view.proxy.value, Where(IDIn(ids)));
      var view := p.view.(proxy := Some(b));
      match db.proxies(b)
      case None => Progress(view, p.plan, Some(QueryFailed))
      case Some(rows) => Progress(view, p.plan.(withProxy := Some(Answered(rows))), None)
  }

  function QueryOwners(db: Database, p: Progress): (r: Progress)
    ensures r.view.links == p.view.links && r.view.base == p.view.base && r.plan.rows == p.plan.rows
  {
    var ids := DistinctKeys(RowKeys(p.plan.rows, OwnerUserID));
    if p.error.Some? || p.view.owner.None? || ids == [] then p
    else
      var b := Stepped(p.view.owner.value, Where(IDIn(ids)));
      var view := p.view.(owner := Some(b));
      match db.owners(b)
      case None => Progress(view, p.plan, Some(QueryFailed))
      case Some(rows) => Progress(view, p.plan.(withOwner := Some(Answered(rows))), None)
  }

  function QueryUsageLogs(db: Database, p: Progress): (r: Progress)
    ensures r.view.links == p.view.links && r.view.base == p.view.base && r.plan.rows == p.plan.rows
  {
    if p.error.Some? || p.view.usageLogs.None? then p
    else
      var b := Stepped(Stepped(p.view.usageLogs.value, KeyField(LogAccountID)), Where(KeyIn(RowIDs(p.plan.rows))));
      var view := p.view.(usageLogs := Some(b));
      match db.usageLogs(b)
      case None => Progress(view, p.plan, Some(QueryFailed))
      case Some(rows) =>
        Progress(view, p.plan.(withUsageLogs := Some(UsageLogPlan(b.ctx.fields, Answered(rows)))), None)
  }

  // A step of sqlAll queries one edge and hands its rows out; after an error, no step does anything.

  ghost function GroupsStep(db: Database, p: Progress): (p': Progress)
    ensures p.error.Some? ==> p' == p
    ensures p'.view.links == p.view.links && p'.view.base == p.view.base && p'.plan.rows == p.plan.rows
  {
    var r := QueryGroups(db, p);
    Refuse(r, GroupsRequested(r.plan), Panicked(NilNode))
  }

  ghost function ProxiesStep(db: Database, p: Progress): (p': Progress)
    ensures p.error.Some? ==> p' == p
    ensures p'.view.links == p.view.links && p'.view.base == p.view.base && p'.plan.rows == p.plan.rows
  {
    var r := QueryProxies(db, p);
    Refuse(r, ToOneAnswered(r.plan.withProxy, RowKeys(r.plan.rows, ProxyID)), EdgeRefused)
  }

  ghost function OwnersStep(db: Database, p: Progress): (p': Progress)
    ensures p.error.Some? ==> p' == p
    ensures p'.view.links == p.view.links && p'.view.base == p.view.base && p'.plan.rows == p.plan.rows
  {
    var r := QueryOwners(db, p);
    Refuse(r, ToOneAnswered(r.plan.withOwner, RowKeys(r.plan.rows, OwnerUserID)), EdgeRefused)
  }

  ghost function UsageLogsStep(db: Database, p: Progress): (p': Progress)
    ensures p.error.Some? ==> p' == p
    ensures p'.view.links == p.view.links && p'.view.base == p.view.base && p'.plan.rows == p.plan.rows
  {
    var r := QueryUsageLogs(db, p);
    Refuse(r, UsageLogsRequested(r.plan), EdgeRefused)
  }

  ghost function FirstEdges(db: Database, p: Progress): (p': Progress)
    ensures p.error.Some? ==> p' == p
    ensures p'.view.links == p.view.links && p'.view.base == p.view.base && p'.plan.rows == p.plan.rows
  {
    UsageLogsStep(db, OwnersStep(db, ProxiesStep(db, GroupsStep(db, p))))
  }

  ghost function QueryLinks(db: Database, p: Progress): (r: Progress)
    ensures r.view.base == p.view.base && r.plan.rows == p.plan.rows
    decreases if p.view.links.Some? then LinkHeight(p.view.links.value) else 0, 2
  {
    if p.error.Some? || p.view.links.None? then p
    else
      var (links, result) := RunLinks(db, p.view.links.value, RowIDs(p.plan.rows));
      var view := p.view.(links := Some(links));
      match result
      case Failed(e) => Progress(view, p.plan, Some(e))
      case Ran(plan) => Progress(view, p.plan.(withAccountGroups := Some(plan)), None)
  }

  ghost function LinksStep(db: Database, p: Progress): (p': Progress)
    ensures p.error.Some? ==> p' == p
    ensures p'.view.base == p.view.base && p'.plan.rows == p.plan.rows
    decreases if p.view.links.Some? then LinkHeight(p.view.links.value) else 0, 3
  {
    var r := QueryLinks(db, p);
    Refuse(r, AccountGroupsRequested(r.plan), EdgeRefused)
  }

  /** AccountQuery.All: the tree it leaves behind, and its result. */
  ghost function RunAccounts(db: Database, v: AccountView): (r: (AccountView, Result<AccountPlan>))
    ensures r.0.base == if InvalidField(v.base.ctx.fields).Some? then v.base else Prepared(db, v).base
    decreases Height(v), 5
  {
    var bad := InvalidField(v.base.ctx.fields);
    if bad.Some? then (v, Failed(BadField(bad.value)))
    else if PathFails(db, v) then (v, Failed(QueryFailed))
    else RunPrepared(db, Prepared(db, v))
  }

  /** The query itself and its edges, once prepareQuery has succeeded. */
  ghost function RunPrepared(db: Database, v: AccountView): (r: (AccountView, Result<AccountPlan>))
    ensures r.0.base == v.base
    decreases Height(v), 4
  {
    match db.accounts(SpecOf(v))
    case None => (v, Failed(QueryFailed))
    case Some(rows) =>
      var start := Unloaded(v, rows);
      if !Readable(start, db.json) then (v, Failed(Unreadable))
      else if rows == [] then (v, Ran(start))
      else
        var p := LinksStep(db, FirstEdges(db, Progress(v, start, None)));
        (p.view, if p.error.Some? then Failed(p.error.value) else Ran(p.plan))
  }

  /** The accounts that a run loaded, by id and name. */
  ghost function LoadedAccounts(json: JsonCodec, plan: AccountPlan): (rows: seq<NodeRow>)
    ensures |rows| == |plan.rows|
  {
    seq(|plan.rows|, i requires 0 <= i < |plan.rows| =>
      if ReadableRow(plan, plan.rows[i], json) then
        var rec := DecodeRow(SelectedColumns(plan), plan.rows[i], json).value;
        NodeRow(rec.id, rec.name)
      else NodeRow(0, ""))
  }

  function LinkPlan(v: LinkView, b: Base<LinkColumn>, rows: seq<LinkRow>): AccountGroupPlan {
    AccountGroupPlan(b.ctx.fields, Answered(rows), AnsweredIf(v.account.Some?, []), AnsweredIf(v.group.Some?, []))
  }

  ghost function QueryLinkGroups(db: Database, v: LinkView, plan: AccountGroupPlan, keys: seq<Option<int>>)
    : (r: (LinkView, Result<AccountGroupPlan>))
  {
    if v.group.None? || DistinctKeys(keys) == [] then (v, Ran(plan))
    else
      var b := Stepped(v.group.value, Where(IDIn(DistinctKeys(keys))));
      var v' := v.(group := Some(b));
      match db.groupsByID(b)
      case None => (v', Failed(QueryFailed))
      case Some(rows) =>
        (v', if Answers(rows, keys) then Ran(plan.(withGroup := Some(Answered(rows)))) else Failed(EdgeRefused))
  }

  /** AccountGroupQuery.All, as loadAccountGroups calls it for some accounts. */
  ghost function RunLinks(db: Database, v: LinkView, accounts: seq<int>): (r: (LinkView, Result<AccountGroupPlan>))
    decreases LinkHeight(v), 1
  {
    var b := Stepped(Stepped(v.base, KeyField(LinkAccountID)), Where(KeyIn(accounts)));
    var v0 := v.(base := b);
    match db.links(b)
    case None => (v0, Failed(QueryFailed))
    case Some(rows) =>
      var plan := LinkPlan(v, b, rows);
      if rows == [] then (v0, Ran(plan))
      else
        var scanned := PlannedLinks(plan, accounts);
        var (v1, r1) := QueryLinkAccounts(db, v0, plan, LinkAccountKeys(scanned));
        if r1.Failed? then (v1, r1)
        else QueryLinkGroups(db, v1, r1.plan, LinkGroupKeys(scanned))
  }

  ghost function QueryLinkAccounts(db: Database, v: LinkView, plan: AccountGroupPlan, keys: seq<Option<int>>)
    : (r: (LinkView, Result<AccountGroupPlan>))
    decreases LinkHeight(v), 0
  {
    if v.account.None? || DistinctKeys(keys) == [] then (v, Ran(plan))
    else
      var q := v.account.value;
      var asked := q.(base := Stepped(q.base, Where(IDIn(DistinctKeys(keys)))));
      var (after, result) := RunAccounts(db, asked);
      var v' := v.(account := Some(after));
      match result
      case Failed(e) => (v', Failed(Below(e)))
      case Ran(accounts) =>
        var rows := LoadedAccounts(db.json, accounts);
        (v', if Answers(rows, keys) then Ran(plan.(withAccount := Some(Answered(rows)))) else Failed(EdgeRefused))
  }

  // ---------- what a run keeps ----------

  /** The plan asks for the edges that the query has builders for. */
  ghost predicate PlanFits(v: AccountView, plan: AccountPlan) {
    && plan.fields == v.base.ctx.fields
    && plan.withGroups.Some? == v.groups.Some? && plan.withProxy.Some? == v.proxy.Some?
    && plan.withOwner.Some? == v.owner.Some? && plan.withUsageLogs.Some? == v.usageLogs.Some?
    && plan.withAccountGroups.Some? == v.links.Some?
  }

  /** The same query of its own, with the same edges requested. */
  ghost predicate SameMain(v: AccountView, w: AccountView) {
    v.base == w.base && v.proxy.Some? == w.proxy.Some? && v.owner.Some? == w.owner.Some?
  }

  /** What no step changes. */
  ghost predicate Kept(p: Progress, p': Progress) {
    && SameMain(p'.view, p.view) && p'.plan.rows == p.plan.rows && p'.plan.fields == p.plan.fields
    && Requests(p'.plan) == Requests(p.plan) && PlanFits(p'.view, p'.plan)
  }

  lemma GroupsStepKeeps(db: Database, p: Progress)
    requires PlanFits(p.view, p.plan)
    ensures Kept(p, GroupsStep(db, p))
    ensures
      var p' := GroupsStep(db, p);
      p'.view == p.view.(groups := p'.view.groups) && p'.plan == p.plan.(withGroups := p'.plan.withGroups)
  {
    hide GroupsRequested, RowIDs, Stepped, CanScan;
  }

  lemma ProxiesStepKeeps(db: Database, p: Progress)
    requires PlanFits(p.view, p.plan)
    ensures Kept(p, ProxiesStep(db, p))
    ensures
      var p' := ProxiesStep(db, p);
      p'.view == p.view.(proxy := p'.view.proxy) && p'.plan == p.plan.(withProxy := p'.plan.withProxy)
  {
    hide ToOneAnswered, RowKeys, DistinctKeys, Stepped;
  }

  lemma OwnersStepKeeps(db: Database, p: Progress)
    requires PlanFits(p.view, p.plan)
    ensures Kept(p, OwnersStep(db, p))
    ensures
      var p' := OwnersStep(db, p);
      p'.view == p.view.(owner := p'.view.owner) && p'.plan == p.plan.(withOwner := p'.plan.withOwner)
  {
    hide ToOneAnswered, RowKeys, DistinctKeys, Stepped;
  }

  lemma UsageLogsStepKeeps(db: Database, p: Progress)
    requires PlanFits(p.view, p.plan)
    ensures Kept(p, UsageLogsStep(db, p))
    ensures
      var p' := UsageLogsStep(db, p);
      p'.view == p.view.(usageLogs := p'.view.usageLogs) && p'.plan == p.plan.(withUsageLogs := p'.plan.withUsageLogs)
  {
    hide UsageLogsRequested, RowIDs, Stepped;
  }

  lemma LinksStepKeeps(db: Database, p: Progress)
    requires PlanFits(p.view, p.plan)
    ensures Kept(p, LinksStep(db, p))
    ensures
      var p' := LinksStep(db, p);
      p'.view == p.view.(links := p'.view.links) && p'.plan == p.plan.(withAccountGroups := p'.plan.withAccountGroups)
  {
    hide AccountGroupsRequested, RowIDs, RunLinks, Stepped;
  }

  lemma EdgesKeep(db: Database, p: Progress)
    requires PlanFits(p.view, p.plan)
    ensures Kept(p, LinksStep(db, FirstEdges(db, p)))
  {
    hide GroupsStep, ProxiesStep, OwnersStep, UsageLogsStep, LinksStep;
    var p1 := GroupsStep(db, p);
    var p2 := ProxiesStep(db, p1);
    var p3 := OwnersStep(db, p2);
    var p4 := UsageLogsStep(db, p3);
    GroupsStepKeeps(db, p);
    ProxiesStepKeeps(db, p1);
    OwnersStepKeeps(db, p2);
    UsageLogsStepKeeps(db, p3);
    LinksStepKeeps(db, p4);
  }

  /** The two run the same query of their own, whichever selectors their paths led to before. */
  ghost predicate SameQuery(db: Database, v: AccountView, w: AccountView) {
    SameMain(Prepared(db, v), Prepared(db, w))
  }

  lemma PreparedKeeps(db: Database, v: AccountView)
    ensures SameMain(RunPrepared(db, v).0, v)
    ensures
      var result := RunPrepared(db, v).1;
      result.Ran? ==>
        && db.accounts(SpecOf(v)) == Some(result.plan.rows) && Readable(result.plan, db.json)
        && SelectedColumns(result.plan) == SpecOf(v).columns
  {
    hide LinksStep, FirstEdges, AccountColumns, DecodeRow, Scannable;
    match db.accounts(SpecOf(v)) {
      case None =>
      case Some(rows) =>
        var start := Unloaded(v, rows);
        EdgesKeep(db, Progress(v, start, None));
        var p := LinksStep(db, FirstEdges(db, Progress(v, start, None)));
        assert SelectedColumns(p.plan) == SelectedColumns(start);
        assert Readable(start, db.json) ==> Readable(p.plan, db.json) by {
          forall i | Readable(start, db.json) && 0 <= i < |rows| ensures ReadableRow(p.plan, rows[i], db.json) {
            assert ReadableRow(start, rows[i], db.json);
          }
        }
    }
  }

  /** Where a query starts from: the selector that its path leads to, or what it had if it has no path. */
  function Origin(db: Database, v: AccountView): Option<string> {
    if v.base.path.Some? then db.selectors(v.base.path.value) else v.base.sql
  }

  lemma PreparedOrigin(db: Database, v: AccountView)
    requires !PathFails(db, v)
    ensures Prepared(db, v) == v.(base := v.base.(sql := Origin(db, v)))
    ensures SpecOf(Prepared(db, v)) == SpecOf(v).(from := Origin(db, v))
    ensures v.base.path.Some? ==> db.selectors(v.base.path.value).Some?
  {
    hide AccountColumns;
  }

  /**
   A run leaves the query of its own as it was, but that a query with a path then starts from
   the selector the path leads to. If it succeeds, the path led to a selector, its rows are those
   the database returned for the query from there, and all of them could be read under the
   query's columns.
   */
  lemma RunKeepsMain(db: Database, v: AccountView)
    ensures SameQuery(db, RunAccounts(db, v).0, v)
    ensures
      var left := RunAccounts(db, v).0.base;
      left == if InvalidField(v.base.ctx.fields).Some? then v.base else Prepared(db, v).base
    ensures
      var result, w := RunAccounts(db, v).1, Prepared(db, v);
      result.Ran? ==>
        && db.accounts(SpecOf(w)) == Some(result.plan.rows) && Readable(result.plan, db.json)
        && SelectedColumns(result.plan) == SpecOf(w).columns
    ensures
      var (left, result) := RunAccounts(db, v);
      result.Ran? ==>
        && left.base == v.base.(sql := Origin(db, v)) && (v.base.path.Some? ==> Origin(db, v).Some?)
        && db.accounts(SpecOf(v).(from := Origin(db, v))) == Some(result.plan.rows)
  {
    hide RunPrepared, InvalidField, SpecOf, Readable, SelectedColumns;
    PreparedKeeps(db, Prepared(db, v));
    if !PathFails(db, v) {
      PreparedOrigin(db, v);
    }
  }
}
