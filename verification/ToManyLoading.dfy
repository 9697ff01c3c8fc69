/**
 Loaders of an edge to many neighbours that hold the foreign key: loadUsageLogs and
 loadAccountGroups of backend/ent/account_query.go.

 A plan is a neighbour query: its selected fields, and the rows it returns for the
 requested ids. A neighbour's key is scanned only when its column is selected, and is
 zero otherwise.
 */
module ToManyLoading {
  import opened Common
  import opened Entities
  import opened Projection
  import opened EagerLoading
  import opened ToOneLoading

  // ---------- loadUsageLogs: the specification ----------

  datatype UsageLogPlan = UsageLogPlan(fields: seq<LogColumn>, run: seq<int> -> seq<LogRow>)

  function LogBelongsTo(account: int): LogRow -> bool {
    (r: LogRow) => r.accountID == account
  }

  /** The rows of one account, in the order returned. */
  function LogsOf(rows: seq<LogRow>, account: int): seq<LogRow> {
    Filter(rows, LogBelongsTo(account))
  }

  lemma LogsOfContents(rows: seq<LogRow>, account: int)
    ensures forall r :: r in LogsOf(rows, account) <==> r in rows && r.accountID == account
    ensures exists at :: Picks(rows, LogBelongsTo(account), LogsOf(rows, account), at)
  {
    FilterContents(rows, LogBelongsTo(account), LogsOf(rows, account));
    var at := FilterPicks(rows, LogBelongsTo(account));
    hide Filter;
  }

  function LogRows(logs: seq<UsageLog>): (rows: seq<LogRow>)
    ensures |rows| == |logs| && forall i :: 0 <= i < |rows| ==> rows[i] == logs[i].row
  {
    Map(logs, (l: UsageLog) => l.row)
  }

  /** The accounts that the rows belong to. */
  function LogAccounts(rows: seq<LogRow>): seq<int> {
    Map(rows, (r: LogRow) => r.accountID)
  }

  /** A row as scanned: the id always, the account's id only when its column is selected. */
  function ScanLog(row: LogRow, keyed: bool): LogRow {
    LogRow(row.id, if keyed then row.accountID else 0)
  }

  ghost predicate LogsRequested(rows: seq<LogRow>, ids: seq<int>) {
    forall i :: 0 <= i < |rows| ==> rows[i].accountID in ids
  }

  /** What node `a` should hold: its own rows, if it is the last node with its id. */
  ghost function DueLogs(nodes: seq<Account>, rows: seq<LogRow>, a: Account): seq<LogRow>
    reads nodes`rec, a`rec
  {
    if Indexed(nodes, a) then LogsOf(rows, a.rec.id) else []
  }

  ghost predicate HoldLogs(nodes: seq<Account>, rows: seq<LogRow>)
    reads nodes`rec, nodes`usageLogs
  {
    forall a :: a in nodes ==> LogRows(a.usageLogs) == DueLogs(nodes, rows, a)
  }

  // ---------- loadUsageLogs ----------

  /** query.All of the usage-log query, under the columns it selects. */
  method MaterializeLogs(rows: seq<LogRow>, fields: seq<LogColumn>) returns (logs: seq<UsageLog>)
    ensures |logs| == |rows|
    ensures forall i :: 0 <= i < |rows| ==> logs[i].row == ScanLog(rows[i], Selects(fields, LogID, LogAccountID))
  {
    logs := [];
    var keyed := Selects(fields, LogID, LogAccountID);
    for i := 0 to |rows|
      invariant |logs| == i && forall k :: 0 <= k < i ==> logs[k].row == ScanLog(rows[k], keyed)
    {
      var l := new UsageLog(ScanLog(rows[i], keyed));
      logs := logs + [l];
    }
  }

  lemma LogsScannedWhole(logs: seq<UsageLog>, rows: seq<LogRow>)
    requires |logs| == |rows| && forall i :: 0 <= i < |rows| ==> logs[i].row == ScanLog(rows[i], true)
    ensures LogRows(logs) == rows
  {
  }

  method ClearLogs(nodes: seq<Account>)
    modifies nodes`usageLogs
    ensures forall a :: a in nodes ==> a.usageLogs == []
  {
    for i := 0 to |nodes|
      invariant forall k :: 0 <= k < i ==> nodes[k].usageLogs == []
    {
      nodes[i].usageLogs := [];
    }
  }

  lemma DueLogsStep(nodes: seq<Account>, rows: seq<LogRow>, j: nat, node: Account, a: Account)
    requires j < |rows| && node in nodes && a in nodes && Indexed(nodes, node) && rows[j].accountID == node.rec.id
    requires forall a :: a in nodes && Indexed(nodes, a) ==> (a.rec.id == node.rec.id <==> a == node)
    ensures DueLogs(nodes, rows[..j + 1], a) == DueLogs(nodes, rows[..j], a) + if a == node then [rows[j]] else []
  {
    assert rows[..j + 1] == rows[..j] + [rows[j]];
    FilterExtend(rows[..j], rows[j], LogBelongsTo(a.rec.id));
    hide Filter, Indexed;
  }

  method AppendLog(nodes: seq<Account>, node: Account, n: UsageLog, ghost rows: seq<LogRow>, ghost j: nat)
    requires j < |rows| && rows[j] == n.row
    requires node in nodes && node.rec.id == n.row.accountID
    requires forall a :: a in nodes && Indexed(nodes, a) ==> (a.rec.id == n.row.accountID <==> a == node)
    requires Indexed(nodes, node)
    requires HoldLogs(nodes, rows[..j])
    modifies node`usageLogs
    ensures HoldLogs(nodes, rows[..j + 1])
  {
    hide DueLogs, Indexed, IDs, LogRows, LogsOf;
    forall a | a in nodes
      ensures DueLogs(nodes, rows[..j + 1], a) == DueLogs(nodes, rows[..j], a) + if a == node then [rows[j]] else []
    {
      DueLogsStep(nodes, rows, j, node, a);
    }
    node.usageLogs := node.usageLogs + [n];
    assert forall a :: a in nodes && a != node ==> LogRows(a.usageLogs) == LogRows(old(a.usageLogs));
    assert LogRows(node.usageLogs) == LogRows(old(node.usageLogs)) + [n.row];
  }

  lemma LogsStart(nodes: seq<Account>, logs: seq<UsageLog>, rows: seq<LogRow>, fks: seq<int>)
    requires LogRows(logs) == rows
    requires forall a :: a in nodes ==> a.usageLogs == []
    ensures HoldLogs(nodes, rows[..0]) && Handout(LogAccounts(rows)[..0], fks).Loaded?
    ensures |LogAccounts(rows)| == |rows| == |logs|
    ensures forall i :: 0 <= i < |rows| ==> LogAccounts(rows)[i] == rows[i].accountID && logs[i].row == rows[i]
  {
  }

  lemma LogsHandedOut(rows: seq<LogRow>, ids: seq<int>)
    ensures Handout(LogAccounts(rows), ids).Loaded? <==> LogsRequested(rows, ids)
  {
    HandoutMeans(LogAccounts(rows), ids);
    hide Handout;
  }

  method DistributeLogs(
    nodes: seq<Account>, neighbors: seq<UsageLog>, ghost rows: seq<LogRow>, ghost fks: seq<int>,
    nodeids: map<int, Account>)
    returns (status: LoadStatus)
    requires IsIndex(nodes, fks, nodeids)
    requires LogRows(neighbors) == rows
    requires forall a :: a in nodes ==> a.usageLogs == []
    modifies nodes`usageLogs
    ensures status == Handout(LogAccounts(rows), fks)
    ensures status.Loaded? ==> HoldLogs(nodes, rows)
  {
    hide *;
    ghost var accounts := LogAccounts(rows);
    LogsStart(nodes, neighbors, rows, fks);
    for j := 0 to |neighbors|
      invariant Handout(accounts[..j], fks).Loaded?
      invariant HoldLogs(nodes, rows[..j])
    {
      var n := neighbors[j];
      HandoutStep(accounts, fks, j);
      IndexFacts(nodes, fks, nodeids, n.row.accountID);
      if n.row.accountID !in nodeids {
        return UnexpectedForeignKey(n.row.accountID);
      }
      AppendLog(nodes, nodeids[n.row.accountID], n, rows, j);
    }
    assert rows[..|rows|] == rows && accounts[..|rows|] == accounts;
    return Loaded;
  }

  /**
   Loads the "usage_logs" edge. It fails exactly when some returned row belongs to an
   account that was not asked for, however the query selects its fields, and then names the
   first such account; otherwise each node holds its own rows in the order returned (of
   nodes with one id, only the last).
   */
  method LoadUsageLogs(nodes: seq<Account>, plan: UsageLogPlan) returns (status: LoadStatus)
    modifies nodes`usageLogs
    ensures status == Handout(LogAccounts(plan.run(IDs(nodes))), IDs(nodes))
    ensures status.Loaded? <==> LogsRequested(plan.run(IDs(nodes)), IDs(nodes))
    ensures status.Loaded? ==> HoldLogs(nodes, plan.run(IDs(nodes)))
  {
    hide *;
    var fks, nodeids := IndexByID(nodes);
    ClearLogs(nodes);
    var fields := WithKey(plan.fields, LogAccountID);
    KeySelected(plan.fields, LogID, LogAccountID);
    var rows := plan.run(fks);
    var neighbors := MaterializeLogs(rows, fields);
    LogsScannedWhole(neighbors, rows);
    LogsHandedOut(rows, fks);
    status := DistributeLogs(nodes, neighbors, rows, fks, nodeids);
  }

  // ---------- loadAccountGroups: the specification ----------

  datatype AccountGroupPlan = AccountGroupPlan(
    fields: seq<LinkColumn>,
    run: seq<int> -> seq<LinkRow>,
    withAccount: Option<seq<int> -> seq<NodeRow>>,
    withGroup: Option<seq<int> -> seq<NodeRow>>)

  function LinkBelongsTo(account: int): LinkRow -> bool {
    (r: LinkRow) => r.accountID == account
  }

  /** The rows of one account, in the order returned. */
  function LinksOf(rows: seq<LinkRow>, account: int): seq<LinkRow> {
    Filter(rows, LinkBelongsTo(account))
  }

  lemma LinksOfContents(rows: seq<LinkRow>, account: int)
    ensures forall r :: r in LinksOf(rows, account) <==> r in rows && r.accountID == account
    ensures exists at :: Picks(rows, LinkBelongsTo(account), LinksOf(rows, account), at)
  {
    FilterContents(rows, LinkBelongsTo(account), LinksOf(rows, account));
    var at := FilterPicks(rows, LinkBelongsTo(account));
    hide Filter;
  }

  function LinkRows(links: seq<AccountGroup>): (rows: seq<LinkRow>)
    ensures |rows| == |links| && forall i :: 0 <= i < |rows| ==> rows[i] == links[i].row
  {
    Map(links, (l: AccountGroup) => l.row)
  }

  function LinkAccounts(rows: seq<LinkRow>): seq<int> {
    Map(rows, (r: LinkRow) => r.accountID)
  }

  /** A row as scanned: each key only when its column is selected. */
  function ScanLink(row: LinkRow, account: bool, group: bool): LinkRow {
    LinkRow(if account then row.accountID else 0, if group then row.groupID else 0)
  }

  function ScanLinks(rows: seq<LinkRow>, account: bool, group: bool): (scanned: seq<LinkRow>)
    ensures |scanned| == |rows|
    ensures account && group ==> scanned == rows
    ensures account ==> forall i :: 0 <= i < |rows| ==> scanned[i].accountID == rows[i].accountID
  {
    seq(|rows|, i requires 0 <= i < |rows| => ScanLink(rows[i], account, group))
  }

  function GroupColumn(plan: AccountGroupPlan): bool {
    LinkGroupID in LinkColumns(WithKey(plan.fields, LinkAccountID), plan.withAccount.Some?, plan.withGroup.Some?)
  }

  /** The loader's key is always scanned, and so is that of a group that will be loaded. */
  lemma LinkKeysSelected(plan: AccountGroupPlan)
    ensures LinkAccountID in
            LinkColumns(WithKey(plan.fields, LinkAccountID), plan.withAccount.Some?, plan.withGroup.Some?)
    ensures plan.withGroup.Some? ==> GroupColumn(plan)
  {
  }

  /** The rows an account_groups query yields, under the columns it selects. */
  ghost function PlannedLinks(plan: AccountGroupPlan, ids: seq<int>): seq<LinkRow> {
    ScanLinks(plan.run(ids), true, GroupColumn(plan))
  }

  function LinkAccountKeys(rows: seq<LinkRow>): seq<Option<int>> {
    Map(rows, (r: LinkRow) => Some(r.accountID))
  }

  function LinkGroupKeys(rows: seq<LinkRow>): seq<Option<int>> {
    Map(rows, (r: LinkRow) => Some(r.groupID))
  }

  /** What an edge of the links is set to: the row that the key names, if the edge was requested. */
  ghost function LinkEdge(
    query: Option<seq<int> -> seq<NodeRow>>, keys: seq<Option<int>>, key: Option<int>): Option<NodeRow> {
    if query.None? then None else LastMatch(ReturnedRows(keys, query.value), key)
  }

  ghost function LinkedAccount(plan: AccountGroupPlan, ids: seq<int>, row: LinkRow): Option<NodeRow> {
    LinkEdge(plan.withAccount, LinkAccountKeys(PlannedLinks(plan, ids)), Some(row.accountID))
  }

  ghost function LinkedGroup(plan: AccountGroupPlan, ids: seq<int>, row: LinkRow): Option<NodeRow> {
    LinkEdge(plan.withGroup, LinkGroupKeys(PlannedLinks(plan, ids)), Some(row.groupID))
  }

  ghost predicate HoldAccounts(links: seq<AccountGroup>, plan: AccountGroupPlan, ids: seq<int>)
    reads links`account
  {
    forall i :: 0 <= i < |links| ==> RowOf(links[i].account) == LinkedAccount(plan, ids, links[i].row)
  }

  ghost predicate HoldGroups(links: seq<AccountGroup>, plan: AccountGroupPlan, ids: seq<int>)
    reads links`group
  {
    forall i :: 0 <= i < |links| ==> RowOf(links[i].group) == LinkedGroup(plan, ids, links[i].row)
  }

  /** Every row that an edge query of the links returned was asked for. */
  ghost predicate LinkEdgeAnswered(query: Option<seq<int> -> seq<NodeRow>>, keys: seq<Option<int>>) {
    query.Some? ==> Answers(ReturnedRows(keys, query.value), keys)
  }

  ghost predicate LinkEdgesAnswered(plan: AccountGroupPlan, ids: seq<int>) {
    && LinkEdgeAnswered(plan.withAccount, LinkAccountKeys(PlannedLinks(plan, ids)))
    && LinkEdgeAnswered(plan.withGroup, LinkGroupKeys(PlannedLinks(plan, ids)))
  }

  ghost predicate LinksRequested(rows: seq<LinkRow>, ids: seq<int>) {
    forall i :: 0 <= i < |rows| ==> rows[i].accountID in ids
  }

  /** What node `a` should hold: its own rows, if it is the last node with its id. */
  ghost function DueLinks(nodes: seq<Account>, rows: seq<LinkRow>, a: Account): seq<LinkRow>
    reads nodes`rec, a`rec
  {
    if Indexed(nodes, a) then LinksOf(rows, a.rec.id) else []
  }

  ghost predicate HoldLinks(nodes: seq<Account>, rows: seq<LinkRow>, links: seq<AccountGroup>)
    reads nodes`rec, nodes`accountGroups
  {
    && (forall a :: a in nodes ==>
          LinkRows(a.accountGroups) == DueLinks(nodes, rows, a))
    && (forall a, i :: a in nodes && 0 <= i < |a.accountGroups| ==> a.accountGroups[i] in links)
  }

  // ---------- AccountGroupQuery.sqlAll ----------

  method LoadAccountOfLinks(plan: AccountGroupPlan, ghost ids: seq<int>, links: seq<AccountGroup>)
    returns (status: LoadStatus)
    requires LinkRows(links) == PlannedLinks(plan, ids)
    requires forall i :: 0 <= i < |links| ==> links[i].account == null
    modifies links`account
    ensures status.Loaded? <==> LinkEdgeAnswered(plan.withAccount, LinkAccountKeys(PlannedLinks(plan, ids)))
    ensures status.Loaded? ==> HoldAccounts(links, plan, ids)
  {
    status := Loaded;
    if plan.withAccount.Some? {
      var neighbors;
      assert AccountKeys(links) == LinkAccountKeys(LinkRows(links));
      status, neighbors := LoadLinkAccount(links, plan.withAccount.value);
      if status.Loaded? {
        ghost var rows := ReturnedRows(AccountKeys(links), plan.withAccount.value);
        hide ReturnedRows, LastMatch, Resolve;
        forall i | 0 <= i < |links| ensures RowOf(links[i].account) == LinkedAccount(plan, ids, links[i].row) {
          assert links[i] in links;
          ResolveRow(neighbors, rows, links[i].AccountKey(), null);
        }
      }
    }
  }

  method LoadGroupOfLinks(plan: AccountGroupPlan, ghost ids: seq<int>, links: seq<AccountGroup>)
    returns (status: LoadStatus)
    requires LinkRows(links) == PlannedLinks(plan, ids)
    requires forall i :: 0 <= i < |links| ==> links[i].group == null
    modifies links`group
    ensures status.Loaded? <==> LinkEdgeAnswered(plan.withGroup, LinkGroupKeys(PlannedLinks(plan, ids)))
    ensures status.Loaded? ==> HoldGroups(links, plan, ids)
  {
    status := Loaded;
    if plan.withGroup.Some? {
      var neighbors;
      assert GroupKeys(links) == LinkGroupKeys(LinkRows(links));
      status, neighbors := LoadLinkGroup(links, plan.withGroup.value);
      if status.Loaded? {
        ghost var rows := ReturnedRows(GroupKeys(links), plan.withGroup.value);
        hide ReturnedRows, LastMatch, Resolve;
        forall i | 0 <= i < |links| ensures RowOf(links[i].group) == LinkedGroup(plan, ids, links[i].row) {
          assert links[i] in links;
          ResolveRow(neighbors, rows, links[i].GroupKey(), null);
        }
      }
    }
  }

  /** The scan callbacks: one entity for each row, under the columns selected. */
  method ScanLinkRows(plan: AccountGroupPlan, ids: seq<int>) returns (links: seq<AccountGroup>)
    ensures LinkRows(links) == PlannedLinks(plan, ids)
    ensures forall i :: 0 <= i < |links| ==> fresh(links[i]) && links[i].account == null && links[i].group == null
    ensures forall i :: 0 <= i < |links| ==>
      links[i].accountRequested == plan.withAccount.Some? && links[i].groupRequested == plan.withGroup.Some?
  {
    var rows := plan.run(ids);
    var columns := QueryLinkColumns(WithKey(plan.fields, LinkAccountID), plan.withAccount.Some?, plan.withGroup.Some?);
    LinkKeysSelected(plan);
    var group := LinkGroupID in columns;
    assert LinkAccountID in columns;
    links := [];
    hide LinkColumns, WithKey;
    for i := 0 to |rows|
      invariant |links| == i
      invariant forall k :: 0 <= k < i ==> links[k].row == ScanLink(rows[k], true, group)
      invariant forall k :: 0 <= k < i ==> fresh(links[k]) && links[k].account == null && links[k].group == null
      invariant forall k :: 0 <= k < i ==>
        links[k].accountRequested == plan.withAccount.Some? && links[k].groupRequested == plan.withGroup.Some?
    {
      var l := new AccountGroup(
        ScanLink(rows[i], LinkAccountID in columns, group), plan.withAccount.Some?, plan.withGroup.Some?);
      links := links + [l];
    }
  }

  /**
   AccountGroupQuery.sqlAll: the rows, and with them the account and the group of each, as
   far as they were asked for. It fails exactly when an edge query returned a row that was
   not asked for.
   */
  method AllLinks(plan: AccountGroupPlan, ids: seq<int>) returns (status: LoadStatus, links: seq<AccountGroup>)
    ensures LinkRows(links) == PlannedLinks(plan, ids)
    ensures forall i :: 0 <= i < |links| ==> fresh(links[i])
    ensures forall i :: 0 <= i < |links| ==>
      links[i].accountRequested == plan.withAccount.Some? && links[i].groupRequested == plan.withGroup.Some?
    ensures status.Loaded? <==> LinkEdgesAnswered(plan, ids)
    ensures status.Loaded? ==> HoldAccounts(links, plan, ids) && HoldGroups(links, plan, ids)
  {
    hide PlannedLinks, LinkRows, HoldAccounts, HoldGroups, LinkEdgeAnswered, LinkAccountKeys, LinkGroupKeys;
    links := ScanLinkRows(plan, ids);
    status := LoadAccountOfLinks(plan, ids, links);
    if status.Loaded? {
      status := LoadGroupOfLinks(plan, ids, links);
    }
  }

  // ---------- loadAccountGroups ----------

  method ClearLinks(nodes: seq<Account>)
    modifies nodes`accountGroups
    ensures forall a :: a in nodes ==> a.accountGroups == []
  {
    for i := 0 to |nodes|
      invariant forall k :: 0 <= k < i ==> nodes[k].accountGroups == []
    {
      nodes[i].accountGroups := [];
    }
  }

  lemma DueLinksStep(nodes: seq<Account>, rows: seq<LinkRow>, j: nat, node: Account, a: Account)
    requires j < |rows| && node in nodes && a in nodes && Indexed(nodes, node) && rows[j].accountID == node.rec.id
    requires forall a :: a in nodes && Indexed(nodes, a) ==> (a.rec.id == node.rec.id <==> a == node)
    ensures DueLinks(nodes, rows[..j + 1], a) == DueLinks(nodes, rows[..j], a) + if a == node then [rows[j]] else []
  {
    assert rows[..j + 1] == rows[..j] + [rows[j]];
    FilterExtend(rows[..j], rows[j], LinkBelongsTo(a.rec.id));
    hide Filter, Indexed;
  }

  method AppendLink(
    nodes: seq<Account>, node: Account, n: AccountGroup, ghost rows: seq<LinkRow>,
    ghost links: seq<AccountGroup>, ghost j: nat)
    requires j < |rows| && n in links && rows[j] == n.row
    requires node in nodes && node.rec.id == n.row.accountID
    requires forall a :: a in nodes && Indexed(nodes, a) ==> (a.rec.id == n.row.accountID <==> a == node)
    requires Indexed(nodes, node)
    requires HoldLinks(nodes, rows[..j], links)
    modifies node`accountGroups
    ensures HoldLinks(nodes, rows[..j + 1], links)
  {
    hide DueLinks, Indexed, IDs, LinkRows, LinksOf;
    forall a | a in nodes
      ensures DueLinks(nodes, rows[..j + 1], a) == DueLinks(nodes, rows[..j], a) + if a == node then [rows[j]] else []
    {
      DueLinksStep(nodes, rows, j, node, a);
    }
    node.accountGroups := node.accountGroups + [n];
    assert forall a :: a in nodes && a != node ==> LinkRows(a.accountGroups) == LinkRows(old(a.accountGroups));
    assert LinkRows(node.accountGroups) == LinkRows(old(node.accountGroups)) + [n.row];
  }

  lemma LinksStart(nodes: seq<Account>, links: seq<AccountGroup>, rows: seq<LinkRow>, fks: seq<int>)
    requires LinkRows(links) == rows
    requires forall a :: a in nodes ==> a.accountGroups == []
    ensures HoldLinks(nodes, rows[..0], links) && Handout(LinkAccounts(rows)[..0], fks).Loaded?
    ensures |LinkAccounts(rows)| == |rows| == |links|
    ensures forall i :: 0 <= i < |rows| ==> LinkAccounts(rows)[i] == rows[i].accountID && links[i].row == rows[i]
  {
  }

  lemma LinksHandedOut(rows: seq<LinkRow>, ids: seq<int>)
    ensures Handout(LinkAccounts(rows), ids).Loaded? <==> LinksRequested(rows, ids)
  {
    HandoutMeans(LinkAccounts(rows), ids);
    hide Handout;
  }

  method DistributeLinks(
    nodes: seq<Account>, neighbors: seq<AccountGroup>, ghost rows: seq<LinkRow>, ghost fks: seq<int>,
    nodeids: map<int, Account>)
    returns (status: LoadStatus)
    requires IsIndex(nodes, fks, nodeids)
    requires LinkRows(neighbors) == rows
    requires forall a :: a in nodes ==> a.accountGroups == []
    modifies nodes`accountGroups
    ensures status == Handout(LinkAccounts(rows), fks)
    ensures status.Loaded? ==> HoldLinks(nodes, rows, neighbors)
  {
    hide *;
    ghost var accounts := LinkAccounts(rows);
    LinksStart(nodes, neighbors, rows, fks);
    for j := 0 to |neighbors|
      invariant Handout(accounts[..j], fks).Loaded?
      invariant HoldLinks(nodes, rows[..j], neighbors)
    {
      var n := neighbors[j];
      HandoutStep(accounts, fks, j);
      IndexFacts(nodes, fks, nodeids, n.row.accountID);
      if n.row.accountID !in nodeids {
        return UnexpectedForeignKey(n.row.accountID);
      }
      AppendLink(nodes, nodeids[n.row.accountID], n, rows, neighbors, j);
    }
    assert rows[..|rows|] == rows && accounts[..|rows|] == accounts;
    return Loaded;
  }

  /**
   Loads the "account_groups" edge, and the account and the group of each row if the plan
   asks for them. It fails exactly when a returned row belongs to an account that was not
   asked for, or an edge query of the rows returned one that was not; otherwise each node
   holds its own rows in the order returned.
   */
  method LoadAccountGroups(nodes: seq<Account>, plan: AccountGroupPlan)
    returns (status: LoadStatus, links: seq<AccountGroup>)
    modifies nodes`accountGroups
    ensures LinkEdgesAnswered(plan, IDs(nodes)) ==>
      status == Handout(LinkAccounts(PlannedLinks(plan, IDs(nodes))), IDs(nodes))
    ensures status.Loaded? <==>
      LinksRequested(PlannedLinks(plan, IDs(nodes)), IDs(nodes)) && LinkEdgesAnswered(plan, IDs(nodes))
    ensures LinkRows(links) == PlannedLinks(plan, IDs(nodes))
    ensures forall i :: 0 <= i < |links| ==> fresh(links[i])
    ensures forall i :: 0 <= i < |links| ==>
      links[i].accountRequested == plan.withAccount.Some? && links[i].groupRequested == plan.withGroup.Some?
    ensures status.Loaded? ==> HoldLinks(nodes, PlannedLinks(plan, IDs(nodes)), links)
    ensures status.Loaded? ==> HoldAccounts(links, plan, IDs(nodes)) && HoldGroups(links, plan, IDs(nodes))
  {
    hide *;
    var fks, nodeids := IndexByID(nodes);
    ClearLinks(nodes);
    status, links := AllLinks(plan, fks);
    if status.Loaded? {
      LinksHandedOut(PlannedLinks(plan, fks), fks);
      status := DistributeLinks(nodes, links, PlannedLinks(plan, fks), fks, nodeids);
    }
  }
}
