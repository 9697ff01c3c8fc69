/**
 AccountQuery.sqlAll of backend/ent/account_query.go: decode the rows of the main query
 and load the requested edges. `NodeOf` is what each node should then show, stated on the
 rows alone.
 */
module AccountLoading {
  import opened Common
  import opened GroupJoin
  import opened RowCodec
  import opened Entities
  import opened Projection
  import opened EagerLoading
  import opened ToOneLoading
  import opened ToManyLoading

  type IDQuery = seq<int> -> seq<NodeRow>

  /** An account query: its selected fields, the rows of its own query, and its edge queries. */
  datatype AccountPlan = AccountPlan(
    fields: seq<Column>,
    rows: seq<Row>,
    withGroups: Option<seq<int> -> seq<JoinRow>>,
    withProxy: Option<IDQuery>,
    withOwner: Option<IDQuery>,
    withUsageLogs: Option<UsageLogPlan>,
    withAccountGroups: Option<AccountGroupPlan>)

  datatype QueryStatus =
    | Success
    | ScanFailed
    | DecodeFailed
    | EdgeFailed(edge: LoadStatus)

  function Requests(plan: AccountPlan): LoadedTypes {
    LoadedTypes(
      plan.withGroups.Some?, plan.withProxy.Some?, plan.withOwner.Some?,
      plan.withUsageLogs.Some?, plan.withAccountGroups.Some?)
  }

  function SelectedColumns(plan: AccountPlan): seq<Column> {
    AccountColumns(plan.fields, plan.withProxy.Some?, plan.withOwner.Some?)
  }

  // ---------- what the rows say, whatever is selected ----------

  /** An integer cell of a row; NULL has no value. */
  function RowKey(row: Row, c: Column): Option<int> {
    if row(c).IntCell? then Some(row(c).i) else None
  }

  function RowID(row: Row): int {
    if row(ID).IntCell? then row(ID).i else 0
  }

  function RowIDs(rows: seq<Row>): (ids: seq<int>)
    ensures |ids| == |rows| && forall i :: 0 <= i < |rows| ==> ids[i] == RowID(rows[i])
  {
    if rows == [] then [] else RowIDs(rows[..|rows| - 1]) + [RowID(rows[|rows| - 1])]
  }

  function RowKeys(rows: seq<Row>, c: Column): (keys: seq<Option<int>>)
    ensures |keys| == |rows| && forall i :: 0 <= i < |rows| ==> keys[i] == RowKey(rows[i], c)
  {
    if rows == [] then [] else RowKeys(rows[..|rows| - 1], c) + [RowKey(rows[|rows| - 1], c)]
  }

  lemma FieldCell(rec: AccountRecord, row: Row, json: JsonCodec, c: Column)
    requires c.ID? || c.ProxyID? || c.OwnerUserID?
    ensures DecodedField(c, row, json) == Some(Field(rec, c)) ==>
      match c
      case ID => rec.id == RowID(row)
      case ProxyID => rec.proxyID == RowKey(row, ProxyID)
      case OwnerUserID => rec.ownerUserID == RowKey(row, OwnerUserID)
      case _ => true
  {
    match c {
      case ID =>
      case ProxyID =>
      case OwnerUserID =>
      case _ =>
    }
  }

  /** The id and the loaded keys of a decoded entity are those of its row. */
  lemma DecodedKeys(plan: AccountPlan, row: Row, json: JsonCodec)
    requires Scannable(SelectedColumns(plan), row) && DecodeRow(SelectedColumns(plan), row, json).Done?
    ensures
      var rec := DecodeRow(SelectedColumns(plan), row, json).value;
      && rec.id == RowID(row)
      && (plan.withProxy.Some? ==> rec.proxyID == RowKey(row, ProxyID))
      && (plan.withOwner.Some? ==> rec.ownerUserID == RowKey(row, OwnerUserID))
  {
    var columns := SelectedColumns(plan);
    AccountColumnsSound(plan.fields, plan.withProxy.Some?, plan.withOwner.Some?);
    assert columns[0] in columns;
    hide AccountColumns, DecodeRow;
    var rec := DecodeRow(columns, row, json).value;
    ProjectionIndependent(columns, row, json, ID);
    ProjectionIndependent(columns, row, json, ProxyID);
    ProjectionIndependent(columns, row, json, OwnerUserID);
    FieldCell(rec, row, json, ID);
    FieldCell(rec, row, json, ProxyID);
    FieldCell(rec, row, json, OwnerUserID);
  }

  // ---------- the main query ----------

  /** A row can be scanned and decoded under the selected columns. */
  ghost predicate ReadableRow(plan: AccountPlan, row: Row, json: JsonCodec) {
    Scannable(SelectedColumns(plan), row) && DecodeRow(SelectedColumns(plan), row, json).Done?
  }

  ghost predicate Readable(plan: AccountPlan, json: JsonCodec) {
    forall i :: 0 <= i < |plan.rows| ==> ReadableRow(plan, plan.rows[i], json)
  }

  ghost predicate DecodedNode(rec: AccountRecord, requests: LoadedTypes, plan: AccountPlan, row: Row, json: JsonCodec) {
    && ReadableRow(plan, row, json) && DecodeRow(SelectedColumns(plan), row, json) == Done(rec)
    && rec.id == RowID(row)
    && (plan.withProxy.Some? ==> rec.proxyID == RowKey(row, ProxyID))
    && (plan.withOwner.Some? ==> rec.ownerUserID == RowKey(row, OwnerUserID))
    && requests == Requests(plan)
  }

  /** The nodes are the rows, decoded. */
  ghost predicate DecodedFrom(nodes: seq<Account>, plan: AccountPlan, json: JsonCodec)
    reads nodes`rec
  {
    && |nodes| == |plan.rows|
    && forall i :: 0 <= i < |nodes| ==> DecodedNode(nodes[i].rec, nodes[i].loadedTypes, plan, plan.rows[i], json)
  }

  ghost predicate NoEdges(nodes: seq<Account>)
    reads nodes
  {
    forall a :: a in nodes ==>
      a.groups == [] && a.proxy == null && a.owner == null && a.usageLogs == [] && a.accountGroups == []
  }

  lemma DecodedRow(rec: AccountRecord, requests: LoadedTypes, plan: AccountPlan, row: Row, json: JsonCodec)
    requires Scannable(SelectedColumns(plan), row) && DecodeRow(SelectedColumns(plan), row, json) == Done(rec)
    requires requests == Requests(plan)
    ensures DecodedNode(rec, requests, plan, row, json)
  {
    DecodedKeys(plan, row, json);
  }

  /** The scan callbacks of sqlAll on one row. */
  method DecodeNode(plan: AccountPlan, columns: seq<Column>, row: Row, json: JsonCodec)
    returns (status: QueryStatus, node: Account)
    requires columns == SelectedColumns(plan)
    ensures fresh(node)
    ensures status.Success? || status.ScanFailed? || status.DecodeFailed?
    ensures status.Success? <==> ReadableRow(plan, row, json)
    ensures status.Success? ==> DecodedNode(node.rec, node.loadedTypes, plan, row, json)
    ensures NoEdges([node])
  {
    hide AccountColumns, DecodedNode, AssignAll;
    node := new Account(Requests(plan));
    if !Scannable(columns, row) {
      return ScanFailed, node;
    }
    var d := node.AssignValues(columns, ScanRow(columns, row), json);
    if !d.Done? {
      return DecodeFailed, node;
    }
    DecodedRow(node.rec, node.loadedTypes, plan, row, json);
    return Success, node;
  }

  method QueryNodes(plan: AccountPlan, json: JsonCodec) returns (status: QueryStatus, nodes: seq<Account>)
    ensures status.Success? || status.ScanFailed? || status.DecodeFailed?
    ensures status.Success? <==> Readable(plan, json)
    ensures status.Success? ==> DecodedFrom(nodes, plan, json)
    ensures NoEdges(nodes)
    ensures forall i :: 0 <= i < |nodes| ==> fresh(nodes[i])
    ensures NoDuplicates(nodes)
  {
    var columns := QueryAccountColumns(plan.fields, plan.withProxy.Some?, plan.withOwner.Some?);
    nodes := [];
    hide DecodedNode, ReadableRow, AccountColumns;
    for i := 0 to |plan.rows|
      invariant |nodes| == i
      invariant forall k :: 0 <= k < i ==> ReadableRow(plan, plan.rows[k], json)
      invariant forall k :: 0 <= k < i ==> DecodedNode(nodes[k].rec, nodes[k].loadedTypes, plan, plan.rows[k], json)
      invariant NoEdges(nodes) && NoDuplicates(nodes)
      invariant forall k :: 0 <= k < i ==> fresh(nodes[k])
    {
      var node;
      status, node := DecodeNode(plan, columns, plan.rows[i], json);
      if !status.Success? {
        return;
      }
      assert node in [node];
      nodes := nodes + [node];
    }
    return Success, nodes;
  }

  // ---------- what a node shows ----------

  function ShownRow(e: EdgeResult<Neighbor>): EdgeResult<NodeRow> {
    match e
    case Value(n) => Value(n.row)
    case NotFound => NotFound
    case NotLoaded => NotLoaded
  }

  datatype LinkShown = LinkShown(row: LinkRow, account: EdgeResult<NodeRow>, group: EdgeResult<NodeRow>)

  /** A node as its caller sees it: its fields, its lists, and what the accessors of its to-one edges return. */
  datatype NodeShown = NodeShown(
    rec: AccountRecord, loadedTypes: LoadedTypes, groups: seq<NodeRow>, proxy: EdgeResult<NodeRow>,
    owner: EdgeResult<NodeRow>, usageLogs: seq<LogRow>, accountGroups: seq<LinkShown>)

  ghost function ShownLink(l: AccountGroup): LinkShown
    reads l
  {
    LinkShown(l.row, ShownRow(l.AccountOrErr()), ShownRow(l.GroupOrErr()))
  }

  ghost function ShownLinks(links: seq<AccountGroup>): (shown: seq<LinkShown>)
    reads links
    ensures |shown| == |links| && forall i :: 0 <= i < |links| ==> shown[i] == ShownLink(links[i])
  {
    seq(|links|, i requires 0 <= i < |links| reads links => assert links[i] in links; ShownLink(links[i]))
  }

  ghost function Shown(a: Account): NodeShown
    reads a, a.accountGroups
  {
    NodeShown(a.rec, a.loadedTypes, NeighborRows(a.groups), ShownRow(a.ProxyOrErr()), ShownRow(a.OwnerOrErr()),
              LogRows(a.usageLogs), ShownLinks(a.accountGroups))
  }

  // ---------- what it should show ----------

  function EdgeResultOf(requested: bool, found: Option<NodeRow>): EdgeResult<NodeRow> {
    if !requested then NotLoaded else if found.Some? then Value(found.value) else NotFound
  }

  /** The row that a to-one edge is set to: the returned row with the node's key, if there is one. */
  ghost function ToOneRow(query: Option<IDQuery>, rows: seq<Row>, c: Column, i: int): Option<NodeRow>
    requires 0 <= i < |rows|
  {
    if query.None? then None else LastMatch(ReturnedRows(RowKeys(rows, c), query.value), RowKey(rows[i], c))
  }

  ghost function ToOneEdge(query: Option<IDQuery>, rows: seq<Row>, c: Column, i: int): EdgeResult<NodeRow>
    requires 0 <= i < |rows|
  {
    EdgeResultOf(query.Some?, ToOneRow(query, rows, c, i))
  }

  ghost function GroupsOf(plan: AccountPlan, i: int): seq<NodeRow>
    requires 0 <= i < |plan.rows|
  {
    if plan.withGroups.None? || !LastAt(RowIDs(plan.rows), i) then []
    else EdgeOf(plan.withGroups.value(RowIDs(plan.rows)), RowID(plan.rows[i]))
  }

  ghost function UsageLogsOf(plan: AccountPlan, i: int): seq<LogRow>
    requires 0 <= i < |plan.rows|
  {
    if plan.withUsageLogs.None? || !LastAt(RowIDs(plan.rows), i) then []
    else LogsOf(plan.withUsageLogs.value.run(RowIDs(plan.rows)), RowID(plan.rows[i]))
  }

  ghost function LinkOf(p: AccountGroupPlan, ids: seq<int>, row: LinkRow): LinkShown {
    LinkShown(row,
      EdgeResultOf(p.withAccount.Some?, LinkedAccount(p, ids, row)),
      EdgeResultOf(p.withGroup.Some?, LinkedGroup(p, ids, row)))
  }

  ghost function LinksFor(p: AccountGroupPlan, ids: seq<int>, rows: seq<LinkRow>): (links: seq<LinkShown>)
    ensures |links| == |rows| && forall i :: 0 <= i < |rows| ==> links[i] == LinkOf(p, ids, rows[i])
  {
    seq(|rows|, i requires 0 <= i < |rows| => LinkOf(p, ids, rows[i]))
  }

  ghost function AccountGroupsOf(plan: AccountPlan, i: int): seq<LinkShown>
    requires 0 <= i < |plan.rows|
  {
    if plan.withAccountGroups.None? || !LastAt(RowIDs(plan.rows), i) then []
    else
      var p, ids := plan.withAccountGroups.value, RowIDs(plan.rows);
      LinksFor(p, ids, LinksOf(PlannedLinks(p, ids), RowID(plan.rows[i])))
  }

  /** What node i should show: its row, decoded, and its requested edges; edges not requested are empty. */
  ghost function NodeOf(plan: AccountPlan, json: JsonCodec, i: int): NodeShown
    requires 0 <= i < |plan.rows| && ReadableRow(plan, plan.rows[i], json)
  {
    NodeShown(
      DecodeRow(SelectedColumns(plan), plan.rows[i], json).value, Requests(plan), GroupsOf(plan, i),
      ToOneEdge(plan.withProxy, plan.rows, ProxyID, i), ToOneEdge(plan.withOwner, plan.rows, OwnerUserID, i),
      UsageLogsOf(plan, i), AccountGroupsOf(plan, i))
  }

  ghost function LinksBelow(nodes: seq<Account>): set<AccountGroup>
    reads nodes`accountGroups
  {
    set a, l | a in nodes && l in a.accountGroups :: l
  }

  ghost predicate OwnLinks(nodes: seq<Account>, i: int)
    requires 0 <= i < |nodes|
    reads nodes`accountGroups
    ensures OwnLinks(nodes, i)
  {
    var a := nodes[i];
    a in nodes && forall l :: l in a.accountGroups ==> l in LinksBelow(nodes)
  }

  ghost predicate Eager(nodes: seq<Account>, plan: AccountPlan, json: JsonCodec)
    reads nodes, LinksBelow(nodes)
  {
    && Readable(plan, json) && |nodes| == |plan.rows|
    && forall i :: 0 <= i < |nodes| ==>
      assert OwnLinks(nodes, i); Shown(nodes[i]) == NodeOf(plan, json, i)
  }

  // ---------- the five steps ----------

  /** A to-one edge was answered: every row its query returned was asked for. */
  ghost predicate ToOneAnswered(query: Option<IDQuery>, keys: seq<Option<int>>) {
    query.Some? ==> Answers(ReturnedRows(keys, query.value), keys)
  }

  ghost predicate GroupsRequested(plan: AccountPlan) {
    plan.withGroups.Some? ==> Requested(plan.withGroups.value(RowIDs(plan.rows)), RowIDs(plan.rows))
  }

  ghost predicate UsageLogsRequested(plan: AccountPlan) {
    plan.withUsageLogs.Some? ==> LogsRequested(plan.withUsageLogs.value.run(RowIDs(plan.rows)), RowIDs(plan.rows))
  }

  ghost predicate AccountGroupsRequested(plan: AccountPlan) {
    plan.withAccountGroups.Some? ==>
      var p := plan.withAccountGroups.value;
      && LinksRequested(PlannedLinks(p, RowIDs(plan.rows)), RowIDs(plan.rows))
      && LinkEdgesAnswered(p, RowIDs(plan.rows))
  }

  /** Every row returned by an edge query was asked for. */
  ghost predicate EdgesAnswered(plan: AccountPlan) {
    && GroupsRequested(plan)
    && ToOneAnswered(plan.withProxy, RowKeys(plan.rows, ProxyID))
    && ToOneAnswered(plan.withOwner, RowKeys(plan.rows, OwnerUserID))
    && UsageLogsRequested(plan)
    && AccountGroupsRequested(plan)
  }

  ghost predicate HoldRequestedGroups(nodes: seq<Account>, plan: AccountPlan)
    reads nodes`rec, nodes`groups
  {
    |nodes| == |plan.rows| && forall i :: 0 <= i < |nodes| ==> NeighborRows(nodes[i].groups) == GroupsOf(plan, i)
  }

  ghost predicate HoldProxies(nodes: seq<Account>, plan: AccountPlan)
    reads nodes`proxy
  {
    |nodes| == |plan.rows| && forall i :: 0 <= i < |nodes| ==>
      RowOf(nodes[i].proxy) == ToOneRow(plan.withProxy, plan.rows, ProxyID, i)
  }

  ghost predicate HoldOwners(nodes: seq<Account>, plan: AccountPlan)
    reads nodes`owner
  {
    |nodes| == |plan.rows| && forall i :: 0 <= i < |nodes| ==>
      RowOf(nodes[i].owner) == ToOneRow(plan.withOwner, plan.rows, OwnerUserID, i)
  }

  ghost predicate HoldRequestedLogs(nodes: seq<Account>, plan: AccountPlan)
    reads nodes`rec, nodes`usageLogs
  {
    |nodes| == |plan.rows| && forall i :: 0 <= i < |nodes| ==> LogRows(nodes[i].usageLogs) == UsageLogsOf(plan, i)
  }

  ghost predicate HoldRequestedLinks(nodes: seq<Account>, plan: AccountPlan)
    reads nodes`accountGroups, LinksBelow(nodes)
  {
    |nodes| == |plan.rows| && forall i :: 0 <= i < |nodes| ==>
      assert OwnLinks(nodes, i); ShownLinks(nodes[i].accountGroups) == AccountGroupsOf(plan, i)
  }

  /** The nodes are distinct objects with the ids of the rows, in order. */
  ghost predicate InOrder(nodes: seq<Account>, plan: AccountPlan)
    reads nodes`rec
  {
    NoDuplicates(nodes) && |nodes| == |plan.rows| && IDs(nodes) == RowIDs(plan.rows)
  }

  lemma DecodedInOrder(nodes: seq<Account>, plan: AccountPlan, json: JsonCodec)
    requires NoDuplicates(nodes) && DecodedFrom(nodes, plan, json)
    ensures InOrder(nodes, plan) && |nodes| == |plan.rows|
    ensures plan.withProxy.Some? ==> ProxyKeys(nodes) == RowKeys(plan.rows, ProxyID)
    ensures plan.withOwner.Some? ==> OwnerKeys(nodes) == RowKeys(plan.rows, OwnerUserID)
  {
    hide ReadableRow, DecodeRow, SelectedColumns;
  }

  /** A node is the indexed one of its id exactly when its row is the last with that id. */
  lemma IndexedByRow(nodes: seq<Account>, plan: AccountPlan, i: int)
    requires InOrder(nodes, plan) && 0 <= i < |nodes|
    ensures Indexed(nodes, nodes[i]) <==> LastAt(RowIDs(plan.rows), i)
    ensures nodes[i] in nodes && nodes[i].rec.id == RowID(plan.rows[i])
  {
    hide RowID;
    if Indexed(nodes, nodes[i]) {
      var k :| LastAt(IDs(nodes), k) && nodes[k] == nodes[i];
      assert k == i;
    }
  }

  method LoadRequestedGroups(nodes: seq<Account>, plan: AccountPlan) returns (status: LoadStatus)
    requires InOrder(nodes, plan) && forall a :: a in nodes ==> a.groups == []
    modifies nodes`groups
    ensures status.Loaded? <==> GroupsRequested(plan)
    ensures status.Loaded? ==> HoldRequestedGroups(nodes, plan)
  {
    hide Requested, IDs, RowIDs, EdgeOf, Indexed, NoDuplicates, LastAt;
    status := Loaded;
    if plan.withGroups.Some? {
      var neighbors;
      status, neighbors := LoadGroups(nodes, plan.withGroups.value);
    }
    forall i | 0 <= i < |nodes| && status.Loaded? ensures NeighborRows(nodes[i].groups) == GroupsOf(plan, i) {
      IndexedByRow(nodes, plan, i);
    }
  }

  method LoadRequestedProxy(nodes: seq<Account>, plan: AccountPlan) returns (status: LoadStatus)
    requires |nodes| == |plan.rows| && forall a :: a in nodes ==> a.proxy == null
    requires plan.withProxy.Some? ==> ProxyKeys(nodes) == RowKeys(plan.rows, ProxyID)
    modifies nodes`proxy
    ensures status.Loaded? <==> ToOneAnswered(plan.withProxy, RowKeys(plan.rows, ProxyID))
    ensures status.Loaded? ==> HoldProxies(nodes, plan)
  {
    hide LastMatch, Resolve, ReturnedRows, Answers, Handout;
    status := Loaded;
    if plan.withProxy.Some? {
      var neighbors;
      status, neighbors := LoadProxy(nodes, plan.withProxy.value);
      ghost var rows := ReturnedRows(RowKeys(plan.rows, ProxyID), plan.withProxy.value);
      forall i | 0 <= i < |nodes| && status.Loaded?
        ensures RowOf(nodes[i].proxy) == LastMatch(rows, RowKey(plan.rows[i], ProxyID))
      {
        assert nodes[i] in nodes;
        ResolveRow(neighbors, rows, nodes[i].rec.proxyID, null);
      }
    }
  }

  method LoadRequestedOwner(nodes: seq<Account>, plan: AccountPlan) returns (status: LoadStatus)
    requires |nodes| == |plan.rows| && forall a :: a in nodes ==> a.owner == null
    requires plan.withOwner.Some? ==> OwnerKeys(nodes) == RowKeys(plan.rows, OwnerUserID)
    modifies nodes`owner
    ensures status.Loaded? <==> ToOneAnswered(plan.withOwner, RowKeys(plan.rows, OwnerUserID))
    ensures status.Loaded? ==> HoldOwners(nodes, plan)
  {
    hide LastMatch, Resolve, ReturnedRows, Answers, Handout;
    status := Loaded;
    if plan.withOwner.Some? {
      var neighbors;
      status, neighbors := LoadOwner(nodes, plan.withOwner.value);
      ghost var rows := ReturnedRows(RowKeys(plan.rows, OwnerUserID), plan.withOwner.value);
      forall i | 0 <= i < |nodes| && status.Loaded?
        ensures RowOf(nodes[i].owner) == LastMatch(rows, RowKey(plan.rows[i], OwnerUserID))
      {
        assert nodes[i] in nodes;
        ResolveRow(neighbors, rows, nodes[i].rec.ownerUserID, null);
      }
    }
  }

  method LoadRequestedLogs(nodes: seq<Account>, plan: AccountPlan) returns (status: LoadStatus)
    requires InOrder(nodes, plan) && forall a :: a in nodes ==> a.usageLogs == []
    modifies nodes`usageLogs
    ensures status.Loaded? <==> UsageLogsRequested(plan)
    ensures status.Loaded? ==> HoldRequestedLogs(nodes, plan)
  {
    hide LogsRequested, IDs, RowIDs, LogsOf, Indexed, NoDuplicates, LastAt, Handout;
    status := Loaded;
    if plan.withUsageLogs.Some? {
      status := LoadUsageLogs(nodes, plan.withUsageLogs.value);
    }
    forall i | 0 <= i < |nodes| && status.Loaded? ensures LogRows(nodes[i].usageLogs) == UsageLogsOf(plan, i) {
      IndexedByRow(nodes, plan, i);
    }
  }

  lemma LinkShownAt(l: AccountGroup, p: AccountGroupPlan, ids: seq<int>)
    requires RowOf(l.account) == LinkedAccount(p, ids, l.row) && RowOf(l.group) == LinkedGroup(p, ids, l.row)
    requires l.accountRequested == p.withAccount.Some? && l.groupRequested == p.withGroup.Some?
    ensures ShownLink(l) == LinkOf(p, ids, l.row)
  {
    hide LastMatch, ReturnedRows, LinkAccountKeys, LinkGroupKeys, PlannedLinks;
  }

  /** A node that holds its links shows them, each with the edges that were requested. */
  lemma LinksShown(nodes: seq<Account>, p: AccountGroupPlan, ids: seq<int>, links: seq<AccountGroup>, a: Account)
    requires HoldLinks(nodes, PlannedLinks(p, ids), links) && a in nodes
    requires HoldAccounts(links, p, ids) && HoldGroups(links, p, ids)
    requires forall i :: 0 <= i < |links| ==>
      links[i].accountRequested == p.withAccount.Some? && links[i].groupRequested == p.withGroup.Some?
    ensures ShownLinks(a.accountGroups) ==
            if Indexed(nodes, a) then LinksFor(p, ids, LinksOf(PlannedLinks(p, ids), a.rec.id)) else []
  {
    hide Indexed, LinksOf, PlannedLinks, LinkedAccount, LinkedGroup;
    var mine := a.accountGroups;
    assert LinkRows(mine) == DueLinks(nodes, PlannedLinks(p, ids), a);
    forall k | 0 <= k < |mine| ensures ShownLink(mine[k]) == LinkOf(p, ids, mine[k].row) {
      assert mine[k] in links;
      var j :| 0 <= j < |links| && links[j] == mine[k];
      LinkShownAt(links[j], p, ids);
    }
  }

  method LoadRequestedLinks(nodes: seq<Account>, plan: AccountPlan) returns (status: LoadStatus)
    requires InOrder(nodes, plan) && forall a :: a in nodes ==> a.accountGroups == []
    modifies nodes`accountGroups
    ensures status.Loaded? <==> AccountGroupsRequested(plan)
    ensures status.Loaded? ==> HoldRequestedLinks(nodes, plan)
  {
    hide LinksRequested, LinkEdgesAnswered, IDs, RowIDs, Indexed, NoDuplicates, LastAt, Handout, HoldLinks,
      HoldAccounts, HoldGroups, LinksOf, PlannedLinks;
    status := Loaded;
    var links: seq<AccountGroup> := [];
    if plan.withAccountGroups.Some? {
      status, links := LoadAccountGroups(nodes, plan.withAccountGroups.value);
    }
    forall i | 0 <= i < |nodes| && status.Loaded?
      ensures ShownLinks(nodes[i].accountGroups) == AccountGroupsOf(plan, i)
    {
      IndexedByRow(nodes, plan, i);
      if plan.withAccountGroups.Some? {
        LinksShown(nodes, plan.withAccountGroups.value, RowIDs(plan.rows), links, nodes[i]);
      }
    }
  }

  // ---------- sqlAll ----------

  lemma NoEdgesMeans(nodes: seq<Account>)
    requires NoEdges(nodes)
    ensures forall a :: a in nodes ==>
      a.groups == [] && a.proxy == null && a.owner == null && a.usageLogs == [] && a.accountGroups == []
  {
  }

  lemma ToOneShown(n: Neighbor?, requested: bool, found: Option<NodeRow>)
    requires RowOf(n) == found && (found.Some? ==> requested)
    ensures EdgeResultOf(requested, found) ==
            if n != null then Value(n.row) else if requested then NotFound else NotLoaded
  {
  }

  /** The edges of the five steps, together. */
  lemma AllShown(nodes: seq<Account>, plan: AccountPlan, json: JsonCodec)
    requires DecodedFrom(nodes, plan, json)
    requires HoldRequestedGroups(nodes, plan) && HoldProxies(nodes, plan) && HoldOwners(nodes, plan)
    requires HoldRequestedLogs(nodes, plan) && HoldRequestedLinks(nodes, plan)
    ensures Eager(nodes, plan, json)
  {
    hide DecodeRow, SelectedColumns, Scannable, GroupsOf, UsageLogsOf, AccountGroupsOf, NeighborRows, LogRows,
      ShownLinks, ReadableRow;
    forall i | 0 <= i < |nodes|
      ensures ReadableRow(plan, plan.rows[i], json) && Shown(nodes[i]) == NodeOf(plan, json, i)
    {
      ToOneShown(nodes[i].proxy, nodes[i].loadedTypes.proxy, ToOneRow(plan.withProxy, plan.rows, ProxyID, i));
      ToOneShown(nodes[i].owner, nodes[i].loadedTypes.owner, ToOneRow(plan.withOwner, plan.rows, OwnerUserID, i));
      assert nodes[i].loadedTypes == Requests(plan);
    }
  }

  /** The five steps of sqlAll, each skipped when its edge was not requested. */
  method LoadEdges(nodes: seq<Account>, plan: AccountPlan, ghost json: JsonCodec) returns (edge: LoadStatus)
    requires NoDuplicates(nodes) && DecodedFrom(nodes, plan, json) && NoEdges(nodes)
    modifies nodes`groups, nodes`proxy, nodes`owner, nodes`usageLogs, nodes`accountGroups
    ensures edge.Loaded? <==> EdgesAnswered(plan)
    ensures edge.Loaded? ==> Eager(nodes, plan, json)
  {
    hide GroupsRequested, ToOneAnswered, UsageLogsRequested, AccountGroupsRequested, RowKeys, DecodedFrom, InOrder,
      HoldRequestedGroups, HoldProxies, HoldOwners, HoldRequestedLogs, HoldRequestedLinks, Eager, LinksBelow, IDs,
      RowIDs, ProxyKeys, OwnerKeys, NoDuplicates, NoEdges;
    DecodedInOrder(nodes, plan, json);
    NoEdgesMeans(nodes);
    edge := LoadRequestedGroups(nodes, plan);
    if edge.Loaded? {
      edge := LoadRequestedProxy(nodes, plan);
      if edge.Loaded? {
        edge := LoadRequestedOwner(nodes, plan);
        if edge.Loaded? {
          edge := LoadRequestedLogs(nodes, plan);
          if edge.Loaded? {
            edge := LoadRequestedLinks(nodes, plan);
            if edge.Loaded? {
              AllShown(nodes, plan, json);
            }
          }
        }
      }
    }
  }

  lemma NothingToLoad(nodes: seq<Account>, plan: AccountPlan, json: JsonCodec)
    requires nodes == [] && plan.rows == []
    ensures Eager(nodes, plan, json)
  {
  }

  /**
   Runs the query and loads its edges. It succeeds exactly when every row is readable under
   the selected columns and, unless there are no rows, every edge query returned only rows
   that were asked for; each node then shows its row, decoded, and its requested edges.
   */
  method SqlAll(plan: AccountPlan, json: JsonCodec) returns (status: QueryStatus, nodes: seq<Account>)
    ensures status.Success? <==> Readable(plan, json) && (plan.rows == [] || EdgesAnswered(plan))
    ensures status.ScanFailed? || status.DecodeFailed? ==> !Readable(plan, json)
    ensures status.Success? ==> Eager(nodes, plan, json)
    ensures forall i :: 0 <= i < |nodes| ==> fresh(nodes[i])
  {
    hide Readable, EdgesAnswered, NoEdges, Eager;
    status, nodes := QueryNodes(plan, json);
    if !status.Success? {
      return;
    }
    assert |nodes| == |plan.rows|;
    if |nodes| == 0 {
      NothingToLoad(nodes, plan, json);
      return;
    }
    var edge := LoadEdges(nodes, plan, json);
    status := if edge.Loaded? then Success else EdgeFailed(edge);
  }
}
