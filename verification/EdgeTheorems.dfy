/**
 What eager loading means for its callers: the edge accessors, independence from the
 selected fields, and the two ways to reach the groups of an account.
 */
module EdgeTheorems {
  import opened Common
  import opened GroupJoin
  import opened RowCodec
  import opened Entities
  import opened EagerLoading
  import opened ToOneLoading
  import opened ToManyLoading
  import opened AccountLoading

  // ---------- ProxyOrErr and OwnerOrErr ----------

  /** A requested key names a row that its edge query returned. */
  ghost predicate Matched(query: Option<IDQuery>, rows: seq<Row>, c: Column, i: int)
    requires 0 <= i < |rows|
  {
    query.Some? && RowKey(rows[i], c).Some? &&
    exists r :: r in ReturnedRows(RowKeys(rows, c), query.value) && r.id == RowKey(rows[i], c).value
  }

  /** The three outcomes of a to-one edge, and the row that it yields. */
  ghost predicate OutcomeOf(e: EdgeResult<NodeRow>, query: Option<IDQuery>, rows: seq<Row>, c: Column, i: int)
    requires 0 <= i < |rows|
  {
    && (e.Value? <==> Matched(query, rows, c, i))
    && (e.NotFound? <==> query.Some? && !Matched(query, rows, c, i))
    && (e.NotLoaded? <==> query.None?)
    && (e.Value? ==>
          Some(e.value.id) == RowKey(rows[i], c) && e.value in ReturnedRows(RowKeys(rows, c), query.value))
  }

  lemma ToOneOutcome(query: Option<IDQuery>, rows: seq<Row>, c: Column, i: int)
    requires 0 <= i < |rows|
    ensures OutcomeOf(ToOneEdge(query, rows, c, i), query, rows, c, i)
  {
    hide LastMatch, ReturnedRows, RowKeys;
    if query.Some? {
      LastMatchFound(ReturnedRows(RowKeys(rows, c), query.value), RowKey(rows[i], c));
    }
  }

  /**
   After a successful sqlAll, an accessor of a to-one edge yields a neighbour exactly when
   the edge was requested and some returned row has the node's key, NotFound exactly when
   it was requested and none has (or the key is NULL), and NotLoaded exactly when it was
   not requested; and the neighbour it yields is one with that key.
   */
  lemma ProxyAccessor(nodes: seq<Account>, plan: AccountPlan, json: JsonCodec, i: int)
    requires Eager(nodes, plan, json) && 0 <= i < |nodes|
    ensures OutcomeOf(ShownRow(nodes[i].ProxyOrErr()), plan.withProxy, plan.rows, ProxyID, i)
  {
    ToOneOutcome(plan.withProxy, plan.rows, ProxyID, i);
    hide OutcomeOf, ToOneEdge, DecodeRow, ReadableRow, GroupsOf, UsageLogsOf, AccountGroupsOf, LinksBelow;
    assert Shown(nodes[i]) == NodeOf(plan, json, i);
  }

  lemma OwnerAccessor(nodes: seq<Account>, plan: AccountPlan, json: JsonCodec, i: int)
    requires Eager(nodes, plan, json) && 0 <= i < |nodes|
    ensures OutcomeOf(ShownRow(nodes[i].OwnerOrErr()), plan.withOwner, plan.rows, OwnerUserID, i)
  {
    ToOneOutcome(plan.withOwner, plan.rows, OwnerUserID, i);
    hide OutcomeOf, ToOneEdge, DecodeRow, ReadableRow, GroupsOf, UsageLogsOf, AccountGroupsOf, LinksBelow;
    assert Shown(nodes[i]) == NodeOf(plan, json, i);
  }

  // ---------- queries that honour the added predicate ----------

  ghost predicate HonestIDs(query: IDQuery) {
    forall ids, i :: 0 <= i < |query(ids)| ==> query(ids)[i].id in ids
  }

  ghost predicate HonestIfAsked(query: Option<IDQuery>) {
    query.Some? ==> HonestIDs(query.value)
  }

  /** Every edge query returns only rows that satisfy the predicate the loader added to it. */
  ghost predicate Honest(plan: AccountPlan) {
    && (plan.withGroups.Some? ==> forall ids :: Requested(plan.withGroups.value(ids), ids))
    && HonestIfAsked(plan.withProxy) && HonestIfAsked(plan.withOwner)
    && (plan.withUsageLogs.Some? ==> forall ids :: LogsRequested(plan.withUsageLogs.value.run(ids), ids))
    && (plan.withAccountGroups.Some? ==>
          && (forall ids :: LinksRequested(plan.withAccountGroups.value.run(ids), ids))
          && HonestIfAsked(plan.withAccountGroups.value.withAccount)
          && HonestIfAsked(plan.withAccountGroups.value.withGroup))
  }

  lemma HonestAnswers(query: Option<IDQuery>, keys: seq<Option<int>>)
    requires HonestIfAsked(query)
    ensures ToOneAnswered(query, keys)
  {
    if query.Some? {
      var ids := DistinctKeys(keys);
      DistinctKeysContents(keys, ids);
      hide DistinctKeys;
      assert forall i :: 0 <= i < |query.value(ids)| ==> query.value(ids)[i].id in ids;
    }
  }

  /** Then no loader reports an unexpected key: sqlAll fails only on an unreadable row. */
  lemma HonestPlansNeverFail(plan: AccountPlan)
    requires Honest(plan)
    ensures EdgesAnswered(plan)
  {
    hide DistinctKeys, ReturnedRows, Answers, RowKeys, RowIDs, LinkAccountKeys, LinkGroupKeys, HonestIDs, GroupColumn;
    HonestAnswers(plan.withProxy, RowKeys(plan.rows, ProxyID));
    HonestAnswers(plan.withOwner, RowKeys(plan.rows, OwnerUserID));
    if plan.withAccountGroups.Some? {
      var p, links := plan.withAccountGroups.value, PlannedLinks(plan.withAccountGroups.value, RowIDs(plan.rows));
      HonestAnswers(p.withAccount, LinkAccountKeys(links));
      HonestAnswers(p.withGroup, LinkGroupKeys(links));
    }
  }

  // ---------- projection ----------

  /** The edges that a node shows. */
  ghost predicate SameEdges(a: NodeShown, b: NodeShown) {
    a.(rec := ZERO_RECORD) == b.(rec := ZERO_RECORD)
  }

  /**
   Selecting other fields changes no edge: two runs of one query that differ only in the
   selected fields give each node the same edges, row for row, and the same value in every
   field that both select.
   */
  lemma ProjectionKeepsEdges(
    plan: AccountPlan, fields: seq<Column>, json: JsonCodec, i: int, nodes: seq<Account>, nodes': seq<Account>)
    requires Eager(nodes, plan, json) && Eager(nodes', plan.(fields := fields), json)
    requires 0 <= i < |plan.rows|
    ensures |nodes| == |nodes'| == |plan.rows|
    ensures SameEdges(Shown(nodes[i]), Shown(nodes'[i]))
    ensures forall c :: c in SelectedColumns(plan) && c in SelectedColumns(plan.(fields := fields)) ==>
      Field(nodes[i].rec, c) == Field(nodes'[i].rec, c)
  {
    var plan' := plan.(fields := fields);
    hide DecodeRow, LinksBelow, Field, SelectedColumns, EdgeOf, LogsOf, LinksFor, ReturnedRows, LastMatch, RowIDs,
      RowKeys;
    assert Shown(nodes[i]) == NodeOf(plan, json, i) && Shown(nodes'[i]) == NodeOf(plan', json, i);
    forall c | c in SelectedColumns(plan) && c in SelectedColumns(plan')
      ensures Field(nodes[i].rec, c) == Field(nodes'[i].rec, c)
    {
      ProjectionIndependent(SelectedColumns(plan), plan.rows[i], json, c);
      ProjectionIndependent(SelectedColumns(plan'), plan.rows[i], json, c);
    }
  }

  // ---------- groups directly, and through account_groups ----------

  /** The tables behind the two edges. */
  datatype GroupTables = GroupTables(links: seq<LinkRow>, groups: seq<NodeRow>)

  /** Foreign keys resolve. */
  ghost predicate ForeignKeysValid(db: GroupTables) {
    forall l :: l in db.links ==> exists g :: g in db.groups && g.id == l.groupID
  }

  /** The id is the primary key of groups. */
  ghost predicate PrimaryKey(db: GroupTables) {
    forall g, h :: g in db.groups && h in db.groups && g.id == h.id ==> g == h
  }

  /** An unfiltered query returns the rows that satisfy its predicate, in any order. */
  ghost predicate IsJoinQuery(query: seq<int> -> seq<JoinRow>, db: GroupTables) {
    forall ids, r :: r in query(ids) <==>
      r.accountID in ids && r.group in db.groups && LinkRow(r.accountID, r.group.id) in db.links
  }

  ghost predicate IsLinkQuery(run: seq<int> -> seq<LinkRow>, db: GroupTables) {
    forall ids, r :: r in run(ids) <==> r in db.links && r.accountID in ids
  }

  ghost predicate IsGroupQuery(query: IDQuery, db: GroupTables) {
    forall ids, r :: r in query(ids) <==> r in db.groups && r.id in ids
  }

  /** The account is linked to the group. */
  ghost predicate InTables(db: GroupTables, account: int, group: NodeRow) {
    group in db.groups && LinkRow(account, group.id) in db.links
  }

  /** The plan's queries for both edges are unfiltered queries over the tables. */
  ghost predicate ReadsTables(plan: AccountPlan, db: GroupTables) {
    && plan.withGroups.Some? && IsJoinQuery(plan.withGroups.value, db)
    && plan.withAccountGroups.Some? && plan.withAccountGroups.value.withGroup.Some?
    && IsLinkQuery(plan.withAccountGroups.value.run, db)
    && IsGroupQuery(plan.withAccountGroups.value.withGroup.value, db)
  }

  /** The groups reached through the account_groups edge and each row's own group. */
  ghost function ReachedThrough(shown: NodeShown): set<NodeRow> {
    set l | l in shown.accountGroups && l.group.Value? :: l.group.value
  }

  /** The join query and the link query link an account to the same groups. */
  lemma SameLinkedGroups(
    db: GroupTables, join: seq<int> -> seq<JoinRow>, run: seq<int> -> seq<LinkRow>, ids: seq<int>, account: int, g: int)
    requires ForeignKeysValid(db) && IsJoinQuery(join, db) && IsLinkQuery(run, db) && account in ids
    ensures Linked(join(ids), account, g) <==> LinkRow(account, g) in run(ids)
  {
    if Linked(join(ids), account, g) {
      var i :| 0 <= i < |join(ids)| && join(ids)[i].accountID == account && join(ids)[i].group.id == g;
      assert join(ids)[i] in join(ids);
    }
    if LinkRow(account, g) in run(ids) {
      var l := LinkRow(account, g);
      assert l in db.links;
      var group :| group in db.groups && group.id == l.groupID;
      assert JoinRow(account, group) in join(ids);
    }
  }

  /** The row of a link whose key resolves is found, and is a group of the table. */
  lemma LinkResolves(db: GroupTables, query: IDQuery, rows: seq<LinkRow>, row: LinkRow)
    requires ForeignKeysValid(db) && IsGroupQuery(query, db) && row in rows && row in db.links
    ensures
      var found := LastMatch(ReturnedRows(LinkGroupKeys(rows), query), Some(row.groupID));
      found.Some? && found.value.id == row.groupID && found.value in db.groups
  {
    var keys := LinkGroupKeys(rows);
    var ids := DistinctKeys(keys);
    DistinctKeysContents(keys, ids);
    hide DistinctKeys;
    var k :| 0 <= k < |rows| && rows[k] == row;
    assert keys[k] == Some(row.groupID) && Some(row.groupID) in keys;
    assert row.groupID in ids;
    var group :| group in db.groups && group.id == row.groupID;
    assert group in query(ids);
    LastMatchFound(ReturnedRows(keys, query), Some(row.groupID));
  }

  /** Loaded directly, an account's groups have the ids of its links, and are its groups when ids are keys. */
  lemma DirectGroups(db: GroupTables, plan: AccountPlan, i: int)
    requires ForeignKeysValid(db) && ReadsTables(plan, db) && 0 <= i < |plan.rows| && LastAt(RowIDs(plan.rows), i)
    ensures forall g :: g in NodeIDs(GroupsOf(plan, i)) <==> LinkRow(RowID(plan.rows[i]), g) in db.links
    ensures PrimaryKey(db) ==> forall r :: r in GroupsOf(plan, i) <==> InTables(db, RowID(plan.rows[i]), r)
  {
    var ids, account := RowIDs(plan.rows), RowID(plan.rows[i]);
    var rows := plan.withGroups.value(ids);
    var edge := EdgeOf(rows, account);
    assert ids[i] in ids && IsLinkQuery(plan.withAccountGroups.value.run, db);
    EdgeOfIsEdge(rows, account);
    EdgeIsNestedLoop(rows, account, edge);
    NestedLoopContents(rows, account);
    hide EdgeOf, RowIDs, NestedLoop, AppearsBefore, FirstShown;
    forall g ensures g in NodeIDs(edge) <==> LinkRow(account, g) in db.links {
      hide Linked, IsGroupQuery, IsJoinQuery;
      assert g in NodeIDs(edge) <==> Linked(rows, account, g);
      SameLinkedGroups(db, plan.withGroups.value, plan.withAccountGroups.value.run, ids, account, g);
    }
    if PrimaryKey(db) {
      hide Linked, IsEdge, IsGroupQuery, IsLinkQuery, ForeignKeysValid;
      assert Consistent(rows) by {
        forall j, k | 0 <= j < |rows| && 0 <= k < |rows| && rows[j].group.id == rows[k].group.id
          ensures rows[j].group == rows[k].group
        {
          assert rows[j] in rows && rows[k] in rows;
        }
      }
      forall r ensures r in edge <==> InTables(db, account, r) {
        assert r in edge <==> JoinRow(account, r) in rows;
      }
    }
  }

  /** A link shows the group its row names. */
  ghost predicate ResolvedLink(db: GroupTables, l: LinkShown) {
    l.group.Value? && l.group.value in db.groups && l.group.value.id == l.row.groupID
  }

  lemma ReachedOfLinks(db: GroupTables, shown: seq<LinkShown>, own: seq<LinkRow>, account: int, node: NodeShown)
    requires |shown| == |own| && forall k :: 0 <= k < |own| ==> ResolvedLink(db, shown[k]) && shown[k].row == own[k]
    requires forall l: LinkRow :: l in own <==> l in db.links && l.accountID == account
    requires node.accountGroups == shown
    ensures forall g :: (exists r :: r in ReachedThrough(node) && r.id == g) <==> LinkRow(account, g) in db.links
    ensures PrimaryKey(db) ==> forall r :: r in ReachedThrough(node) <==> InTables(db, account, r)
  {
    var reached := ReachedThrough(node);
    forall r | r in reached ensures r in db.groups && LinkRow(account, r.id) in db.links {
      var l :| l in shown && l.group.Value? && l.group.value == r;
      var k :| 0 <= k < |shown| && shown[k] == l;
      assert own[k] in own;
    }
    forall g | LinkRow(account, g) in db.links ensures exists r :: r in reached && r.id == g {
      var row := LinkRow(account, g);
      assert row in own;
      var k :| 0 <= k < |own| && own[k] == row;
      assert shown[k] in shown && shown[k].group.value in reached;
    }
  }

  /** Reached through account_groups, an account's groups are its links' own. */
  lemma ReachedGroups(db: GroupTables, plan: AccountPlan, json: JsonCodec, i: int)
    requires ForeignKeysValid(db) && ReadsTables(plan, db) && 0 <= i < |plan.rows| && LastAt(RowIDs(plan.rows), i)
    requires ReadableRow(plan, plan.rows[i], json)
    ensures
      var reached, account := ReachedThrough(NodeOf(plan, json, i)), RowID(plan.rows[i]);
      && (forall g :: (exists r :: r in reached && r.id == g) <==> LinkRow(account, g) in db.links)
      && (PrimaryKey(db) ==> forall r :: r in reached <==> InTables(db, account, r))
  {
    var p, ids, account := plan.withAccountGroups.value, RowIDs(plan.rows), RowID(plan.rows[i]);
    var rows := PlannedLinks(p, ids);
    LinkKeysSelected(p);
    assert rows == p.run(ids) && ids[i] in ids;
    var own := LinksOf(rows, account);
    LinksOfContents(rows, account);
    var shown := AccountGroupsOf(plan, i);
    assert shown == LinksFor(p, ids, own);
    hide LinksOf, PlannedLinks, RowIDs, ReadableRow, DecodeRow, GroupsOf, ToOneEdge, UsageLogsOf, AccountGroupsOf;
    forall l: LinkRow ensures l in own <==> l in db.links && l.accountID == account {
    }
    forall k | 0 <= k < |own| ensures ResolvedLink(db, shown[k]) && shown[k].row == own[k] {
      assert own[k] in own;
      LinkResolves(db, p.withGroup.value, rows, own[k]);
    }
    hide IsLinkQuery, IsGroupQuery, IsJoinQuery, ForeignKeysValid, LinksFor, LinkOf;
    ReachedOfLinks(db, shown, own, account, NodeOf(plan, json, i));
  }

  /**
   Over tables with valid foreign keys and unfiltered queries, an account's groups loaded
   directly are the groups reached through its account_groups rows: the same ids, and the
   same groups when the id is their primary key. Of several nodes with one id, all but the
   last have no groups either way.
   */
  lemma BothWaysAgree(db: GroupTables, plan: AccountPlan, json: JsonCodec, nodes: seq<Account>, i: int)
    requires ForeignKeysValid(db) && ReadsTables(plan, db)
    requires Eager(nodes, plan, json) && 0 <= i < |nodes|
    ensures
      var groups, reached := Shown(nodes[i]).groups, ReachedThrough(Shown(nodes[i]));
      && (forall g :: g in NodeIDs(groups) <==> exists r :: r in reached && r.id == g)
      && (PrimaryKey(db) ==> (set r | r in groups) == reached)
  {
    hide ReadsTables, ForeignKeysValid, PrimaryKey, InTables, RowIDs, EdgeOf, DecodeRow, LinksBelow, LinksFor, LinksOf;
    var shown := Shown(nodes[i]);
    assert shown == NodeOf(plan, json, i);
    if LastAt(RowIDs(plan.rows), i) {
      DirectGroups(db, plan, i);
      ReachedGroups(db, plan, json, i);
      hide GroupsOf, AccountGroupsOf, ReachedThrough, LastAt;
      assert shown.groups == GroupsOf(plan, i);
    } else {
      assert shown.groups == [] && shown.accountGroups == [];
    }
  }
}
