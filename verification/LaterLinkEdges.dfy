/**
 The account and the group that a later call still shows for a link: the queries of
 loadAccount and loadGroup (backend/ent/accountgroup_query.go) are narrowed by each run too.
 */
module LaterLinkEdges {
  import opened Common
  import opened RowCodec
  import opened Entities
  import opened Projection
  import opened ToOneLoading
  import opened ToManyLoading
  import opened AccountLoading
  import opened QueryBuilder
  import opened QuerySpecs
  import opened EagerRuns
  import opened RunFailures
  import opened QueryRuns
  import opened NarrowedEdges
  import opened LaterEdges

  // ---------- what a successful run had for its links ----------

  /** The account query below the links of a run. */
  ghost function NestedRun(db: Database, v: LinkView, rows: seq<LinkRow>): Result<AccountPlan>
    requires v.account.Some?
  {
    RunAccounts(db, AskedFor(v.account.value, rows)).1
  }

  /** The rows behind the account and the group of the links. */
  ghost predicate RanBelow(db: Database, v: LinkView, after: LinkView, plan: AccountGroupPlan, ids: seq<int>) {
    && plan.withAccount.Some? == v.account.Some? && plan.withGroup.Some? == v.group.Some?
    && after.group.Some? == v.group.Some?
    && (v.group.Some? ==>
          RanKeyed(
            db.groupsByID(after.group.value), plan.withGroup, LinkGroupAdded(db, v, ids),
            LinkGroupKeys(plan.run(ids))))
    && (v.account.Some? ==>
          && NestedRun(db, v, plan.run(ids)).Ran?
          && RanKeyed(
               Some(LoadedAccounts(db.json, NestedRun(db, v, plan.run(ids)).plan)), plan.withAccount,
               LinkAccountAdded(db, v, ids), LinkAccountKeys(plan.run(ids))))
  }

  lemma SameNested(v: LinkView, b: Base<LinkColumn>, rows: seq<LinkRow>)
    requires v.account.Some?
    ensures AskedFor(v.(base := b).account.value, rows) == AskedFor(v.account.value, rows)
  {
  }

  lemma LinkAccountsRan(db: Database, v: LinkView, plan: AccountGroupPlan, rows: seq<LinkRow>)
    requires rows != [] && plan.withAccount == AnsweredIf(v.account.Some?, [])
    requires QueryLinkAccounts(db, v, plan, LinkAccountKeys(rows)).1.Ran?
    ensures
      var plan' := QueryLinkAccounts(db, v, plan, LinkAccountKeys(rows)).1.plan;
      && plan' == plan.(withAccount := plan'.withAccount) && plan'.withAccount.Some? == v.account.Some?
      && (v.account.Some? ==>
            && NestedRun(db, v, rows).Ran?
            && plan'.withAccount == Some(Answered(LoadedAccounts(db.json, NestedRun(db, v, rows).plan))))
  {
    hide RunAccounts, DistinctKeys, LinkAccountKeys, LinkGroupKeys, LoadedAccounts, Answers;
    SomeKeys(rows);
  }

  lemma LinkGroupsRan(db: Database, v: LinkView, plan: AccountGroupPlan, rows: seq<LinkRow>)
    requires rows != [] && plan.withGroup == AnsweredIf(v.group.Some?, [])
    requires QueryLinkGroups(db, v, plan, LinkGroupKeys(rows)).1.Ran?
    ensures
      var (w, result) := QueryLinkGroups(db, v, plan, LinkGroupKeys(rows));
      && result.plan == plan.(withGroup := result.plan.withGroup) && result.plan.withGroup.Some? == v.group.Some?
      && w.group.Some? == v.group.Some?
      && (v.group.Some? ==>
            && db.groupsByID(w.group.value).Some?
            && result.plan.withGroup == Some(Answered(db.groupsByID(w.group.value).value)))
  {
    hide DistinctKeys, LinkAccountKeys, LinkGroupKeys, Answers, Stepped;
    SomeKeys(rows);
  }

  lemma AnsweredKeyed(rows: seq<NodeRow>, keys: seq<Option<int>>)
    requires DistinctKeys(keys) != []
    ensures RanKeyed(Some(rows), Some(Answered(rows)), [IDIn(DistinctKeys(keys))], keys)
  {
    hide DistinctKeys;
  }

  /** The two steps of a run over some links. */
  lemma LinkRunParts(db: Database, v: LinkView, ids: seq<int>)
    requires RunLinks(db, v, ids).1.Ran?
    requires LinkRowsFor(db, v, ids).Some? && LinkRowsFor(db, v, ids).value != []
    ensures
      var b, rows := LinkBase(v, ids), LinkRowsFor(db, v, ids).value;
      var (v1, r1) := QueryLinkAccounts(db, v.(base := b), LinkPlan(v, b, rows), LinkAccountKeys(rows));
      && AccountsLoad(db, v, ids) && r1.Ran?
      && (v.group.Some? ==> RunLinks(db, v, ids) == QueryLinkGroups(db, v1, r1.plan, LinkGroupKeys(rows)))
      && (v.group.None? ==> v1.group.None? ==> RunLinks(db, v, ids) == (v1, r1))
  {
    hide RunAccounts, DistinctKeys, LinkAccountKeys, LinkGroupKeys, PlannedLinks, QueryLinkAccounts, QueryLinkGroups,
      Stepped;
    var b, rows := LinkBase(v, ids), LinkRowsFor(db, v, ids).value;
    var plan := LinkPlan(v, b, rows);
    ScannedAccountKeys(plan, ids);
    var (v1, r1) := QueryLinkAccounts(db, v.(base := b), plan, LinkAccountKeys(rows));
    if r1.Ran? {
      NoLinkGroup(db, v1, r1.plan, LinkGroupKeys(PlannedLinks(plan, ids)));
    }
    if v.group.Some? {
      ScannedGroupKeys(plan, ids);
    }
  }

  lemma SameLinkBase(v: LinkView, ids: seq<int>)
    ensures PlusKeyed(v.base, LinkAccountID, [KeyIn(ids)]) == LinkBase(v, ids)
  {
    hide WithKey;
  }

  lemma PlusNoEdge(b: Option<Base<string>>)
    ensures PlusEdge(b, []) == b
  {
    if b.Some? {
      assert b.value.predicates + [] == b.value.predicates;
    }
  }

  lemma LinkRanBelow(db: Database, v: LinkView, ids: seq<int>)
    requires RunLinks(db, v, ids).1.Ran? && RunLinks(db, v, ids).1.plan.run(ids) != []
    ensures RanBelow(db, v, RunLinks(db, v, ids).0, RunLinks(db, v, ids).1.plan, ids)
  {
    hide RunLinks, DistinctKeys, LinkAccountKeys, LinkGroupKeys, QueryLinkAccounts, QueryLinkGroups, LoadedAccounts,
      Stepped, RanKeyed, RunAccounts, AccountsLoad, Plus, SameQuery, AskedFor;
    LinkRunRows(db, v, ids);
    LinkRunAdds(db, v, ids);
    SameLinkBase(v, ids);
    var b, rows := LinkBase(v, ids), LinkRowsFor(db, v, ids).value;
    var plan := LinkPlan(v, b, rows);
    LinkRunParts(db, v, ids);
    SomeKeys(rows);
    LinkAccountsRan(db, v.(base := b), plan, rows);
    LinkAccountsAdd(db, v.(base := b), plan, rows);
    var (v1, r1) := QueryLinkAccounts(db, v.(base := b), plan, LinkAccountKeys(rows));
    PlusNoEdge(v.group);
    if v.account.Some? {
      SameNested(v, b, rows);
      AnsweredKeyed(LoadedAccounts(db.json, NestedRun(db, v, rows).plan), LinkAccountKeys(rows));
    }
    if v.group.Some? {
      LinkGroupsRan(db, v1, r1.plan, rows);
      AnsweredKeyed(db.groupsByID(RunLinks(db, v, ids).0.group.value).value, LinkGroupKeys(rows));
    }
  }

  lemma QueryLinksRan(db: Database, p: Progress)
    requires p.error.None? && p.view.links.Some?
    ensures
      var p', (w, result) := QueryLinks(db, p), RunLinks(db, p.view.links.value, RowIDs(p.plan.rows));
      && p'.view.links == Some(w) && (p'.error.None? <==> result.Ran?)
      && (result.Ran? ==> p'.plan.withAccountGroups == Some(result.plan))
  {
    hide RowIDs, RunLinks;
    match RunLinks(db, p.view.links.value, RowIDs(p.plan.rows)).1 {
      case Failed(e) => assert QueryLinks(db, p).error == Some(e);
      case Ran(plan) => assert QueryLinks(db, p).error == None;
    }
  }

  lemma LinksStepRan(db: Database, p: Progress)
    requires p.error.None? && LinksStep(db, p).error.None? && p.view.links.Some?
    ensures
      var p', (w, result) := LinksStep(db, p), RunLinks(db, p.view.links.value, RowIDs(p.plan.rows));
      result.Ran? && p'.view.links == Some(w) && p'.plan.withAccountGroups == Some(result.plan)
  {
    hide QueryLinks, RunLinks, AccountGroupsRequested;
    QueryLinksRan(db, p);
  }

  /** What a successful run had for its links, with the predicates that it added. */
  lemma RunBelow(db: Database, v: AccountView)
    requires RunAccounts(db, v).1.Ran? && RunAccounts(db, v).1.plan.rows != [] && v.links.Some?
    ensures
      var w, plan := RunAccounts(db, v).0, RunAccounts(db, v).1.plan;
      var ids := RowIDs(plan.rows);
      && w.links.Some? && plan.withAccountGroups.Some?
      && LinkAccountAsk(db, v) == LinkAccountAdded(db, v.links.value, ids)
      && LinkGroupAsk(db, v) == LinkGroupAdded(db, v.links.value, ids)
      && (plan.withAccountGroups.value.run(ids) != [] ==>
            RanBelow(db, v.links.value, w.links.value, plan.withAccountGroups.value, ids))
  {
    hide RunAccounts, RowIDs, LinksStep, FirstEdges, GroupsStep, ProxiesStep, OwnersStep, UsageLogsStep, RanBelow,
      ReachesEdges, Unloaded, Prepared, RunLinks, LinkAccountAdded, LinkGroupAdded;
    var p := RanSteps(db, v);
    LinksStepRan(db, FirstEdges(db, p));
    var ids := RowIDs(p.plan.rows);
    if RunLinks(db, v.links.value, ids).1.plan.run(ids) != [] {
      LinkRanBelow(db, v.links.value, ids);
    }
  }

  // ---------- a link that a node shows ----------

  /** A link that a node shows is one of the rows, with its edges. */
  lemma ShownLinkRow(plan: AccountPlan, json: JsonCodec, i: int, l: LinkShown) returns (row: LinkRow)
    requires 0 <= i < |plan.rows| && ReadableRow(plan, plan.rows[i], json)
    requires l in NodeOf(plan, json, i).accountGroups
    ensures
      var ids := RowIDs(plan.rows);
      && plan.withAccountGroups.Some? && row in PlannedLinks(plan.withAccountGroups.value, ids)
      && l == LinkOf(plan.withAccountGroups.value, ids, row)
      && plan.withAccountGroups.value.run(ids) != []
  {
    hide RowIDs, RowID, GroupColumn, DecodeRow, GroupsOf, ToOneEdge, UsageLogsOf, LinksOf, LinkOf;
    var p, ids := plan.withAccountGroups.value, RowIDs(plan.rows);
    var scanned := PlannedLinks(p, ids);
    var own := LinksOf(scanned, RowID(plan.rows[i]));
    LinksOfContents(scanned, RowID(plan.rows[i]));
    assert NodeOf(plan, json, i).accountGroups == LinksFor(p, ids, own);
    var k :| 0 <= k < |own| && LinksFor(p, ids, own)[k] == l;
    row := own[k];
    assert row in own;
  }

  /** An edge over a key that was asked for: found exactly when some answer has the key. */
  lemma KeyedFound(
    answer: seq<NodeRow>, query: Option<IDQuery>, own: seq<Predicate>, keys: seq<Option<int>>, k: int)
    requires RanKeyed(Some(answer), query, own, keys) && Some(k) in keys
    ensures own == [IDIn(DistinctKeys(keys))] && k in DistinctKeys(keys)
    ensures
      var e := EdgeResultOf(query.Some?, LastMatch(ReturnedRows(keys, query.value), Some(k)));
      && !e.NotLoaded? && (e.Value? <==> exists n :: n in answer && n.id == k)
      && (e.Value? ==> e.value in answer && e.value.id == k)
  {
    DistinctKeysContents(keys, DistinctKeys(keys));
    LastMatchFound(ReturnedRows(keys, query.value), Some(k));
    hide DistinctKeys, LastMatch;
  }

  // ---------- the group of a link ----------

  lemma LinkAsksOnID(db: Database, v: AccountView, calls: seq<Read>)
    ensures forall p :: p in LinkGroupAsks(db, v, calls) ==> OnID(p)
    ensures forall p :: p in LinkAccountAsks(db, v, calls) ==> OnID(p)
  {
    hide Start, FirstEdges, RowIDs, Asks, DistinctKeys, LinkAccountKeys, LinkGroupKeys, AccountsLoad, LinkRowsFor;
    AsksOfOneKind(db, v, calls, LinkGroupAsk, OnID, LinkGroupAsks(db, v, calls));
    AsksOfOneKind(db, v, calls, LinkAccountAsk, OnID, LinkAccountAsks(db, v, calls));
  }

  /** The rows behind the links of a later call. */
  ghost predicate BelowNow(
    db: Database, v: AccountView, calls: seq<Read>, r: Read, plan: AccountGroupPlan, ids: seq<int>)
    requires v.links.Some?
  {
    var w, l := Limited(After(db, v, calls), r), v.links.value;
    && w.links.Some? && w.links.value.account.Some? == l.account.Some?
    && (l.group.Some? ==>
          RanKeyed(
            db.groupsByID(Plus(l.group.value, LinkGroupAsks(db, v, calls) + LinkGroupAsk(db, w))), plan.withGroup,
            LinkGroupAsk(db, w), LinkGroupKeys(plan.run(ids))))
    && (l.account.Some? ==>
          && SameQuery(
               db, w.links.value.account.value, PlusAccount(l.account.value, LinkAccountAsks(db, v, calls)))
          && NestedRun(db, w.links.value, plan.run(ids)).Ran?
          && RanKeyed(
               Some(LoadedAccounts(db.json, NestedRun(db, w.links.value, plan.run(ids)).plan)), plan.withAccount,
               LinkAccountAsk(db, w), LinkAccountKeys(plan.run(ids))))
  }

  lemma LimitedLinks(v: AccountView, r: Read)
    ensures Limited(v, r).links == v.links
  {
  }

  lemma LaterBelow(db: Database, v: AccountView, calls: seq<Read>, r: Read)
    requires !r.SetTo? && Later(db, v, calls, r).Ran? && Later(db, v, calls, r).plan.rows != [] && v.links.Some?
    ensures
      var plan := Later(db, v, calls, r).plan;
      && plan.withAccountGroups.Some?
      && (plan.withAccountGroups.value.run(RowIDs(plan.rows)) != [] ==>
            BelowNow(db, v, calls, r, plan.withAccountGroups.value, RowIDs(plan.rows)))
  {
    hide Later, After, Limited, RunAccounts, LinkGroupAsks, LinkGroupAsk, LinkAccountAsks, LinkAccountAsk, LinksAsks,
      Plus, PlusKeyed, RanKeyed, RowIDs, LinkGroupKeys, LinkAccountKeys, DistinctKeys, SameQuery, Narrowed, RanEdges,
      LinkGroupAdded, LinkAccountAdded, NestedRun, LoadedAccounts, AccountsLoad, LinksAsk, PlusAccount;
    var w := Limited(After(db, v, calls), r);
    LaterIsRun(db, v, calls, r);
    LaterQueries(db, v, calls, r);
    LaterAsks(db, v, calls, r);
    LinksAreNarrowed(db, v, calls);
    LimitedLinks(After(db, v, calls), r);
    RunBelow(db, w);
  }

  lemma RanIsRequested(
    answer: Option<seq<NodeRow>>, query: Option<IDQuery>, asked: seq<Predicate>, keys: seq<Option<int>>)
    requires RanKeyed(answer, query, asked, keys)
    ensures query.Some?
  {
  }

  lemma KeyOfRow(rows: seq<LinkRow>, row: LinkRow)
    requires row in rows
    ensures Some(row.groupID) in LinkGroupKeys(rows) && Some(row.accountID) in LinkAccountKeys(rows)
  {
    var k :| 0 <= k < |rows| && rows[k] == row;
    assert LinkGroupKeys(rows)[k] == Some(row.groupID) && LinkAccountKeys(rows)[k] == Some(row.accountID);
  }

  lemma LinkGroupFound(
    plan: AccountGroupPlan, ids: seq<int>, row: LinkRow, earlier: seq<Predicate>, own: seq<Predicate>,
    all: seq<NodeRow>, answer: seq<NodeRow>)
    requires row in PlannedLinks(plan, ids) && RanKeyed(Some(answer), plan.withGroup, own, LinkGroupKeys(plan.run(ids)))
    requires Narrows(answer, all, earlier + own)
    ensures LoadedIff(LinkOf(plan, ids, row).group, Some(row.groupID), earlier, all)
  {
    hide PlannedLinks, RanKeyed, DistinctKeys, LastMatch, ReturnedRows, LinkedAccount;
    KeyOfRow(PlannedLinks(plan, ids), row);
    RanIsRequested(Some(answer), plan.withGroup, own, LinkGroupKeys(plan.run(ids)));
    ScannedGroupKeys(plan, ids);
    KeyedFound(answer, plan.withGroup, own, LinkGroupKeys(plan.run(ids)), row.groupID);
    hide LinkGroupKeys;
    assert AskedIn(earlier + own, row.groupID) <==> AskedIn(earlier, row.groupID);
  }

  lemma RowOfLink(plan: AccountGroupPlan, ids: seq<int>, row: LinkRow)
    ensures LinkOf(plan, ids, row).row == row
  {
  }

  /**
   The group that a later call shows for a link: over a table, it is found exactly when the
   configured query has it and every earlier run that loaded groups for links asked for it too.
   */
  lemma LaterLinkGroup(db: Database, v: AccountView, calls: seq<Read>, r: Read, i: int, l: LinkShown)
    requires Filters(db.groupsByID, OnID, MeetsID) && v.links.Some? && v.links.value.group.Some?
    requires Whole(v.links.value.group.value) && db.groupsByID(v.links.value.group.value).Some?
    requires !r.SetTo? && Later(db, v, calls, r).Ran? && 0 <= i < |Later(db, v, calls, r).plan.rows|
    ensures
      var plan := Later(db, v, calls, r).plan;
      && ReadableRow(plan, plan.rows[i], db.json)
      && (l in NodeOf(plan, db.json, i).accountGroups ==>
            LoadedIff(
              l.group, Some(l.row.groupID), LinkGroupAsks(db, v, calls),
              db.groupsByID(v.links.value.group.value).value))
  {
    hide Later, After, Limited, RunAccounts, LinkGroupAsks, LinkGroupAsk, LinkAccountAsks, LinkAccountAsk, LinksAsks,
      ReadableRow, Plus, RanKeyed, Filters, RowIDs, NodeOf, OnID, Whole, LinkGroupKeys, SameQuery, Narrowed, RanEdges,
      NarrowedLinks, NestedRun, LoadedIff, LinkOf, PlannedLinks, Narrows;
    var plan, b := Later(db, v, calls, r).plan, v.links.value.group.value;
    LaterQueries(db, v, calls, r);
    if l in NodeOf(plan, db.json, i).accountGroups {
      var row := ShownLinkRow(plan, db.json, i, l);
      var w := Limited(After(db, v, calls), r);
      var asked := LinkGroupAsks(db, v, calls) + LinkGroupAsk(db, w);
      LaterBelow(db, v, calls, r);
      LaterAsks(db, v, calls, r);
      LinkAsksOnID(db, v, calls + [r]);
      NarrowedRows(db.groupsByID, b, asked);
      LinkGroupFound(
        plan.withAccountGroups.value, RowIDs(plan.rows), row, LinkGroupAsks(db, v, calls), LinkGroupAsk(db, w),
        db.groupsByID(b).value, db.groupsByID(Plus(b, asked)).value);
      RowOfLink(plan.withAccountGroups.value, RowIDs(plan.rows), row);
    }
  }

  // ---------- the account of a link ----------

  ghost predicate RowsIn(db: Database, spec: QuerySpec, ids: seq<int>)
    requires db.accounts(spec).Some?
  {
    && db.accounts(Asking(spec, ids)).Some?
    && forall r :: r in db.accounts(Asking(spec, ids)).value <==> r in db.accounts(spec).value && RowID(r) in ids
  }

  /** An account query over a table: asking for ids leaves exactly the rows that have them. */
  ghost predicate AccountTable(db: Database) {
    forall spec: QuerySpec, ids: seq<int> ::
      spec.limit == 0 && spec.offset == 0 && db.accounts(spec).Some? ==> RowsIn(db, spec, ids)
  }

  function AskingAll(spec: QuerySpec, ps: seq<Predicate>): QuerySpec {
    spec.(predicates := spec.predicates + ps)
  }

  /** Asking several times leaves the rows that were asked for each time. */
  lemma {:induction false} AskedRows(db: Database, spec: QuerySpec, ps: seq<Predicate>)
    requires AccountTable(db) && spec.limit == 0 && spec.offset == 0 && db.accounts(spec).Some?
    requires forall p :: p in ps ==> OnID(p)
    ensures db.accounts(AskingAll(spec, ps)).Some?
    ensures forall r ::
      r in db.accounts(AskingAll(spec, ps)).value <==> r in db.accounts(spec).value && AskedIn(ps, RowID(r))
  {
    hide RowID;
    if ps == [] {
      assert spec.predicates + ps == spec.predicates;
    } else {
      var init, last := ps[..|ps| - 1], ps[|ps| - 1];
      assert ps == init + [last] && last in ps && OnID(last);
      AskedRows(db, spec, init);
      assert Asking(AskingAll(spec, init), last.ids) == AskingAll(spec, ps) by {
        assert (spec.predicates + init) + [last] == spec.predicates + ps;
      }
      assert RowsIn(db, AskingAll(spec, init), last.ids);
      hide AskingAll, Asking;
    }
  }

  ghost predicate HasRow(rows: seq<Row>, k: int) {
    exists r :: r in rows && RowID(r) == k
  }

  /** A loaded account edge, over the rows of the configured account query. */
  ghost predicate AccountLoadedIff(e: EdgeResult<NodeRow>, key: int, earlier: seq<Predicate>, all: seq<Row>) {
    && !e.NotLoaded?
    && (e.Value? <==> AskedIn(earlier, key) && HasRow(all, key))
    && (e.Value? ==> e.value.id == key)
  }

  ghost predicate HasNode(rows: seq<NodeRow>, k: int) {
    exists n :: n in rows && n.id == k
  }

  /** The accounts that a run loaded have the ids of its rows. */
  lemma LoadedIDs(db: Database, v: AccountView)
    requires RunAccounts(db, v).1.Ran?
    ensures
      var plan := RunAccounts(db, v).1.plan;
      && db.accounts(RunSpec(db, v)) == Some(plan.rows)
      && forall k :: HasNode(LoadedAccounts(db.json, plan), k) <==> HasRow(plan.rows, k)
  {
    hide RunAccounts, SpecOf, DecodeRow, SelectedColumns, Scannable, RowID, RowKey, Prepared;
    RunKeepsMain(db, v);
    var plan := RunAccounts(db, v).1.plan;
    var rows := LoadedAccounts(db.json, plan);
    forall i | 0 <= i < |rows|
      ensures rows[i].id == RowID(plan.rows[i]) && rows[i] in rows && plan.rows[i] in plan.rows
    {
      assert ReadableRow(plan, plan.rows[i], db.json);
      DecodedKeys(plan, plan.rows[i], db.json);
    }
  }

  /** What the narrowed account query asks for. */
  lemma NestedSpec(db: Database, v: AccountView, w: AccountView, earlier: seq<Predicate>, rows: seq<LinkRow>)
    requires SameQuery(db, w, PlusAccount(v, earlier))
    ensures
      RunSpec(db, AskedFor(w, rows)) ==
      AskingAll(RunSpec(db, v), earlier + [IDIn(DistinctKeys(LinkAccountKeys(rows)))])
  {
    hide AccountColumns, DistinctKeys, LinkAccountKeys;
    var own := [IDIn(DistinctKeys(LinkAccountKeys(rows)))];
    PlusSame(db, w, PlusAccount(v, earlier), own);
    SameSpec(db, PlusAccount(w, own), PlusAccount(PlusAccount(v, earlier), own));
    assert (v.base.predicates + earlier) + own == v.base.predicates + (earlier + own);
  }

  lemma LinkAccountFound(
    plan: AccountGroupPlan, ids: seq<int>, row: LinkRow, earlier: seq<Predicate>, own: seq<Predicate>,
    all: seq<Row>, rows: seq<Row>, loaded: seq<NodeRow>)
    requires row in PlannedLinks(plan, ids)
    requires RanKeyed(Some(loaded), plan.withAccount, own, LinkAccountKeys(plan.run(ids)))
    requires forall k :: HasNode(loaded, k) <==> HasRow(rows, k)
    requires forall r :: r in rows <==> r in all && AskedIn(earlier + own, RowID(r))
    ensures AccountLoadedIff(LinkOf(plan, ids, row).account, row.accountID, earlier, all)
  {
    hide PlannedLinks, RanKeyed, DistinctKeys, LastMatch, ReturnedRows, LinkedGroup, RowID;
    KeyOfRow(PlannedLinks(plan, ids), row);
    RanIsRequested(Some(loaded), plan.withAccount, own, LinkAccountKeys(plan.run(ids)));
    ScannedAccountKeys(plan, ids);
    KeyedFound(loaded, plan.withAccount, own, LinkAccountKeys(plan.run(ids)), row.accountID);
    hide LinkAccountKeys;
    assert AskedIn(earlier + own, row.accountID) <==> AskedIn(earlier, row.accountID);
    assert HasNode(loaded, row.accountID) <==> HasRow(rows, row.accountID);
  }

  lemma WholeSpec(db: Database, v: AccountView)
    requires Whole(v.base)
    ensures RunSpec(db, v).limit == 0 && RunSpec(db, v).offset == 0
  {
    hide AccountColumns;
  }

  /** The rows of the account query that a later call runs for its links. */
  lemma NestedRows(db: Database, v: AccountView, w: AccountView, earlier: seq<Predicate>, rows: seq<LinkRow>)
    requires AccountTable(db) && Whole(v.base) && db.accounts(RunSpec(db, v)).Some?
    requires SameQuery(db, w, PlusAccount(v, earlier)) && forall p :: p in earlier ==> OnID(p)
    requires RunAccounts(db, AskedFor(w, rows)).1.Ran?
    ensures
      var asked := earlier + [IDIn(DistinctKeys(LinkAccountKeys(rows)))];
      var plan := RunAccounts(db, AskedFor(w, rows)).1.plan;
      && (forall k :: HasNode(LoadedAccounts(db.json, plan), k) <==> HasRow(plan.rows, k))
      && forall r :: r in plan.rows <==> r in db.accounts(RunSpec(db, v)).value && AskedIn(asked, RowID(r))
  {
    hide RunAccounts, LoadedAccounts, DistinctKeys, LinkAccountKeys, SameQuery, AccountTable, HasNode, HasRow, RowID,
      AskingAll, AskedFor;
    WholeSpec(db, v);
    LoadedIDs(db, AskedFor(w, rows));
    NestedSpec(db, v, w, earlier, rows);
    hide RunSpec;
    AskedRows(db, RunSpec(db, v), earlier + [IDIn(DistinctKeys(LinkAccountKeys(rows)))]);
  }

  /**
   The account that a later call shows for a link: over a table, it is found exactly when the
   configured account query has it and every earlier run that loaded accounts for links asked
   for it too.
   */
  lemma LaterLinkAccount(db: Database, v: AccountView, calls: seq<Read>, r: Read, i: int, l: LinkShown)
    requires AccountTable(db) && v.links.Some? && v.links.value.account.Some?
    requires Whole(v.links.value.account.value.base) && db.accounts(RunSpec(db, v.links.value.account.value)).Some?
    requires !r.SetTo? && Later(db, v, calls, r).Ran? && 0 <= i < |Later(db, v, calls, r).plan.rows|
    ensures
      var plan := Later(db, v, calls, r).plan;
      && ReadableRow(plan, plan.rows[i], db.json)
      && (l in NodeOf(plan, db.json, i).accountGroups ==>
            AccountLoadedIff(
              l.account, l.row.accountID, LinkAccountAsks(db, v, calls),
              db.accounts(RunSpec(db, v.links.value.account.value)).value))
  {
    hide Later, After, Limited, RunAccounts, LinkGroupAsks, LinkGroupAsk, LinkAccountAsks, LinkAccountAsk, LinksAsks,
      ReadableRow, Plus, RowIDs, NodeOf, OnID, Whole, LinkGroupKeys, SameQuery, Narrowed, RanEdges, NarrowedLinks,
      AccountLoadedIff, LinkOf, PlannedLinks, AccountTable, RunSpec, HasNode, HasRow, RowID, AskedIn, PlusAccount,
      LoadedAccounts, AskedFor, DistinctKeys;
    var plan, b := Later(db, v, calls, r).plan, v.links.value.account.value;
    LaterQueries(db, v, calls, r);
    if l in NodeOf(plan, db.json, i).accountGroups {
      var row := ShownLinkRow(plan, db.json, i, l);
      var w := Limited(After(db, v, calls), r);
      var p, ids := plan.withAccountGroups.value, RowIDs(plan.rows);
      LaterBelow(db, v, calls, r);
      var nested, rows := w.links.value.account.value, p.run(ids);
      LinkAsksOnID(db, v, calls);
      NestedRows(db, b, nested, LinkAccountAsks(db, v, calls), rows);
      SomeKeys(rows);
      var run := RunAccounts(db, AskedFor(nested, rows)).1.plan;
      LinkAccountFound(
        p, ids, row, LinkAccountAsks(db, v, calls), LinkAccountAsk(db, w), db.accounts(RunSpec(db, b)).value,
        run.rows, LoadedAccounts(db.json, run));
      RowOfLink(p, ids, row);
    }
  }
}
