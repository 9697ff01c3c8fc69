/**
 When a run of a builder tree fails, on a database whose edge queries return only what the
 loaders ask for: level by level, a field that is no column, a traversal path or a main query
 that fails, a row that cannot be read, or the panic of a group query that was run before.
 */
module RunFailures {
  import opened Common
  import opened RowCodec
  import opened Entities
  import opened Projection
  import opened EagerLoading
  import opened ToOneLoading
  import opened ToManyLoading
  import opened AccountLoading
  import opened QueryBuilder
  import opened QuerySpecs
  import opened GroupScan
  import opened EagerRuns

  // ---------- honest databases ----------

  ghost predicate AllIn(rows: Option<seq<NodeRow>>, ids: seq<int>) {
    rows.Some? && forall i :: 0 <= i < |rows.value| ==> rows.value[i].id in ids
  }

  /** Every edge query is answered, and returns only rows that satisfy the predicate added last. */
  ghost predicate HonestEdges(db: Database) {
    && (forall b, ids :: var q := Stepped(b, Where(JoinedTo(ids)));
          db.groups(q).Some? && Requested(db.groups(q).value, ids))
    && (forall b, ids :: var q := Stepped(b, Where(IDIn(ids))); AllIn(db.proxies(q), ids))
    && (forall b, ids :: var q := Stepped(b, Where(IDIn(ids))); AllIn(db.owners(q), ids))
    && (forall b, ids :: var q := Stepped(b, Where(KeyIn(ids)));
          db.usageLogs(q).Some? && LogsRequested(db.usageLogs(q).value, ids))
  }

  function Asking(spec: QuerySpec, ids: seq<int>): QuerySpec {
    spec.(predicates := spec.predicates + [IDIn(ids)])
  }

  ghost predicate AccountsIn(db: Database, spec: QuerySpec, ids: seq<int>) {
    db.accounts(spec).Some? ==>
      forall i :: 0 <= i < |db.accounts(spec).value| ==> RowID(db.accounts(spec).value[i]) in ids
  }

  /** The same for the account-group query and what is nested in it; account queries may fail. */
  ghost predicate HonestLinks(db: Database) {
    && (forall b, ids :: var q := Stepped(b, Where(KeyIn(ids)));
          db.links(q).Some? && LinksRequested(db.links(q).value, ids))
    && (forall b, ids :: var q := Stepped(b, Where(IDIn(ids))); AllIn(db.groupsByID(q), ids))
    && (forall spec, ids :: AccountsIn(db, Asking(spec, ids), ids))
  }

  lemma AllInAnswers(rows: seq<NodeRow>, keys: seq<Option<int>>)
    requires AllIn(Some(rows), DistinctKeys(keys)) && DistinctKeys(keys) != []
    ensures ToOneAnswered(Some(Answered(rows)), keys)
  {
    DistinctKeysContents(keys, DistinctKeys(keys));
    hide DistinctKeys;
  }

  lemma NothingAsked(keys: seq<Option<int>>, query: Option<seq<int> -> seq<NodeRow>>)
    requires DistinctKeys(keys) == []
    ensures ToOneAnswered(query, keys)
  {
  }

  // ---------- the condition ----------

  /** The group query carries a join from before, and with the new one it returns some row. */
  ghost predicate GroupsShift(db: Database, v: AccountView, ids: seq<int>) {
    && v.groups.Some? && Joins(v.groups.value.predicates) > 0
    && db.groups(Stepped(v.groups.value, Where(JoinedTo(ids)))).Some?
    && db.groups(Stepped(v.groups.value, Where(JoinedTo(ids)))).value != []
  }

  /** What the account-group query returns for these accounts. */
  function LinkRowsFor(db: Database, v: LinkView, ids: seq<int>): Option<seq<LinkRow>> {
    db.links(Stepped(Stepped(v.base, KeyField(LinkAccountID)), Where(KeyIn(ids))))
  }

  /** The account query that loadAccount runs for some links. */
  function AskedFor(v: AccountView, rows: seq<LinkRow>): (w: AccountView)
    ensures Height(w) == Height(v)
  {
    v.(base := Stepped(v.base, Where(IDIn(DistinctKeys(LinkAccountKeys(rows))))))
  }

  /** An account query fails for its own sake, for its groups, or for the account query two levels below. */
  ghost predicate RunFails(db: Database, v: AccountView)
    decreases Height(v), 1
  {
    || InvalidField(v.base.ctx.fields).Some?
    || PathFails(db, v)
    || var rows := db.accounts(RunSpec(db, v));
       || rows.None?
       || !Readable(Unloaded(Prepared(db, v), rows.value), db.json)
       || (rows.value != [] && (GroupsShift(db, v, RowIDs(rows.value)) || LinksFail(db, v, RowIDs(rows.value))))
  }

  ghost predicate LinksFail(db: Database, v: AccountView, ids: seq<int>)
    decreases Height(v), 0
  {
    && v.links.Some? && v.links.value.account.Some?
    && var rows := LinkRowsFor(db, v.links.value, ids);
       rows.Some? && rows.value != [] && RunFails(db, AskedFor(v.links.value.account.value, rows.value))
  }

  // ---------- the steps ----------

  lemma OneJoin(p: Predicate)
    ensures Joins([p]) == if p.JoinedTo? then 1 else 0
  {
    assert [p][..0] == [];
  }

  /** The groups of an honest database are loaded, unless their columns have been shifted. */
  lemma GroupsStepFails(db: Database, p: Progress)
    requires HonestEdges(db) && p.error.None? && PlanFits(p.view, p.plan)
    ensures
      GroupsStep(db, p).error ==
      if GroupsShift(db, p.view, RowIDs(p.plan.rows)) then Some(Panicked(ShiftedColumns)) else None
  {
    hide Requested, AllIn, LogsRequested, RowIDs, Selection, Aligned;
    if p.view.groups.Some? {
      var b, ids := p.view.groups.value, RowIDs(p.plan.rows);
      var q := Stepped(b, Where(JoinedTo(ids)));
      assert db.groups(q).Some? && Requested(db.groups(q).value, ids);
      JoinsAppend(b.predicates, [JoinedTo(ids)]);
      OneJoin(JoinedTo(ids));
      hide Joins;
      AlignedIffOneJoin(q.ctx.fields, q.predicates);
    }
  }

  lemma AllInIsSome(rows: Option<seq<NodeRow>>, ids: seq<int>)
    requires AllIn(rows, ids)
    ensures rows.Some? && AllIn(Some(rows.value), ids)
  {
  }

  lemma NotAsked(keys: seq<Option<int>>)
    ensures ToOneAnswered(None, keys)
  {
  }

  lemma ProxiesStepHonest(db: Database, p: Progress)
    requires HonestEdges(db) && p.error.None? && PlanFits(p.view, p.plan)
    ensures ProxiesStep(db, p).error.None?
  {
    hide Stepped, Requested, AllIn, LogsRequested, RowKeys, DistinctKeys, ToOneAnswered;
    var keys := RowKeys(p.plan.rows, ProxyID);
    if p.view.proxy.Some? && DistinctKeys(keys) != [] {
      var b := Stepped(p.view.proxy.value, Where(IDIn(DistinctKeys(keys))));
      assert AllIn(db.proxies(b), DistinctKeys(keys));
      AllInIsSome(db.proxies(b), DistinctKeys(keys));
      AllInAnswers(db.proxies(b).value, keys);
    } else if p.view.proxy.Some? {
      NothingAsked(keys, p.plan.withProxy);
    } else {
      NotAsked(keys);
    }
  }

  lemma OwnersStepHonest(db: Database, p: Progress)
    requires HonestEdges(db) && p.error.None? && PlanFits(p.view, p.plan)
    ensures OwnersStep(db, p).error.None?
  {
    hide Stepped, Requested, AllIn, LogsRequested, RowKeys, DistinctKeys, ToOneAnswered;
    var keys := RowKeys(p.plan.rows, OwnerUserID);
    if p.view.owner.Some? && DistinctKeys(keys) != [] {
      var b := Stepped(p.view.owner.value, Where(IDIn(DistinctKeys(keys))));
      assert AllIn(db.owners(b), DistinctKeys(keys));
      AllInIsSome(db.owners(b), DistinctKeys(keys));
      AllInAnswers(db.owners(b).value, keys);
    } else if p.view.owner.Some? {
      NothingAsked(keys, p.plan.withOwner);
    } else {
      NotAsked(keys);
    }
  }

  lemma UsageLogsStepHonest(db: Database, p: Progress)
    requires HonestEdges(db) && p.error.None? && PlanFits(p.view, p.plan)
    ensures UsageLogsStep(db, p).error.None?
  {
    hide Stepped, Requested, AllIn, LogsRequested, RowIDs;
    if p.view.usageLogs.Some? {
      var b, ids := Stepped(p.view.usageLogs.value, KeyField(LogAccountID)), RowIDs(p.plan.rows);
      assert LogsRequested(db.usageLogs(Stepped(b, Where(KeyIn(ids)))).value, ids);
    }
  }

  lemma FirstEdgesFail(db: Database, p: Progress)
    requires HonestEdges(db) && p.error.None? && PlanFits(p.view, p.plan)
    ensures FirstEdges(db, p).error.Some? <==> GroupsShift(db, p.view, RowIDs(p.plan.rows))
    ensures PlanFits(FirstEdges(db, p).view, FirstEdges(db, p).plan)
  {
    hide GroupsStep, ProxiesStep, OwnersStep, UsageLogsStep, HonestEdges, GroupsShift;
    var p1 := GroupsStep(db, p);
    var p2 := ProxiesStep(db, p1);
    var p3 := OwnersStep(db, p2);
    GroupsStepFails(db, p);
    GroupsStepKeeps(db, p);
    ProxiesStepKeeps(db, p1);
    OwnersStepKeeps(db, p2);
    UsageLogsStepKeeps(db, p3);
    if p1.error.None? {
      ProxiesStepHonest(db, p1);
      OwnersStepHonest(db, p2);
      UsageLogsStepHonest(db, p3);
    }
  }

  // ---------- the account-group query ----------

  lemma AsksSpec(db: Database, v: AccountView, ids: seq<int>)
    ensures
      var asked := v.(base := Stepped(v.base, Where(IDIn(ids))));
      SpecOf(Prepared(db, asked)) == Asking(SpecOf(Prepared(db, v)), ids)
  {
    hide AccountColumns;
  }

  /** The accounts that a nested run loads were asked for. */
  lemma NestedAnswers(db: Database, v: AccountView, keys: seq<Option<int>>)
    requires HonestLinks(db)
    requires
      var asked := v.(base := Stepped(v.base, Where(IDIn(DistinctKeys(keys)))));
      RunAccounts(db, asked).1.Ran?
    ensures
      var asked := v.(base := Stepped(v.base, Where(IDIn(DistinctKeys(keys)))));
      Answers(LoadedAccounts(db.json, RunAccounts(db, asked).1.plan), keys)
  {
    hide RunAccounts, SpecOf, Stepped, DistinctKeys, AllIn, LinksRequested, DecodeRow, SelectedColumns, Scannable,
      RowID, RowKey, Prepared;
    var ids := DistinctKeys(keys);
    var asked := v.(base := Stepped(v.base, Where(IDIn(ids))));
    var plan := RunAccounts(db, asked).1.plan;
    RunKeepsMain(db, asked);
    AsksSpec(db, v, ids);
    assert AccountsIn(db, Asking(SpecOf(Prepared(db, v)), ids), ids);
    DistinctKeysContents(keys, ids);
    var rows := LoadedAccounts(db.json, plan);
    forall i | 0 <= i < |rows| ensures Some(rows[i].id) in keys {
      assert ReadableRow(plan, plan.rows[i], db.json);
      DecodedKeys(plan, plan.rows[i], db.json);
    }
  }

  /** The keys of the links are those of the rows, whatever is selected. */
  lemma ScannedAccountKeys(plan: AccountGroupPlan, ids: seq<int>)
    ensures LinkAccountKeys(PlannedLinks(plan, ids)) == LinkAccountKeys(plan.run(ids))
  {
  }

  lemma SomeKeys(rows: seq<LinkRow>)
    requires rows != []
    ensures DistinctKeys(LinkAccountKeys(rows)) != [] && DistinctKeys(LinkGroupKeys(rows)) != []
  {
    DistinctKeysContents(LinkAccountKeys(rows), DistinctKeys(LinkAccountKeys(rows)));
    DistinctKeysContents(LinkGroupKeys(rows), DistinctKeys(LinkGroupKeys(rows)));
    hide DistinctKeys;
    assert LinkAccountKeys(rows)[0] in LinkAccountKeys(rows) && LinkGroupKeys(rows)[0] in LinkGroupKeys(rows);
  }

  /** loadAccount fails exactly when the account query does. */
  lemma LinkAccountsFail(db: Database, v: LinkView, plan: AccountGroupPlan, rows: seq<LinkRow>)
    requires HonestLinks(db) && rows != [] && plan.withAccount == AnsweredIf(v.account.Some?, [])
    ensures
      var keys := LinkAccountKeys(rows);
      var result := QueryLinkAccounts(db, v, plan, keys).1;
      && (result.Failed? <==> v.account.Some? && RunAccounts(db, AskedFor(v.account.value, rows)).1.Failed?)
      && (result.Ran? ==>
            && result.plan == plan.(withAccount := result.plan.withAccount)
            && result.plan.withAccount.Some? == v.account.Some?
            && LinkEdgeAnswered(result.plan.withAccount, keys))
    ensures QueryLinkAccounts(db, v, plan, LinkAccountKeys(rows)).0.group == v.group
  {
    hide RunAccounts, DistinctKeys, LinkAccountKeys, LoadedAccounts, HonestLinks, Stepped, Answers, LinkGroupKeys;
    SomeKeys(rows);
    var keys := LinkAccountKeys(rows);
    if v.account.Some? && RunAccounts(db, AskedFor(v.account.value, rows)).1.Ran? {
      NestedAnswers(db, v.account.value, keys);
    }
  }

  /** loadGroup never fails. */
  lemma LinkGroupsHonest(db: Database, v: LinkView, plan: AccountGroupPlan, keys: seq<Option<int>>)
    requires HonestLinks(db) && DistinctKeys(keys) != [] && plan.withGroup == AnsweredIf(v.group.Some?, [])
    ensures
      var result := QueryLinkGroups(db, v, plan, keys).1;
      && result.Ran? && result.plan == plan.(withGroup := result.plan.withGroup)
      && result.plan.withGroup.Some? == v.group.Some?
      && LinkEdgeAnswered(result.plan.withGroup, keys)
  {
    hide DistinctKeys, Stepped, LinksRequested, AccountsIn, Answers, AllIn;
    if v.group.Some? {
      var ids := DistinctKeys(keys);
      var b := Stepped(v.group.value, Where(IDIn(ids)));
      assert AllIn(db.groupsByID(b), ids);
      AllInIsSome(db.groupsByID(b), ids);
      AllInAnswers(db.groupsByID(b).value, keys);
    }
  }

  /** Without links there is nothing to answer. */
  lemma NoLinks(plan: AccountGroupPlan, ids: seq<int>)
    requires plan.run(ids) == []
    ensures LinksRequested(PlannedLinks(plan, ids), ids) && LinkEdgesAnswered(plan, ids)
  {
    assert PlannedLinks(plan, ids) == [];
    assert LinkAccountKeys([]) == [] && LinkGroupKeys([]) == [];
  }

  lemma SamePlannedLinks(plan: AccountGroupPlan, plan': AccountGroupPlan, ids: seq<int>)
    requires plan'.fields == plan.fields && plan'.run == plan.run
    requires plan'.withAccount.Some? == plan.withAccount.Some? && plan'.withGroup.Some? == plan.withGroup.Some?
    ensures PlannedLinks(plan', ids) == PlannedLinks(plan, ids)
  {
  }

  /** The account-group query runs and hands its links out, unless the account query below it fails. */
  lemma LinkRunFails(db: Database, v: LinkView, ids: seq<int>)
    requires HonestLinks(db)
    ensures LinkRowsFor(db, v, ids).Some?
    ensures
      var rows, result := LinkRowsFor(db, v, ids).value, RunLinks(db, v, ids).1;
      (result.Failed? <==>
        v.account.Some? && rows != [] && RunAccounts(db, AskedFor(v.account.value, rows)).1.Failed?)
      && (result.Ran? ==>
            LinksRequested(PlannedLinks(result.plan, ids), ids) && LinkEdgesAnswered(result.plan, ids))
  {
    hide RunAccounts, DistinctKeys, LinkAccountKeys, LinkGroupKeys, Stepped, LinkEdgeAnswered, QueryLinkAccounts,
      QueryLinkGroups, AskedFor, GroupColumn;
    var b := Stepped(Stepped(v.base, KeyField(LinkAccountID)), Where(KeyIn(ids)));
    assert db.links(b).Some? && LinksRequested(db.links(b).value, ids);
    hide HonestLinks;
    var rows := db.links(b).value;
    var v0, plan := v.(base := b), LinkPlan(v, b, rows);
    if rows == [] {
      NoLinks(plan, ids);
    } else {
      var scanned := PlannedLinks(plan, ids);
      ScannedAccountKeys(plan, ids);
      LinkAccountsFail(db, v0, plan, rows);
      var r1 := QueryLinkAccounts(db, v0, plan, LinkAccountKeys(rows));
      SomeKeys(scanned);
      if r1.1.Ran? {
        LinkGroupsHonest(db, r1.0, r1.1.plan, LinkGroupKeys(scanned));
        SamePlannedLinks(plan, QueryLinkGroups(db, r1.0, r1.1.plan, LinkGroupKeys(scanned)).1.plan, ids);
      }
    }
  }

  lemma LinksStepFails(db: Database, p: Progress)
    requires p.error.None? && PlanFits(p.view, p.plan) && (p.view.links.Some? ==> HonestLinks(db))
    ensures
      var ids := RowIDs(p.plan.rows);
      LinksStep(db, p).error.Some? <==>
        && p.view.links.Some? && p.view.links.value.account.Some?
        && var rows := LinkRowsFor(db, p.view.links.value, ids);
           rows.Some? && rows.value != []
           && RunAccounts(db, AskedFor(p.view.links.value.account.value, rows.value)).1.Failed?
  {
    hide RunLinks, RowIDs, LinksRequested, LinkEdgesAnswered, PlannedLinks, RunAccounts, HonestLinks, LinkRowsFor,
      AskedFor;
    if p.view.links.Some? {
      LinkRunFails(db, p.view.links.value, RowIDs(p.plan.rows));
    }
  }

  // ---------- a run ----------

  lemma PreparedEdges(db: Database, v: AccountView, ids: seq<int>)
    ensures GroupsShift(db, Prepared(db, v), ids) <==> GroupsShift(db, v, ids)
    ensures Prepared(db, v).links == v.links
  {
  }

  lemma UnloadedFits(v: AccountView, rows: seq<Row>)
    ensures PlanFits(v, Unloaded(v, rows)) && Unloaded(v, rows).rows == rows
  {
  }

  /**
   On an honest database, a run fails exactly when a selected field is no column, its path or
   its own query fails, a row cannot be read, its group query was run before and still returns
   a row, or the account query below its links fails in the same sense.
   */
  lemma {:induction false} RunFailsIff(db: Database, v: AccountView)
    requires HonestEdges(db) && (v.links.Some? ==> HonestLinks(db))
    ensures RunAccounts(db, v).1.Failed? <==> RunFails(db, v)
    decreases Height(v)
  {
    hide InvalidField, Readable, SpecOf, HonestEdges, HonestLinks, Unloaded, FirstEdges, LinksStep, RowIDs,
      GroupsShift, LinkRowsFor, AskedFor;
    var w := Prepared(db, v);
    if InvalidField(v.base.ctx.fields).None? && !PathFails(db, v) && db.accounts(SpecOf(w)).Some? {
      var rows := db.accounts(SpecOf(w)).value;
      var p := Progress(w, Unloaded(w, rows), None);
      UnloadedFits(w, rows);
      PreparedEdges(db, v, RowIDs(rows));
      FirstEdgesFail(db, p);
      if FirstEdges(db, p).error.None? {
        LinksStepFails(db, FirstEdges(db, p));
      }
      if v.links.Some? && v.links.value.account.Some? {
        var links := LinkRowsFor(db, v.links.value, RowIDs(rows));
        if links.Some? {
          RunFailsIff(db, AskedFor(v.links.value.account.value, links.value));
        }
      }
    }
  }

  // ---------- the panic of a repeated run ----------

  /** The run has rows of its own, and so gets to its edges. */
  ghost predicate ReachesEdges(db: Database, v: AccountView) {
    && InvalidField(v.base.ctx.fields).None? && !PathFails(db, v)
    && var rows := db.accounts(RunSpec(db, v));
       rows.Some? && rows.value != [] && Readable(Unloaded(Prepared(db, v), rows.value), db.json)
  }

  /** No loader after loadGroups, at this level, comes across shifted columns. */
  lemma LaterStepErrors(db: Database, p: Progress)
    ensures
      var shifted := Some(Panicked(ShiftedColumns));
      && (ProxiesStep(db, p).error == shifted ==> p.error == shifted)
      && (OwnersStep(db, p).error == shifted ==> p.error == shifted)
      && (UsageLogsStep(db, p).error == shifted ==> p.error == shifted)
  {
    hide Stepped, ToOneAnswered, UsageLogsRequested, RowKeys, RowIDs, DistinctKeys;
  }

  lemma LinkRunErrors(db: Database, v: LinkView, ids: seq<int>)
    ensures RunLinks(db, v, ids).1.Failed? ==> RunLinks(db, v, ids).1.error != Panicked(ShiftedColumns)
  {
    hide Stepped, DistinctKeys, Answers, RunAccounts, PlannedLinks, LoadedAccounts, LinkAccountKeys, LinkGroupKeys;
  }

  lemma QueryLinksErrors(db: Database, p: Progress)
    ensures
      var shifted := Some(Panicked(ShiftedColumns));
      QueryLinks(db, p).error == shifted ==> p.error == shifted
  {
    hide RowIDs, RunLinks;
    if p.error.None? && p.view.links.Some? {
      var ids := RowIDs(p.plan.rows);
      LinkRunErrors(db, p.view.links.value, ids);
      var result := RunLinks(db, p.view.links.value, ids).1;
      assert result.Failed? ==> QueryLinks(db, p).error == Some(result.error);
      assert result.Ran? ==> QueryLinks(db, p).error == None;
    }
  }

  lemma LinksStepErrors(db: Database, p: Progress)
    ensures
      var shifted := Some(Panicked(ShiftedColumns));
      LinksStep(db, p).error == shifted ==> p.error == shifted
  {
    hide QueryLinks, AccountGroupsRequested;
    QueryLinksErrors(db, p);
  }

  lemma GroupsStepPanics(db: Database, p: Progress)
    requires p.error.None?
    ensures GroupsStep(db, p).error == Some(Panicked(ShiftedColumns)) <==> GroupsShift(db, p.view, RowIDs(p.plan.rows))
  {
    hide RowIDs, Selection, Aligned, GroupsRequested;
    if p.view.groups.Some? {
      var b, ids := p.view.groups.value, RowIDs(p.plan.rows);
      JoinsAppend(b.predicates, [JoinedTo(ids)]);
      OneJoin(JoinedTo(ids));
      hide Joins;
      AlignedIffOneJoin(b.ctx.fields, b.predicates + [JoinedTo(ids)]);
    }
  }

  /**
   On any database, the panic over shifted columns ends a run exactly when it gets to its
   edges, its group query already carries a join, and with the new one it returns a row.
   */
  lemma ShiftPanicsIff(db: Database, v: AccountView)
    ensures
      RunAccounts(db, v).1 == Failed(Panicked(ShiftedColumns)) <==>
      ReachesEdges(db, v) && GroupsShift(db, v, RowIDs(db.accounts(RunSpec(db, v)).value))
  {
    hide InvalidField, Readable, SpecOf, Unloaded, GroupsStep, ProxiesStep, OwnersStep, UsageLogsStep, LinksStep,
      RowIDs, GroupsShift;
    var w := Prepared(db, v);
    if InvalidField(v.base.ctx.fields).None? && !PathFails(db, v) && db.accounts(SpecOf(w)).Some? {
      var rows := db.accounts(SpecOf(w)).value;
      var p := Progress(w, Unloaded(w, rows), None);
      UnloadedFits(w, rows);
      PreparedEdges(db, v, RowIDs(rows));
      var p1 := GroupsStep(db, p);
      var p2 := ProxiesStep(db, p1);
      var p3 := OwnersStep(db, p2);
      GroupsStepPanics(db, p);
      LaterStepErrors(db, p1);
      LaterStepErrors(db, p2);
      LaterStepErrors(db, p3);
      LinksStepErrors(db, FirstEdges(db, p));
    }
  }
}
