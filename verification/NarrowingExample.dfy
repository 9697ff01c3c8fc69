/**
 A later call that loses an edge, on one small database, and the way around it: running each
 call on a clone.
 */
module NarrowingExample {
  import opened Common
  import opened RowCodec
  import opened Entities
  import opened Projection
  import opened EagerLoading
  import opened ToOneLoading
  import opened ToManyLoading
  import opened AccountLoading
  import opened QueryBuilder
  import opened QuerySpecs
  import opened EagerRuns
  import opened RunFailures
  import opened QueryRuns
  import opened NarrowedEdges
  import opened LaterEdges

  // ---------- two accounts, two proxies ----------

  /** Account n has proxy n. */
  function ExampleRow(n: int): Row {
    (c: Column) => if c == ID || c == ProxyID then IntCell(n) else Null
  }

  function TwoRows(): seq<Row> {
    [ExampleRow(1), ExampleRow(2)]
  }

  function TwoProxies(): seq<NodeRow> {
    [NodeRow(1, "one"), NodeRow(2, "two")]
  }

  predicate Passes(n: NodeRow, ps: seq<Predicate>) {
    forall p :: p in ps ==> p.IDIn? ==> n.id in p.ids
  }

  function SelectedProxies(ps: seq<Predicate>): seq<NodeRow> {
    Filter(TwoProxies(), (n: NodeRow) => Passes(n, ps))
  }

  ghost function Example(json: JsonCodec): Database {
    Database(
      (spec: QuerySpec) => Some(Cut(TwoRows(), spec.limit)),
      (b: Base<string>) => Some([]),
      (b: Base<string>) => Some(SelectedProxies(b.predicates)),
      (b: Base<string>) => Some([]),
      (b: Base<LogColumn>) => Some([]),
      (b: Base<LinkColumn>) => Some([]),
      (b: Base<string>) => Some([]),
      (path: string) => None,
      json)
  }

  /** The ids of all accounts, with their proxies. */
  function ExampleQuery(): AccountView {
    var base: Base<Column> := EmptyBase();
    EMPTY_ACCOUNT.(base := base.(ctx := base.ctx.(fields := [ID])), proxy := Some(EmptyBase()))
  }

  lemma AreSelected(ps: seq<Predicate>)
    ensures forall n :: n in SelectedProxies(ps) <==> n in TwoProxies() && Passes(n, ps)
  {
    hide TwoProxies, Filter, Passes;
    FilterContents(TwoProxies(), (n: NodeRow) => Passes(n, ps), SelectedProxies(ps));
  }

  lemma PassesOneMore(ps: seq<Predicate>, p: Predicate, n: NodeRow)
    ensures Passes(n, ps + [p]) <==> Passes(n, ps) && (p.IDIn? ==> n.id in p.ids)
  {
    assert forall q :: q in ps + [p] <==> q in ps || q == p;
  }

  lemma ProxiesSelected(json: JsonCodec, b: Base<string>)
    ensures Example(json).proxies(b) == Some(SelectedProxies(b.predicates))
    ensures Example(json).owners(b) == Some([]) && Example(json).groups(b) == Some([])
  {
    hide SelectedProxies;
  }

  lemma NoLogs(json: JsonCodec, b: Base<LogColumn>)
    ensures Example(json).usageLogs(b) == Some([])
  {
    hide SelectedProxies;
  }

  lemma ProxiesFiltered(json: JsonCodec, b: Base<string>, p: Predicate)
    requires OnID(p)
    ensures FiltersBy(Example(json).proxies, MeetsID, b, p)
  {
    hide SelectedProxies, TwoProxies, Passes, Example;
    ProxiesSelected(json, b);
    ProxiesSelected(json, Plus(b, [p]));
    AreSelected(b.predicates);
    AreSelected(b.predicates + [p]);
    forall n ensures Passes(n, b.predicates + [p]) <==> Passes(n, b.predicates) && MeetsID(n, p) {
      PassesOneMore(b.predicates, p, n);
    }
  }

  lemma ProxiesAsked(json: JsonCodec, b: Base<string>, ids: seq<int>)
    ensures AllIn(Example(json).proxies(Stepped(b, Where(IDIn(ids)))), ids)
  {
    hide SelectedProxies, TwoProxies, Passes, Example;
    var rows := SelectedProxies(b.predicates + [IDIn(ids)]);
    ProxiesSelected(json, Stepped(b, Where(IDIn(ids))));
    AreSelected(b.predicates + [IDIn(ids)]);
    forall i | 0 <= i < |rows| ensures rows[i].id in ids {
      assert rows[i] in rows;
      PassesOneMore(b.predicates, IDIn(ids), rows[i]);
    }
  }

  lemma OwnersFiltered(json: JsonCodec, b: Base<string>, p: Predicate)
    ensures Example(json).owners(b).Some? && FiltersBy(Example(json).owners, MeetsID, b, p)
  {
    hide Example;
    ProxiesSelected(json, b);
    ProxiesSelected(json, Plus(b, [p]));
  }

  lemma ExampleTables(json: JsonCodec)
    ensures ToOneTables(Example(json))
  {
    hide FiltersBy, Whole, OnID, Example;
    var db := Example(json);
    forall b: Base<string>, p: Predicate | OnID(p) && db.proxies(b).Some? ensures FiltersBy(db.proxies, MeetsID, b, p) {
      ProxiesFiltered(json, b, p);
    }
    forall b: Base<string>, p: Predicate | OnID(p) && db.owners(b).Some? ensures FiltersBy(db.owners, MeetsID, b, p) {
      OwnersFiltered(json, b, p);
    }
  }

  lemma ExampleHonest(json: JsonCodec)
    ensures HonestEdges(Example(json))
  {
    hide SelectedProxies, Stepped, Example;
    var db := Example(json);
    forall b: Base<string>, ids ensures AllIn(db.proxies(Stepped(b, Where(IDIn(ids)))), ids) {
      ProxiesAsked(json, b, ids);
    }
    forall b: Base<string>, ids ensures AllIn(db.owners(Stepped(b, Where(IDIn(ids)))), ids) {
      ProxiesSelected(json, Stepped(b, Where(IDIn(ids))));
    }
    forall b: Base<string>, ids
      ensures
        var q := Stepped(b, Where(JoinedTo(ids)));
        db.groups(q).Some? && Requested(db.groups(q).value, ids)
    {
      ProxiesSelected(json, Stepped(b, Where(JoinedTo(ids))));
    }
    forall b: Base<LogColumn>, ids
      ensures
        var q := Stepped(b, Where(KeyIn(ids)));
        db.usageLogs(q).Some? && LogsRequested(db.usageLogs(q).value, ids)
    {
      NoLogs(json, Stepped(b, Where(KeyIn(ids))));
    }
  }

  /** Some run of the example query, under a limit. */
  ghost predicate RunOfExample(w: AccountView, limit: Option<nat>) {
    && SameMain(w, WithLimit(ExampleQuery(), limit))
    && w.groups.None? && w.usageLogs.None? && w.links.None?
  }

  lemma ExampleColumns()
    ensures AccountColumns([ID], true, false) == [ID, ProxyID]
  {
    WithoutID([]);
  }

  lemma ExampleFields()
    ensures InvalidField([ID]).None?
  {
    assert [ID][1..] == [];
  }

  lemma ExampleRowReadable(json: JsonCodec, n: int)
    ensures Scannable([ID, ProxyID], ExampleRow(n)) && DecodeRow([ID, ProxyID], ExampleRow(n), json).Done?
  {
    hide Scannable, DecodeRow;
    DecodeKeys([ID, ProxyID], ExampleRow(n), json, true, false);
  }

  lemma ExampleReadable(json: JsonCodec, w: AccountView, limit: Option<nat>)
    requires RunOfExample(w, limit)
    ensures InvalidField(w.base.ctx.fields).None?
    ensures Readable(Unloaded(w, Cut(TwoRows(), OrZero(limit))), json)
  {
    hide InvalidField, AccountColumns, ExampleRow, Scannable, DecodeRow;
    ExampleFields();
    ExampleColumns();
    ExampleRowReadable(json, 1);
    ExampleRowReadable(json, 2);
    assert SelectedColumns(Unloaded(w, [])) == [ID, ProxyID];
  }

  lemma ExamplePrepared(json: JsonCodec, w: AccountView, limit: Option<nat>)
    requires RunOfExample(w, limit)
    ensures Prepared(Example(json), w) == w && !PathFails(Example(json), w) && Example(json).json == json
    ensures Example(json).accounts(SpecOf(w)) == Some(Cut(TwoRows(), OrZero(limit)))
  {
    hide AccountColumns, TwoRows, SelectedProxies;
  }

  lemma ExampleFine(json: JsonCodec, w: AccountView, limit: Option<nat>)
    requires RunOfExample(w, limit)
    ensures !RunFails(Example(json), w)
  {
    hide SpecOf, Example, TwoRows, Readable, Unloaded, InvalidField, Prepared, PathFails;
    ExamplePrepared(json, w, limit);
    ExampleReadable(json, w, limit);
  }

  lemma ExampleRan(json: JsonCodec, w: AccountView, limit: Option<nat>)
    requires RunOfExample(w, limit)
    ensures
      var result := RunAccounts(Example(json), w).1;
      result.Ran? && result.plan.rows == Cut(TwoRows(), OrZero(limit))
  {
    hide SpecOf, Example, TwoRows, Readable, Unloaded, InvalidField, HonestEdges, RunAccounts, RunFails, Prepared;
    ExampleHonest(json);
    ExampleFine(json, w, limit);
    ExamplePrepared(json, w, limit);
    RunFailsIff(Example(json), w);
    RunKeepsMain(Example(json), w);
  }

  lemma NoDistinctKeys()
    ensures DistinctKeys([]) == []
  {
  }

  lemma ExampleKeys()
    ensures DistinctKeys(RowKeys([ExampleRow(1)], ProxyID)) == [1]
  {
    hide RowKeys, DistinctKeys;
    NoDistinctKeys();
    DistinctExtend([], Some(1));
    assert RowKeys([ExampleRow(1)], ProxyID) == [] + [Some(1)];
  }

  lemma ExampleAnswers(w: AccountView)
    ensures Cut(TwoRows(), 1) == [ExampleRow(1)] && Unloaded(w, [ExampleRow(1)]).rows == [ExampleRow(1)]
  {
    hide ExampleRow;
    assert TwoRows()[..1] == [ExampleRow(1)];
  }

  lemma GroupsNotAsked(db: Database, p: Progress)
    requires p.error.None? && p.view.groups.None? && p.plan.withGroups.None?
    ensures GroupsStep(db, p) == p
  {
    hide RowIDs, Stepped;
    var r := QueryGroups(db, p);
    assert r == p;
    assert GroupsRequested(p.plan);
    assert GroupsStep(db, p) == Refuse(r, GroupsRequested(p.plan), Panicked(NilNode));
  }

  lemma FirstAsks(json: JsonCodec)
    ensures ProxyAsk(Example(json), Limited(ExampleQuery(), ReadFirst)) == [IDIn([1])]
  {
    hide GroupsStep, DistinctKeys, RowKeys, ExampleRow, InvalidField, Readable, SpecOf, Example, Prepared, PathFails;
    var db, w := Example(json), Limited(ExampleQuery(), ReadFirst);
    ExampleReadable(json, w, Some(1));
    ExamplePrepared(json, w, Some(1));
    ExampleAnswers(w);
    ExampleKeys();
    GroupsNotAsked(db, Progress(w, Unloaded(w, [ExampleRow(1)]), None));
  }

  // ---------- the call that loses an edge ----------

  lemma ExampleLimit(calls: seq<Read>)
    requires calls == [] || calls == [ReadFirst, SetTo(0)]
    ensures LimitAfter(calls, ExampleQuery().base.ctx.limit) == if calls == [] then None else Some(0)
  {
  }

  /** Without a path there is no selector to change. */
  lemma NoPathSame(db: Database, v: AccountView, w: AccountView)
    requires SameQuery(db, v, w) && w.base.path.None?
    ensures SameMain(v, w)
  {
  }

  lemma AllLimited(v: AccountView)
    ensures Limited(v, ReadAll) == v
  {
  }

  lemma ExampleStays(db: Database, calls: seq<Read>)
    requires calls == [] || calls == [ReadFirst, SetTo(0)]
    ensures RunOfExample(Limited(After(db, ExampleQuery(), calls), ReadAll), if calls == [] then None else Some(0))
  {
    hide After, GroupsAsks, ProxyAsks, OwnerAsks, UsageLogsAsks, LinksAsks, Limited, LimitAfter, SameQuery;
    var limit := if calls == [] then None else Some(0);
    AfterMain(db, ExampleQuery(), calls);
    AfterIsNarrowed(db, ExampleQuery(), calls);
    LinksAreNarrowed(db, ExampleQuery(), calls);
    ExampleLimit(calls);
    NoPathSame(db, After(db, ExampleQuery(), calls), WithLimit(ExampleQuery(), limit));
    AllLimited(After(db, ExampleQuery(), calls));
  }

  lemma NoAsks(db: Database, v: AccountView)
    ensures ProxyAsks(db, v, []) == [] && After(db, v, []) == v
  {
  }

  lemma AskedOnce(db: Database, v: AccountView)
    ensures ProxyAsks(db, v, [ReadFirst, SetTo(0)]) == ProxyAsk(db, Limited(v, ReadFirst))
  {
    hide ProxyAsks, GroupsAsks, OwnerAsks, UsageLogsAsks, LinksAsks, ProxyAsk, Limited, After;
    var one, two := [ReadFirst], [ReadFirst, SetTo(0)];
    assert one[..0] == [] && two[..1] == one;
    NoAsks(db, v);
    AsksStep(db, v, [], ReadFirst, one);
    AsksStep(db, v, one, SetTo(0), two);
  }

  lemma ExampleAsks(json: JsonCodec, calls: seq<Read>)
    requires calls == [] || calls == [ReadFirst, SetTo(0)]
    ensures ProxyAsks(Example(json), ExampleQuery(), calls) == if calls == [] then [] else [IDIn([1])]
  {
    hide ProxyAsk, Limited, After, Example, Asks;
    var db, v := Example(json), ExampleQuery();
    NoAsks(db, v);
    if calls != [] {
      FirstAsks(json);
      AskedOnce(db, v);
    }
  }

  lemma SeenNodes(db: Database, w: AccountView, i: int)
    requires RunAccounts(db, w).1.Ran? && 0 <= i < |RunAccounts(db, w).1.plan.rows|
    requires Readable(RunAccounts(db, w).1.plan, db.json)
    ensures
      var seen, plan := Owed(db, w, ReadAll).1, RunAccounts(db, w).1.plan;
      && seen.SeenAll? && |seen.nodes| == |plan.rows| && ReadableRow(plan, plan.rows[i], db.json)
      && seen.nodes[i] == NodeOf(plan, db.json, i)
  {
    hide RunAccounts, ReadableRow, NodeOf;
  }

  lemma BothProxies()
    ensures forall n :: n in TwoProxies() <==> n == NodeRow(1, "one") || n == NodeRow(2, "two")
  {
    assert TwoProxies()[0] == NodeRow(1, "one") && TwoProxies()[1] == NodeRow(2, "two");
  }

  lemma NothingSelects()
    ensures forall n :: Passes(n, [])
  {
  }

  lemma ExampleProxies(json: JsonCodec)
    ensures
      var rows := Example(json).proxies(EmptyBase());
      rows.Some? && forall n :: n in rows.value <==> n == NodeRow(1, "one") || n == NodeRow(2, "two")
  {
    hide SelectedProxies, TwoProxies, Passes;
    AreSelected([]);
    BothProxies();
    NothingSelects();
  }

  /** What the narrowed proxy query says of account 2. */
  lemma SecondProxy(e: EdgeResult<NodeRow>, earlier: seq<Predicate>, all: seq<NodeRow>)
    requires forall n :: n in all <==> n == NodeRow(1, "one") || n == NodeRow(2, "two")
    requires LoadedIff(e, Some(2), earlier, all) && (earlier == [] || earlier == [IDIn([1])])
    ensures e == if earlier == [] then Value(NodeRow(2, "two")) else EdgeResult.NotFound
  {
    assert NodeRow(2, "two") in all && NodeRow(2, "two").id == 2;
    if earlier != [] {
      assert IDIn([1]) in earlier && 2 !in [1];
    }
  }

  lemma ExampleStart(json: JsonCodec, v: AccountView)
    ensures ExampleQuery().proxy == Some(EmptyBase()) && Whole(ExampleQuery().proxy.value)
    ensures Limited(v, ReadAll) == v
    ensures Example(json).json == json
  {
    hide ExampleRow, SelectedProxies;
  }

  lemma SecondKey()
    ensures RowKey(TwoRows()[1], ProxyID) == Some(2)
  {
  }

  /**
   First asks for the proxy of account 1 alone. A later All, with the limit that First set
   lifted again, returns both accounts, but finds no proxy for account 2; without that First,
   it finds proxy 2.
   */
  lemma FirstLosesProxy(json: JsonCodec, calls: seq<Read>)
    requires calls == [] || calls == [ReadFirst, SetTo(0)]
    ensures
      var seen := Owed(Example(json), After(Example(json), ExampleQuery(), calls), ReadAll).1;
      && seen.SeenAll? && |seen.nodes| == 2
      && seen.nodes[1].proxy == if calls == [] then Value(NodeRow(2, "two")) else EdgeResult.NotFound
  {
    hide ProxyAsks, Limited, After, RunAccounts, ToOneTables, ReadableRow, NodeOf, Example, ExampleQuery, ExampleRow,
      Owed, LoadedIff, RunOfExample, RowKey, Readable;
    var db, v := Example(json), ExampleQuery();
    var w := Limited(After(db, v, calls), ReadAll);
    ExampleTables(json);
    ExampleStays(db, calls);
    ExampleRan(json, w, if calls == [] then None else Some(0));
    ExampleAsks(json, calls);
    LaterIsRun(db, v, calls, ReadAll);
    RunKeepsMain(db, w);
    ExampleStart(json, After(db, v, calls));
    SecondKey();
    ExampleProxies(json);
    LaterProxy(db, v, calls, ReadAll, 1);
    SeenNodes(db, w, 1);
    SecondProxy(
      NodeOf(RunAccounts(db, w).1.plan, json, 1).proxy, ProxyAsks(db, v, calls), db.proxies(EmptyBase()).value);
  }

  // ---------- running each call on a clone ----------

  /**
   Clone the query for each call: then no call narrows another, and each answers as it would
   first, on the query without its modifiers. What an earlier run of the query itself has added
   is cloned too.
   */
  method CallClones(q: AccountQuery, calls: seq<Read>, db: Database)
    returns (answers: seq<Answer>, ghost seen: seq<Seen>)
    requires q.Valid()
    ensures q.Valid() && q.Repr == old(q.Repr) && q.View() == old(q.View())
    ensures |answers| == |seen| == |calls|
    ensures forall i :: 0 <= i < |calls| ==> seen[i] == Owed(db, Plain(q.View()), calls[i]).1
  {
    hide *;
    answers, seen := [], [];
    ghost var v := q.View();
    for i := 0 to |calls|
      invariant q.Valid() && q.View() == v && q.Repr == old(q.Repr)
      invariant |answers| == |seen| == i
      invariant forall k :: 0 <= k < i ==> seen[k] == Owed(db, Plain(v), calls[k]).1
    {
      var c := q.Clone();
      var a := Call(c, calls[i], db);
      answers, seen := answers + [a], seen + [ShownAnswer(a)];
    }
  }
}
