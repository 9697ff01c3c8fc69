/** A second All that panics, on a database with one account and one group. */
module RepeatExample {
  import opened Common
  import opened GroupJoin
  import opened RowCodec
  import opened EagerLoading
  import opened ToManyLoading
  import opened AccountLoading
  import opened Projection
  import opened QueryBuilder
  import opened QuerySpecs
  import opened GroupScan
  import opened EagerRuns
  import opened RunFailures
  import opened QueryRuns
  import opened NarrowedEdges
  import opened RepeatedGroups
  import opened NarrowingExample

  /** Every join asks for account 1. */
  predicate AsksForOne(ps: seq<Predicate>) {
    forall p :: p in ps ==> p.JoinedTo? ==> 1 in p.ids
  }

  /** Account 1 is linked to group 7. */
  function Joined(ps: seq<Predicate>): seq<JoinRow> {
    if AsksForOne(ps) then [JoinRow(1, NodeRow(7, "g"))] else []
  }

  ghost function OneGroup(json: JsonCodec): Database {
    Database(
      (spec: QuerySpec) => Some([ExampleRow(1)]),
      (b: Base<string>) => Some(Joined(b.predicates)),
      (b: Base<string>) => Some([]),
      (b: Base<string>) => Some([]),
      (b: Base<LogColumn>) => Some([]),
      (b: Base<LinkColumn>) => Some([]),
      (b: Base<string>) => Some([]),
      (path: string) => None,
      json)
  }

  /** The ids of all accounts, with their groups. */
  function GroupsQuery(): AccountView {
    var base: Base<Column> := EmptyBase();
    EMPTY_ACCOUNT.(base := base.(ctx := base.ctx.(fields := [ID])), groups := Some(EmptyBase()))
  }

  /** Some run of it. */
  ghost predicate RunOfGroups(w: AccountView) {
    SameMain(w, GroupsQuery()) && w.groups.Some? && w.usageLogs.None? && w.links.None?
  }

  lemma LastAsks(ps: seq<Predicate>, ids: seq<int>)
    ensures AsksForOne(ps + [JoinedTo(ids)]) ==> 1 in ids
  {
    assert (ps + [JoinedTo(ids)])[|ps|] == JoinedTo(ids);
  }

  lemma JoinedRequested(ps: seq<Predicate>, ids: seq<int>)
    ensures Requested(Joined(ps + [JoinedTo(ids)]), ids)
  {
    hide AsksForOne;
    LastAsks(ps, ids);
  }

  lemma OneGroupAsked(json: JsonCodec, b: Base<string>, ids: seq<int>)
    ensures
      var answer := OneGroup(json).groups(Stepped(b, Where(JoinedTo(ids))));
      answer.Some? && Requested(answer.value, ids)
  {
    hide Joined, Requested;
    JoinedRequested(b.predicates, ids);
  }

  lemma NoOtherRows(json: JsonCodec, b: Base<string>, l: Base<LogColumn>, ids: seq<int>)
    ensures AllIn(OneGroup(json).proxies(b), ids) && AllIn(OneGroup(json).owners(b), ids)
    ensures OneGroup(json).usageLogs(l).Some? && LogsRequested(OneGroup(json).usageLogs(l).value, ids)
  {
    hide Joined;
  }

  lemma OneGroupHonest(json: JsonCodec)
    ensures HonestEdges(OneGroup(json))
  {
    hide OneGroup, Stepped, Requested, LogsRequested, AllIn;
    forall b: Base<string>, ids
      ensures
        var answer := OneGroup(json).groups(Stepped(b, Where(JoinedTo(ids))));
        answer.Some? && Requested(answer.value, ids)
    {
      OneGroupAsked(json, b, ids);
    }
    forall b: Base<string>, ids
      ensures AllIn(OneGroup(json).proxies(Stepped(b, Where(IDIn(ids)))), ids)
      ensures AllIn(OneGroup(json).owners(Stepped(b, Where(IDIn(ids)))), ids)
    {
      NoOtherRows(json, Stepped(b, Where(IDIn(ids))), EmptyBase(), ids);
    }
    forall b: Base<LogColumn>, ids
      ensures
        var answer := OneGroup(json).usageLogs(Stepped(b, Where(KeyIn(ids))));
        answer.Some? && LogsRequested(answer.value, ids)
    {
      NoOtherRows(json, EmptyBase(), Stepped(b, Where(KeyIn(ids))), ids);
    }
  }

  lemma OneColumn()
    ensures AccountColumns([ID], false, false) == [ID]
  {
    WithoutID([]);
  }

  lemma OneRowReadable(json: JsonCodec)
    ensures Scannable([ID], ExampleRow(1)) && DecodeRow([ID], ExampleRow(1), json).Done?
  {
    hide Scannable, DecodeRow;
    DecodeKeys([ID], ExampleRow(1), json, false, false);
  }

  lemma OneGroupReaches(json: JsonCodec, w: AccountView)
    requires RunOfGroups(w)
    ensures ReachesEdges(OneGroup(json), w)
    ensures OneGroup(json).accounts(RunSpec(OneGroup(json), w)) == Some([ExampleRow(1)])
  {
    hide InvalidField, AccountColumns, ExampleRow, Scannable, DecodeRow;
    ExampleFields();
    OneColumn();
    OneRowReadable(json);
    assert SelectedColumns(Unloaded(w, [ExampleRow(1)])) == [ID];
  }

  lemma OneGroupAnswers(json: JsonCodec, b: Base<string>)
    requires AsksForOne(b.predicates)
    ensures OneGroup(json).groups(b) == Some([JoinRow(1, NodeRow(7, "g"))])
  {
  }

  lemma FirstAllRuns(json: JsonCodec)
    ensures
      var result := RunAccounts(OneGroup(json), GroupsQuery()).1;
      result.Ran? && result.plan.rows == [ExampleRow(1)]
  {
    hide RunAccounts, HonestEdges, SpecOf, Prepared, PathFails, InvalidField, Readable, Unloaded, OneGroup, ExampleRow;
    OneGroupHonest(json);
    OneGroupReaches(json, GroupsQuery());
    RunFailsIff(OneGroup(json), GroupsQuery());
    RunKeepsMain(OneGroup(json), GroupsQuery());
  }

  lemma OneID()
    ensures RowIDs([ExampleRow(1)]) == [1]
  {
  }

  lemma FirstAllAsks(json: JsonCodec)
    ensures GroupsAsks(OneGroup(json), GroupsQuery(), [ReadAll]) == [JoinedTo([1])]
  {
    hide RunAccounts, GroupsAsk, After, OneGroup, GroupsAsks, ProxyAsks, OwnerAsks, UsageLogsAsks, LinksAsks,
      LinkAccountAsks, LinkGroupAsks, Limited, ExampleRow, RowIDs;
    var db, v := OneGroup(json), GroupsQuery();
    FirstAllRuns(json);
    OwnJoin(db, v);
    NoneAsked(db, v);
    NoCalls(db, v);
    AllLimited(v);
    AsksStep(db, v, [], ReadAll, [ReadAll]);
    OneID();
  }

  lemma NoLimitSet(limit: Option<nat>)
    ensures LimitAfter([ReadAll], limit) == limit
  {
    assert [ReadAll][..0] == [];
  }

  lemma GroupsStay(db: Database)
    ensures RunOfGroups(After(db, GroupsQuery(), [ReadAll]))
  {
    hide After, GroupsAsks, ProxyAsks, OwnerAsks, UsageLogsAsks, LinksAsks, LimitAfter, SameQuery;
    AfterMain(db, GroupsQuery(), [ReadAll]);
    AfterIsNarrowed(db, GroupsQuery(), [ReadAll]);
    LinksAreNarrowed(db, GroupsQuery(), [ReadAll]);
    NoLimitSet(GroupsQuery().base.ctx.limit);
    NoPathSame(db, After(db, GroupsQuery(), [ReadAll]), WithLimit(GroupsQuery(), None));
  }

  lemma SeesPanic(db: Database, v: AccountView)
    ensures
      RunAccounts(db, v).1 == Failed(Panicked(ShiftedColumns)) ==>
      Owed(db, v, ReadAll).1 == SeenFailure(Panicked(ShiftedColumns))
  {
    hide RunAccounts, NodesOf;
  }

  lemma SeesOne(json: JsonCodec)
    ensures
      var seen := Owed(OneGroup(json), GroupsQuery(), ReadAll).1;
      seen.SeenAll? && |seen.nodes| == 1
  {
    hide RunAccounts, OneGroup, ExampleRow, Readable, NodeOf;
    var db, v := OneGroup(json), GroupsQuery();
    FirstAllRuns(json);
    RunKeepsMain(db, v);
    SeenNodes(db, v, 0);
  }

  /** The join of the first call, and that of the second. */
  lemma BothJoins(json: JsonCodec)
    ensures
      var db, v := OneGroup(json), GroupsQuery();
      var answer := JoinedGroups(db, v, [ReadAll], [ExampleRow(1)]);
      answer.Some? && answer.value != []
  {
    hide GroupsAsks, ExampleRow;
    FirstAllAsks(json);
    OneID();
    OneGroupAnswers(json, Plus(GroupsQuery().groups.value, [JoinedTo([1])] + [JoinedTo([1])]));
  }

  lemma NoJoins()
    ensures Joins(GroupsQuery().groups.value.predicates) == 0
  {
  }

  lemma SecondRun(json: JsonCodec)
    ensures
      var db, v := OneGroup(json), GroupsQuery();
      RunAccounts(db, After(db, v, [ReadAll])).1 == Failed(Panicked(ShiftedColumns))
  {
    hide RunAccounts, After, GroupsAsks, JoinedGroups, ReachesEdges, RunSpec, ExampleRow, OneGroup, RunOfGroups, Joins;
    var db, v := OneGroup(json), GroupsQuery();
    var w := After(db, v, [ReadAll]);
    GroupsStay(db);
    OneGroupReaches(json, w);
    FirstAllAsks(json);
    BothJoins(json);
    NoJoins();
    LaterShift(db, v, [ReadAll], ReadAll, [ExampleRow(1)]);
    AllLimited(w);
    ShiftPanicsIff(db, w);
  }

  /** The group query that the first call leaves. */
  lemma JoinedAfter(json: JsonCodec)
    ensures
      var w := After(OneGroup(json), GroupsQuery(), [ReadAll]);
      w.groups == Some(Plus(EmptyBase(), [JoinedTo([1])]))
  {
    hide After, GroupsAsks, ProxyAsks, OwnerAsks, UsageLogsAsks, OneGroup, Plus;
    FirstAllAsks(json);
    AfterIsNarrowed(OneGroup(json), GroupsQuery(), [ReadAll]);
  }

  lemma PlainStays(w: AccountView)
    requires RunOfGroups(w)
    ensures RunOfGroups(Plain(w))
  {
  }

  lemma AskTwice()
    ensures AsksForOne([JoinedTo([1])] + [JoinedTo([1])])
  {
  }

  lemma CloneAnswers(json: JsonCodec, b: Base<string>)
    requires b == Plus(EmptyBase(), [JoinedTo([1])])
    ensures Joins(b.predicates) > 0
    ensures OneGroup(json).groups(Stepped(PlainBase(b), Where(JoinedTo([1])))) == Some([JoinRow(1, NodeRow(7, "g"))])
  {
    hide OneGroup, AsksForOne;
    OneJoin(JoinedTo([1]));
    assert [] + [JoinedTo([1])] == [JoinedTo([1])];
    AskTwice();
    OneGroupAnswers(json, Stepped(PlainBase(b), Where(JoinedTo([1]))));
  }

  lemma SecondRunOfClone(json: JsonCodec)
    ensures
      var db, v := OneGroup(json), GroupsQuery();
      RunAccounts(db, Plain(After(db, v, [ReadAll]))).1 == Failed(Panicked(ShiftedColumns))
  {
    hide RunAccounts, After, ReachesEdges, RunSpec, ExampleRow, OneGroup, Joins, RunOfGroups, RowIDs, Stepped, Plus;
    var db, v := OneGroup(json), GroupsQuery();
    var w := After(db, v, [ReadAll]);
    GroupsStay(db);
    PlainStays(w);
    OneGroupReaches(json, Plain(w));
    OneID();
    JoinedAfter(json);
    CloneAnswers(json, w.groups.value);
    ClonePanicsIff(db, w);
  }

  /**
   All finds the account; called again on the same builder, it panics, and so does All on a
   clone that is made after the first call.
   */
  lemma SecondAllPanics(json: JsonCodec)
    ensures
      var db, v := OneGroup(json), GroupsQuery();
      var w := After(db, v, [ReadAll]);
      && Owed(db, v, ReadAll).1.SeenAll? && |Owed(db, v, ReadAll).1.nodes| == 1
      && Owed(db, w, ReadAll).1 == SeenFailure(Panicked(ShiftedColumns))
      && Owed(db, Plain(w), ReadAll).1 == SeenFailure(Panicked(ShiftedColumns))
  {
    hide *;
    var db, v := OneGroup(json), GroupsQuery();
    var w := After(db, v, [ReadAll]);
    SeesOne(json);
    SecondRun(json);
    SecondRunOfClone(json);
    SeesPanic(db, w);
    SeesPanic(db, Plain(w));
  }
}
