/**
 Running a query with groups more than once. Each run that gets to loadGroups adds a join to
 the same group query, and the callbacks of the second one find the columns shifted: the
 first row panics.
 */
module RepeatedGroups {
  import opened Common
  import opened GroupJoin
  import opened RowCodec
  import opened AccountLoading
  import opened QueryBuilder
  import opened QuerySpecs
  import opened GroupScan
  import opened EagerRuns
  import opened RunFailures
  import opened QueryRuns
  import opened NarrowedEdges
  import opened LaterEdges

  // ---------- which calls reach loadGroups ----------

  predicate OnJoin(p: Predicate) {
    p.JoinedTo?
  }

  /** Call i gets to loadGroups. */
  ghost predicate ReachesGroups(db: Database, v: AccountView, calls: seq<Read>, i: int)
    requires 0 <= i < |calls|
  {
    !calls[i].SetTo? && v.groups.Some? && ReachesEdges(db, Limited(After(db, v, calls[..i]), calls[i]))
  }

  lemma AskIsOne(db: Database, v: AccountView)
    ensures GroupsAsk(db, v) != [] <==> v.groups.Some? && ReachesEdges(db, v)
    ensures forall p :: p in GroupsAsk(db, v) ==> OnJoin(p)
    ensures |GroupsAsk(db, v)| <= 1
  {
    hide ReachesEdges, RowIDs, Unloaded, Prepared;
  }

  lemma GroupsAsksOnJoin(db: Database, v: AccountView, calls: seq<Read>)
    ensures forall p :: p in GroupsAsks(db, v, calls) ==> OnJoin(p)
  {
    hide Asks, GroupsAsk;
    forall d, w, p | p in GroupsAsk(d, w) ensures OnJoin(p) {
      AskIsOne(d, w);
    }
    AsksOfOneKind(db, v, calls, GroupsAsk, OnJoin, GroupsAsks(db, v, calls));
  }

  /** A call that is no Limit runs a query that has groups exactly if the first one has. */
  lemma StillGroups(db: Database, v: AccountView, calls: seq<Read>, r: Read)
    ensures
      var w := Limited(After(db, v, calls), r);
      w.groups == PlusEdge(v.groups, GroupsAsks(db, v, calls)) && w.groups.Some? == v.groups.Some?
  {
    AfterIsNarrowed(db, v, calls);
    hide After, GroupsAsks, ProxyAsks, OwnerAsks, UsageLogsAsks, Plus;
  }

  lemma ReachedEarlier(db: Database, v: AccountView, calls: seq<Read>, i: int)
    requires 0 <= i < |calls| - 1
    ensures ReachesGroups(db, v, calls, i) <==> ReachesGroups(db, v, calls[..|calls| - 1], i)
  {
    hide After, Limited, ReachesEdges;
    assert calls[..i] == calls[..|calls| - 1][..i];
  }

  /** The last call adds a join exactly when it gets to loadGroups. */
  lemma ReachedLast(db: Database, v: AccountView, calls: seq<Read>)
    requires calls != []
    ensures
      var init := calls[..|calls| - 1];
      GroupsAsks(db, v, calls) != [] <==>
      GroupsAsks(db, v, init) != [] || ReachesGroups(db, v, calls, |calls| - 1)
  {
    hide GroupsAsks, GroupsAsk, After, Limited, ReachesEdges;
    var n := |calls| - 1;
    var init, r := calls[..n], calls[n];
    AsksStep(db, v, init, r, calls);
    StillGroups(db, v, init, r);
    AskIsOne(db, Limited(After(db, v, init), r));
  }

  lemma NoneAsked(db: Database, v: AccountView)
    ensures GroupsAsks(db, v, []) == []
  {
  }

  /** Some call has added a join exactly when some call got to loadGroups. */
  lemma {:induction false} AskedBefore(db: Database, v: AccountView, calls: seq<Read>)
    ensures GroupsAsks(db, v, calls) != [] <==> exists i :: 0 <= i < |calls| && ReachesGroups(db, v, calls, i)
    decreases |calls|
  {
    hide GroupsAsks, ReachesGroups;
    if calls == [] {
      NoneAsked(db, v);
    } else {
      var n := |calls| - 1;
      AskedBefore(db, v, calls[..n]);
      ReachedLast(db, v, calls);
      forall i | 0 <= i < n ensures ReachesGroups(db, v, calls, i) <==> ReachesGroups(db, v, calls[..n], i) {
        ReachedEarlier(db, v, calls, i);
      }
    }
  }

  // ---------- the panic ----------

  /** The rows that a later call's own query returns. */
  ghost function LaterRows(db: Database, v: AccountView, calls: seq<Read>, r: Read): Option<seq<Row>> {
    db.accounts(RunSpec(db, Limited(After(db, v, calls), r)))
  }

  /** The group query with the joins of the calls so far and that of this one. */
  ghost function JoinedGroups(db: Database, v: AccountView, calls: seq<Read>, rows: seq<Row>): Option<seq<JoinRow>>
    requires v.groups.Some?
  {
    db.groups(Plus(v.groups.value, GroupsAsks(db, v, calls) + [JoinedTo(RowIDs(rows))]))
  }

  lemma LaterShift(db: Database, v: AccountView, calls: seq<Read>, r: Read, rows: seq<Row>)
    requires v.groups.Some? && Joins(v.groups.value.predicates) == 0
    ensures
      GroupsShift(db, Limited(After(db, v, calls), r), RowIDs(rows)) <==>
      && GroupsAsks(db, v, calls) != []
      && JoinedGroups(db, v, calls, rows).Some? && JoinedGroups(db, v, calls, rows).value != []
  {
    hide After, Limited, GroupsAsks, RowIDs, Joins;
    StillGroups(db, v, calls, r);
    var b, asks, own := v.groups.value, GroupsAsks(db, v, calls), JoinedTo(RowIDs(rows));
    GroupsAsksOnJoin(db, v, calls);
    JoinsAll(asks);
    JoinsAppend(b.predicates, asks);
    assert (b.predicates + asks) + [own] == b.predicates + (asks + [own]);
  }

  lemma ReachedRows(db: Database, v: AccountView)
    requires ReachesEdges(db, v)
    ensures db.accounts(RunSpec(db, v)).Some?
  {
    hide InvalidField, Readable, SpecOf;
  }

  lemma SomeJoin(db: Database, v: AccountView, calls: seq<Read>, rows: seq<Row>)
    requires v.groups.Some?
    ensures
      JoinedGroups(db, v, calls, rows) ==
      db.groups(Plus(v.groups.value, GroupsAsks(db, v, calls) + [JoinedTo(RowIDs(rows))]))
  {
  }

  /**
   A query with groups that the caller has configured: a later call panics over shifted columns
   exactly when it gets to loadGroups, an earlier call got there too, and the group query with
   the joins of them all returns a row.
   */
  lemma LaterPanicsIff(db: Database, v: AccountView, calls: seq<Read>, r: Read)
    requires v.groups.Some? && Joins(v.groups.value.predicates) == 0 && !r.SetTo?
    ensures
      Later(db, v, calls, r) == Failed(Panicked(ShiftedColumns)) <==>
      && ReachesEdges(db, Limited(After(db, v, calls), r))
      && (exists i :: 0 <= i < |calls| && ReachesGroups(db, v, calls, i))
      && var rows := JoinedGroups(db, v, calls, LaterRows(db, v, calls, r).value);
         rows.Some? && rows.value != []
  {
    hide GroupsShift, ReachesEdges, GroupsAsks, After, Limited, Later, ReachesGroups, RunAccounts, Joins, JoinedGroups,
      SpecOf, Prepared, RowIDs;
    var w := Limited(After(db, v, calls), r);
    ShiftPanicsIff(db, w);
    AskedBefore(db, v, calls);
    LaterIsRun(db, v, calls, r);
    if ReachesEdges(db, w) {
      ReachedRows(db, w);
      LaterShift(db, v, calls, r, LaterRows(db, v, calls, r).value);
      SomeJoin(db, v, calls, LaterRows(db, v, calls, r).value);
    }
  }

  // ---------- the groups of a call that does not panic ----------

  /** A successful run asked its group query for the accounts it returns. */
  lemma OwnJoin(db: Database, v: AccountView)
    requires RunAccounts(db, v).1.Ran? && RunAccounts(db, v).1.plan.rows != [] && v.groups.Some?
    ensures GroupsAsk(db, v) == [JoinedTo(RowIDs(RunAccounts(db, v).1.plan.rows))]
  {
    hide RunAccounts, Start, RowIDs, LinksStep, FirstEdges, GroupsStep, ProxiesStep, OwnersStep, UsageLogsStep;
    var p := RanSteps(db, v);
  }

  /** Nothing but an empty answer can be scanned once several joins have been added. */
  lemma ShiftedJoins(b: Base<string>, asks: seq<Predicate>)
    requires |asks| > 1 && forall p :: p in asks ==> OnJoin(p)
    ensures forall answer: seq<JoinRow> :: CanScan(Plus(b, asks), answer) ==> answer == []
  {
    hide Selection, Joins, Aligned;
    JoinsAll(asks);
    JoinsAppend(b.predicates, asks);
    AlignedIffOneJoin(b.ctx.fields, b.predicates + asks);
  }

  /** The group query that a successful call has run. */
  lemma LaterJoins(db: Database, v: AccountView, calls: seq<Read>, r: Read)
    requires v.groups.Some? && !r.SetTo?
    requires Later(db, v, calls, r).Ran? && Later(db, v, calls, r).plan.rows != []
    ensures
      var rows := Later(db, v, calls, r).plan.rows;
      var b := Plus(v.groups.value, GroupsAsks(db, v, calls + [r]));
      && JoinedGroups(db, v, calls, rows) == db.groups(b)
      && (GroupsAsks(db, v, calls) != [] ==> forall answer: seq<JoinRow> :: CanScan(b, answer) ==> answer == [])
  {
    hide Later, After, Limited, RunAccounts, GroupsAsks, GroupsAsk, ProxyAsks, OwnerAsks, UsageLogsAsks, LinksAsks,
      LinkAccountAsks, LinkGroupAsks, Plus, RowIDs, CanScan;
    LaterIsRun(db, v, calls, r);
    StillGroups(db, v, calls, r);
    OwnJoin(db, Limited(After(db, v, calls), r));
    LaterAsks(db, v, calls, r);
    GroupsAsksOnJoin(db, v, calls + [r]);
    if GroupsAsks(db, v, calls) != [] {
      ShiftedJoins(v.groups.value, GroupsAsks(db, v, calls + [r]));
    }
  }

  /** Only the first call that gets to loadGroups can load a group. */
  lemma LaterGroups(db: Database, v: AccountView, calls: seq<Read>, r: Read, i: int)
    requires v.groups.Some? && !r.SetTo?
    requires Later(db, v, calls, r).Ran? && 0 <= i < |Later(db, v, calls, r).plan.rows|
    ensures
      var plan := Later(db, v, calls, r).plan;
      var rows := JoinedGroups(db, v, calls, plan.rows);
      && ReadableRow(plan, plan.rows[i], db.json) && rows.Some?
      && ((exists k :: 0 <= k < |calls| && ReachesGroups(db, v, calls, k)) ==> rows.value == [])
      && NodeOf(plan, db.json, i).groups ==
         if LastAt(RowIDs(plan.rows), i) then EdgeOf(rows.value, RowID(plan.rows[i])) else []
  {
    hide Later, After, Limited, RunAccounts, GroupsAsks, ReadableRow, Plus, RanKeyed, RowIDs, EdgeOf, DecodeRow,
      ToOneEdge, UsageLogsOf, AccountGroupsOf, ReachesGroups, CanScan, JoinedGroups, Joins, LinkAdded;
    LaterIsRun(db, v, calls, r);
    LaterQueries(db, v, calls, r);
    AskedBefore(db, v, calls);
    LaterJoins(db, v, calls, r);
  }

  // ---------- clones ----------

  /**
   A clone keeps the joins that were added to the original, so cloning helps only before the
   first run: on a clone of a query that has been run, the same panic awaits.
   */
  lemma ClonePanicsIff(db: Database, v: AccountView)
    ensures
      RunAccounts(db, Plain(v)).1 == Failed(Panicked(ShiftedColumns)) <==>
      && ReachesEdges(db, Plain(v)) && v.groups.Some? && Joins(v.groups.value.predicates) > 0
      && var rows := db.accounts(RunSpec(db, Plain(v))).value;
         var answer := db.groups(Stepped(PlainBase(v.groups.value), Where(JoinedTo(RowIDs(rows)))));
         answer.Some? && answer.value != []
  {
    hide ReachesEdges, RunAccounts, SpecOf, RowIDs, Joins, Stepped;
    ShiftPanicsIff(db, Plain(v));
    if ReachesEdges(db, Plain(v)) {
      ReachedRows(db, Plain(v));
    }
  }

  /** A call on a clone of a query that carries no join yet does not panic over its columns. */
  lemma FreshCloneFinds(db: Database, v: AccountView, r: Read)
    requires v.groups.Some? ==> Joins(v.groups.value.predicates) == 0
    ensures Owed(db, Plain(v), r).1 != SeenFailure(Panicked(ShiftedColumns))
  {
    hide ReachesEdges, RunAccounts, SpecOf, RowIDs, Joins, Stepped, NodesOf;
    ShiftPanicsIff(db, Limited(Plain(v), r));
  }
}
