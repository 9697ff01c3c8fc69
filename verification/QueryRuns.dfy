/**
 Calling a query builder more than once: Limit, First, Only and All of
 backend/ent/account_query.go. Each call answers from the builder that the calls before it
 left behind; `After` and `Owed` say how, and the lemmas say what that means for the rows of
 the main query. Modules NarrowedEdges and LaterEdges say what it means for the edges.
 */
module QueryRuns {
  import opened Common
  import opened RowCodec
  import opened Entities
  import opened AccountLoading
  import opened Projection
  import opened QueryBuilder
  import opened QuerySpecs
  import opened EagerRuns
  import opened BuilderRuns

  // ---------- calls and answers ----------

  datatype Read = ReadFirst | ReadOnly | ReadAll | SetTo(limit: nat)

  /** What a call returns. */
  datatype Answer =
    | Found(node: Account)
    | NotFound
    | NotSingular
    | All(nodes: seq<Account>)
    | Failure(error: RunError)
    | Updated

  /** What its caller sees. */
  datatype Seen =
    | SeenOne(node: NodeShown)
    | SeenNone
    | SeenMany
    | SeenAll(nodes: seq<NodeShown>)
    | SeenFailure(error: RunError)
    | SeenNothing

  ghost function ShownNodes(nodes: seq<Account>): (shown: seq<NodeShown>)
    reads nodes, LinksBelow(nodes)
    ensures |shown| == |nodes|
    ensures forall i :: 0 <= i < |nodes| ==> assert OwnLinks(nodes, i); shown[i] == Shown(nodes[i])
  {
    seq(|nodes|, i requires 0 <= i < |nodes| reads nodes, LinksBelow(nodes) =>
      assert OwnLinks(nodes, i); Shown(nodes[i]))
  }

  ghost function ShownAnswer(a: Answer): Seen
    reads match a { case Found(n) => {n} case All(ns) => set n | n in ns case _ => {} }
    reads match a { case Found(n) => LinksBelow([n]) case All(ns) => LinksBelow(ns) case _ => {} }
  {
    match a
    case Found(node) => assert OwnLinks([node], 0); SeenOne(Shown(node))
    case NotFound => SeenNone
    case NotSingular => SeenMany
    case All(nodes) => SeenAll(ShownNodes(nodes))
    case Failure(e) => SeenFailure(e)
    case Updated => SeenNothing
  }

  /** The nodes that a run returned. */
  ghost function NodesOf(json: JsonCodec, plan: AccountPlan): seq<NodeShown> {
    if Readable(plan, json) then
      seq(|plan.rows|, i requires 0 <= i < |plan.rows| =>
        assert ReadableRow(plan, plan.rows[i], json); NodeOf(plan, json, i))
    else []
  }

  ghost function FirstOf(nodes: seq<NodeShown>): Seen {
    if nodes == [] then SeenNone else SeenOne(nodes[0])
  }

  ghost function OnlyOf(nodes: seq<NodeShown>): Seen {
    if |nodes| == 0 then SeenNone else if |nodes| == 1 then SeenOne(nodes[0]) else SeenMany
  }

  ghost function SeenResult(json: JsonCodec, result: Result<AccountPlan>, r: Read): Seen {
    match result
    case Failed(e) => SeenFailure(e)
    case Ran(plan) =>
      var nodes := NodesOf(json, plan);
      match r
      case ReadFirst => FirstOf(nodes)
      case ReadOnly => OnlyOf(nodes)
      case _ => SeenAll(nodes)
  }

  /** What a call on a builder shows, and the builder it leaves behind. */
  ghost function Owed(db: Database, v: AccountView, r: Read): (AccountView, Seen) {
    match r
    case SetTo(n) => (WithLimit(v, Some(n)), SeenNothing)
    case ReadAll => var (v', result) := RunAccounts(db, v); (v', SeenResult(db.json, result, r))
    case ReadFirst => var (v', result) := RunAccounts(db, WithLimit(v, Some(1))); (v', SeenResult(db.json, result, r))
    case ReadOnly => var (v', result) := RunAccounts(db, WithLimit(v, Some(2))); (v', SeenResult(db.json, result, r))
  }

  /** The builder after some calls. */
  ghost function After(db: Database, v: AccountView, calls: seq<Read>): AccountView {
    if calls == [] then v else Owed(db, After(db, v, calls[..|calls| - 1]), calls[|calls| - 1]).0
  }

  // ---------- the calls ----------

  lemma EagerNodes(nodes: seq<Account>, plan: AccountPlan, json: JsonCodec)
    requires Eager(nodes, plan, json)
    ensures ShownNodes(nodes) == NodesOf(json, plan) && |nodes| == |plan.rows|
  {
    hide NodeOf, Shown, ReadableRow, LinksBelow;
  }

  method SetLimit(q: AccountQuery, limit: nat)
    requires q.Valid()
    modifies q.Repr
    ensures q.Valid() && q.Repr == old(q.Repr) && q.View() == WithLimit(old(q.View()), Some(limit))
  {
    q.Parts();
    hide AccountQuery.Valid, AccountQuery.View;
    q.Do(Limit(limit));
  }

  method ReadNodes(q: AccountQuery, db: Database, r: Read) returns (error: Option<RunError>, nodes: seq<Account>)
    requires q.Valid()
    modifies q.Repr
    ensures q.Valid() && q.Repr == old(q.Repr)
    ensures q.View() == RunAccounts(db, old(q.View())).0
    ensures
      var seen := SeenResult(db.json, RunAccounts(db, old(q.View())).1, r);
      if error.Some? then seen == SeenFailure(error.value)
      else
        match r
        case ReadFirst => seen == FirstOf(ShownNodes(nodes))
        case ReadOnly => seen == OnlyOf(ShownNodes(nodes))
        case _ => seen == SeenAll(ShownNodes(nodes))
  {
    hide AccountQuery.Valid, AccountQuery.View, RunAccounts, Eager, NodesOf, LinksBelow;
    var result;
    result, nodes := RunAll(q, db);
    match result
    case Failed(e) => return Some(e), nodes;
    case Ran(plan) =>
      EagerNodes(nodes, plan, db.json);
      return None, nodes;
  }

  method First(q: AccountQuery, db: Database) returns (a: Answer)
    requires q.Valid()
    modifies q.Repr
    ensures q.Valid() && q.Repr == old(q.Repr)
    ensures (q.View(), ShownAnswer(a)) == Owed(db, old(q.View()), ReadFirst)
  {
    hide AccountQuery.Valid, AccountQuery.View, RunAccounts, SeenResult, LinksBelow, Shown;
    SetLimit(q, 1);
    var error, nodes := ReadNodes(q, db, ReadFirst);
    if error.Some? {
      return Failure(error.value);
    }
    if |nodes| == 0 {
      return Answer.NotFound;
    }
    return Found(nodes[0]);
  }

  method Only(q: AccountQuery, db: Database) returns (a: Answer)
    requires q.Valid()
    modifies q.Repr
    ensures q.Valid() && q.Repr == old(q.Repr)
    ensures (q.View(), ShownAnswer(a)) == Owed(db, old(q.View()), ReadOnly)
  {
    hide AccountQuery.Valid, AccountQuery.View, RunAccounts, SeenResult, LinksBelow, Shown;
    SetLimit(q, 2);
    var error, nodes := ReadNodes(q, db, ReadOnly);
    if error.Some? {
      return Failure(error.value);
    }
    match |nodes|
    case 1 => return Found(nodes[0]);
    case 0 => return Answer.NotFound;
    case _ => return NotSingular;
  }

  method Call(q: AccountQuery, r: Read, db: Database) returns (a: Answer)
    requires q.Valid()
    modifies q.Repr
    ensures q.Valid() && q.Repr == old(q.Repr)
    ensures (q.View(), ShownAnswer(a)) == Owed(db, old(q.View()), r)
  {
    hide AccountQuery.Valid, AccountQuery.View, RunAccounts, SeenResult, LinksBelow, Shown, ShownNodes;
    match r
    case ReadFirst => a := First(q, db);
    case ReadOnly => a := Only(q, db);
    case SetTo(n) =>
      SetLimit(q, n);
      a := Updated;
    case ReadAll =>
      var error, nodes := ReadNodes(q, db, ReadAll);
      a := if error.Some? then Failure(error.value) else All(nodes);
  }

  lemma NoCalls(db: Database, v: AccountView)
    ensures After(db, v, []) == v
  {
  }

  lemma OneMoreCall(db: Database, v: AccountView, calls: seq<Read>, i: int)
    requires 0 <= i < |calls|
    ensures After(db, v, calls[..i + 1]) == Owed(db, After(db, v, calls[..i]), calls[i]).0
  {
    assert calls[..i + 1][..i] == calls[..i];
    hide Owed;
  }

  /**
   Any run of First, Only, All and Limit calls on one builder: each answers from the builder
   left by those before it.
   */
  method Run(q: AccountQuery, calls: seq<Read>, db: Database) returns (answers: seq<Answer>, ghost seen: seq<Seen>)
    requires q.Valid()
    modifies q.Repr
    ensures q.Valid() && q.View() == After(db, old(q.View()), calls)
    ensures |answers| == |seen| == |calls|
    ensures forall i :: 0 <= i < |calls| ==> seen[i] == Owed(db, After(db, old(q.View()), calls[..i]), calls[i]).1
  {
    hide *;
    answers, seen := [], [];
    ghost var v := q.View();
    NoCalls(db, v);
    assert calls[..0] == [];
    for i := 0 to |calls|
      invariant q.Valid() && q.Repr == old(q.Repr) && q.View() == After(db, v, calls[..i])
      invariant |answers| == |seen| == i
      invariant forall k :: 0 <= k < i ==> seen[k] == Owed(db, After(db, v, calls[..k]), calls[k]).1
    {
      OneMoreCall(db, v, calls, i);
      var a := Call(q, calls[i], db);
      answers, seen := answers + [a], seen + [ShownAnswer(a)];
    }
    assert calls[..|calls|] == calls;
  }

  // ---------- the rows of the main query ----------

  /** The rows that a limit leaves; limit 0 is no limit. */
  function Cut<T>(rows: seq<T>, limit: nat): seq<T> {
    if 0 < limit < |rows| then rows[..limit] else rows
  }

  /** Rows under a limit are the first ones without it. */
  ghost predicate LimitsRows(db: Database) {
    forall spec ::
      db.accounts(spec) ==
      match db.accounts(spec.(limit := 0)) { case None => None case Some(rows) => Some(Cut(rows, spec.limit)) }
  }

  /** The limit in force after some calls: that of the last call that sets one. */
  function LimitAfter(calls: seq<Read>, limit: Option<nat>): Option<nat> {
    if calls == [] then limit
    else
      match calls[|calls| - 1]
      case ReadFirst => Some(1)
      case ReadOnly => Some(2)
      case SetTo(n) => Some(n)
      case ReadAll => LimitAfter(calls[..|calls| - 1], limit)
  }

  /** The limit in force is the one of the last call that set one. */
  lemma {:induction false} LimitIsTheLastSet(calls: seq<Read>, limit: Option<nat>, i: int)
    requires 0 <= i < |calls| && !calls[i].ReadAll? && forall j :: i < j < |calls| ==> calls[j].ReadAll?
    ensures LimitAfter(calls, limit) == LimitAfter([calls[i]], None)
  {
    if i == |calls| - 1 {
    } else {
      LimitIsTheLastSet(calls[..|calls| - 1], limit, i);
    }
  }

  /** What a call's own query runs under. */
  function Limited(v: AccountView, r: Read): AccountView {
    match r
    case ReadFirst => WithLimit(v, Some(1))
    case ReadOnly => WithLimit(v, Some(2))
    case SetTo(n) => WithLimit(v, Some(n))
    case ReadAll => v
  }

  lemma OwedMain(db: Database, v: AccountView, r: Read)
    ensures SameQuery(db, Owed(db, v, r).0, Limited(v, r))
  {
    RunKeepsMain(db, Limited(v, r));
    hide RunAccounts, SeenResult;
  }

  lemma LimitedSame(db: Database, v: AccountView, w: AccountView, r: Read)
    requires SameQuery(db, v, w)
    ensures SameQuery(db, Limited(v, r), Limited(w, r))
  {
  }

  lemma SameQueryThrough(db: Database, u: AccountView, v: AccountView, w: AccountView)
    requires SameQuery(db, u, v) && SameQuery(db, v, w)
    ensures SameQuery(db, u, w)
  {
  }

  lemma LimitedAgain(v: AccountView, calls: seq<Read>, r: Read)
    ensures
      Limited(WithLimit(v, LimitAfter(calls, v.base.ctx.limit)), r) ==
      WithLimit(v, LimitAfter(calls + [r], v.base.ctx.limit))
    ensures WithLimit(v, LimitAfter([], v.base.ctx.limit)) == v
  {
    assert (calls + [r])[|calls|] == r && (calls + [r])[..|calls|] == calls;
  }

  /**
   The builder after some calls has the query it had, under the limit in force; a path may
   have led to a new selector.
   */
  lemma {:induction false} AfterMain(db: Database, v: AccountView, calls: seq<Read>)
    ensures SameQuery(db, After(db, v, calls), WithLimit(v, LimitAfter(calls, v.base.ctx.limit)))
  {
    hide Owed, LimitAfter, Limited, WithLimit, Prepared;
    if calls == [] {
      LimitedAgain(v, calls, ReadAll);
    } else {
      var init, r := calls[..|calls| - 1], calls[|calls| - 1];
      var w, before := After(db, v, init), WithLimit(v, LimitAfter(init, v.base.ctx.limit));
      AfterMain(db, v, init);
      OwedMain(db, w, r);
      LimitedSame(db, w, before, r);
      LimitedAgain(v, init, r);
      assert init + [r] == calls;
      SameQueryThrough(db, Owed(db, w, r).0, Limited(w, r), Limited(before, r));
    }
  }

  /** All rows of the main query. */
  ghost function FullRows(db: Database, v: AccountView): Option<seq<Row>> {
    db.accounts(RunSpec(db, WithLimit(v, None)))
  }

  ghost predicate Decoded(node: NodeShown, row: Row, columns: seq<Column>, json: JsonCodec) {
    Scannable(columns, row) && DecodeRow(columns, row, json) == Done(node.rec)
  }

  /** The nodes are the rows, decoded, in order. */
  ghost predicate DecodedAll(nodes: seq<NodeShown>, rows: seq<Row>, columns: seq<Column>, json: JsonCodec) {
    |nodes| == |rows| && forall i :: 0 <= i < |nodes| ==> Decoded(nodes[i], rows[i], columns, json)
  }

  /** What a call that does not fail tells of the rows: `full` without any limit, `limit` the one in force. */
  ghost predicate Tells(seen: Seen, r: Read, full: seq<Row>, limit: nat, columns: seq<Column>, json: JsonCodec) {
    match r
    case ReadFirst => if full == [] then seen.SeenNone? else seen.SeenOne? && Decoded(seen.node, full[0], columns, json)
    case ReadOnly =>
      if |full| == 0 then seen.SeenNone?
      else if |full| == 1 then seen.SeenOne? && Decoded(seen.node, full[0], columns, json)
      else seen.SeenMany?
    case ReadAll => seen.SeenAll? && DecodedAll(seen.nodes, Cut(full, limit), columns, json)
    case SetTo(_) => seen.SeenNothing?
  }

  lemma NodesDecoded(db: Database, v: AccountView)
    requires RunAccounts(db, v).1.Ran?
    ensures
      var plan := RunAccounts(db, v).1.plan;
      && db.accounts(RunSpec(db, v)) == Some(plan.rows)
      && DecodedAll(NodesOf(db.json, plan), plan.rows, RunSpec(db, v).columns, db.json)
  {
    RunKeepsMain(db, v);
    hide RunAccounts, SpecOf, GroupsOf, ToOneEdge, UsageLogsOf, AccountGroupsOf, DecodeRow, Scannable;
    var plan := RunAccounts(db, v).1.plan;
    forall i | 0 <= i < |plan.rows|
      ensures Decoded(NodesOf(db.json, plan)[i], plan.rows[i], RunSpec(db, v).columns, db.json)
    {
      assert ReadableRow(plan, plan.rows[i], db.json);
    }
  }

  lemma SameSpec(db: Database, v: AccountView, w: AccountView)
    requires SameQuery(db, v, w)
    ensures RunSpec(db, v) == RunSpec(db, w)
  {
    hide Prepared, AccountColumns;
  }

  lemma LimitOfSpec(db: Database, v: AccountView, limit: Option<nat>)
    ensures RunSpec(db, WithLimit(v, limit)) == RunSpec(db, WithLimit(v, None)).(limit := OrZero(limit))
  {
    hide AccountColumns;
  }

  lemma LimitOfAll(calls: seq<Read>, limit: Option<nat>)
    ensures LimitAfter(calls + [ReadAll], limit) == LimitAfter(calls, limit)
  {
    assert (calls + [ReadAll])[|calls|] == ReadAll && (calls + [ReadAll])[..|calls|] == calls;
  }

  /** The query that a call runs is the first one under another limit. */
  lemma LimitedSpec(db: Database, v: AccountView, calls: seq<Read>, r: Read)
    ensures
      var limit := LimitAfter(if r.ReadAll? then calls else calls + [r], v.base.ctx.limit);
      RunSpec(db, Limited(After(db, v, calls), r)) == RunSpec(db, WithLimit(v, None)).(limit := OrZero(limit))
  {
    hide After, RunSpec, LimitAfter, Limited, WithLimit, SameQuery, OrZero;
    AfterMain(db, v, calls);
    LimitedSame(db, After(db, v, calls), WithLimit(v, LimitAfter(calls, v.base.ctx.limit)), r);
    LimitedAgain(v, calls, r);
    LimitOfAll(calls, v.base.ctx.limit);
    SameSpec(db, Limited(After(db, v, calls), r), WithLimit(v, LimitAfter(calls + [r], v.base.ctx.limit)));
    LimitOfSpec(db, v, LimitAfter(calls + [r], v.base.ctx.limit));
  }

  lemma CutRows(db: Database, own: QuerySpec, spec: QuerySpec)
    requires LimitsRows(db) && own == spec.(limit := own.limit) && spec.limit == 0 && db.accounts(own).Some?
    ensures db.accounts(spec).Some? && db.accounts(own) == Some(Cut(db.accounts(spec).value, own.limit))
  {
    assert own.(limit := 0) == spec;
  }

  lemma CallFails(db: Database, w: AccountView, r: Read)
    requires !r.SetTo? && RunAccounts(db, Limited(w, r)).1.Failed?
    ensures Owed(db, w, r).1.SeenFailure?
  {
    hide RunAccounts;
  }

  /** A call that does not fail tells of the rows under its own limit. */
  lemma CallTells(db: Database, w: AccountView, r: Read, full: seq<Row>, limit: nat, columns: seq<Column>)
    requires !r.SetTo? && RunAccounts(db, Limited(w, r)).1.Ran?
    requires
      var rows := Cut(full, if r.ReadFirst? then 1 else if r.ReadOnly? then 2 else limit);
      DecodedAll(NodesOf(db.json, RunAccounts(db, Limited(w, r)).1.plan), rows, columns, db.json)
    ensures Tells(Owed(db, w, r).1, r, full, limit, columns, db.json)
  {
    hide RunAccounts, NodesOf, Decoded;
  }

  lemma NoLimit(db: Database, v: AccountView)
    ensures RunSpec(db, WithLimit(v, None)).limit == 0
    ensures RunSpec(db, WithLimit(v, None)).columns == SpecOf(v).columns
  {
    hide AccountColumns;
  }

  lemma LastOwnLimit(calls: seq<Read>, r: Read, limit: Option<nat>)
    ensures r.ReadFirst? ==> OrZero(LimitAfter(calls + [r], limit)) == 1
    ensures r.ReadOnly? ==> OrZero(LimitAfter(calls + [r], limit)) == 2
  {
    assert (calls + [r])[|calls|] == r;
  }

  /**
   After any calls on a builder, a call that does not fail tells of the rows of its main query
   what it would have told first: First and Only answer as if no limit had ever been set, and
   All lists the prefix that the last call left.
   */
  lemma MainRows(db: Database, v: AccountView, calls: seq<Read>, r: Read)
    requires LimitsRows(db)
    ensures
      var seen, full := Owed(db, After(db, v, calls), r).1, FullRows(db, v);
      || seen.SeenFailure?
      || r.SetTo?
      || (full.Some? &&
          Tells(seen, r, full.value, OrZero(LimitAfter(calls, v.base.ctx.limit)), SpecOf(v).columns, db.json))
  {
    var w, limit := After(db, v, calls), OrZero(LimitAfter(calls, v.base.ctx.limit));
    var own := RunSpec(db, Limited(w, r));
    var spec := RunSpec(db, WithLimit(v, None));
    LimitedSpec(db, v, calls, r);
    LastOwnLimit(calls, r, v.base.ctx.limit);
    NoLimit(db, v);
    hide SpecOf, RunAccounts, SeenResult, After, Tells, Limited, OrZero, LimitAfter;
    if !r.SetTo? && RunAccounts(db, Limited(w, r)).1.Ran? {
      NodesDecoded(db, Limited(w, r));
      CutRows(db, own, spec);
      hide LimitsRows, DecodedAll, NodesOf;
      CallTells(db, w, r, FullRows(db, v).value, limit, SpecOf(v).columns);
    } else if !r.SetTo? {
      CallFails(db, w, r);
    }
  }
}
