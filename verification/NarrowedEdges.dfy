/**
 What earlier runs of a builder do to the edges of later ones. Each run that reaches a
 loader adds the loader's predicate to the edge query, for good, so that a later run loads
 an edge only for ids that every earlier run asked for as well.
 */
module NarrowedEdges {
  import opened Common
  import opened RowCodec
  import opened Entities
  import opened Projection
  import opened ToOneLoading
  import opened ToManyLoading
  import opened AccountLoading
  import opened QueryBuilder
  import opened QuerySpecs
  import opened EagerRuns
  import opened RunFailures
  import opened QueryRuns

  // ---------- what one run adds ----------

  /** The run once its own rows are there, if it has edges to load. */
  ghost function Start(db: Database, v: AccountView): Option<Progress> {
    if !ReachesEdges(db, v) then None
    else Some(Progress(Prepared(db, v), Unloaded(Prepared(db, v), db.accounts(RunSpec(db, v)).value), None))
  }

  /** The predicate of loadGroups, if the run reaches it. */
  ghost function GroupsAsk(db: Database, v: AccountView): seq<Predicate> {
    match Start(db, v)
    case None => []
    case Some(p) => if v.groups.None? then [] else [JoinedTo(RowIDs(p.plan.rows))]
  }

  /** The predicate of loadProxy, if the run reaches it with some key. */
  ghost function ProxyAsk(db: Database, v: AccountView): seq<Predicate> {
    match Start(db, v)
    case None => []
    case Some(p) =>
      var ids := DistinctKeys(RowKeys(p.plan.rows, ProxyID));
      if GroupsStep(db, p).error.Some? || v.proxy.None? || ids == [] then [] else [IDIn(ids)]
  }

  ghost function OwnerAsk(db: Database, v: AccountView): seq<Predicate> {
    match Start(db, v)
    case None => []
    case Some(p) =>
      var ids := DistinctKeys(RowKeys(p.plan.rows, OwnerUserID));
      if ProxiesStep(db, GroupsStep(db, p)).error.Some? || v.owner.None? || ids == [] then [] else [IDIn(ids)]
  }

  ghost function UsageLogsAsk(db: Database, v: AccountView): seq<Predicate> {
    match Start(db, v)
    case None => []
    case Some(p) =>
      if OwnersStep(db, ProxiesStep(db, GroupsStep(db, p))).error.Some? || v.usageLogs.None? then []
      else [KeyIn(RowIDs(p.plan.rows))]
  }

  ghost function LinksAsk(db: Database, v: AccountView): seq<Predicate> {
    match Start(db, v)
    case None => []
    case Some(p) => if FirstEdges(db, p).error.Some? || v.links.None? then [] else [KeyIn(RowIDs(p.plan.rows))]
  }

  function LinkBase(v: LinkView, ids: seq<int>): Base<LinkColumn> {
    Stepped(Stepped(v.base, KeyField(LinkAccountID)), Where(KeyIn(ids)))
  }

  /** The account query below the links is run without an error, if it is run. */
  ghost predicate AccountsLoad(db: Database, v: LinkView, ids: seq<int>)
    requires LinkRowsFor(db, v, ids).Some?
  {
    var b, rows := LinkBase(v, ids), LinkRowsFor(db, v, ids).value;
    QueryLinkAccounts(db, v.(base := b), LinkPlan(v, b, rows), LinkAccountKeys(rows)).1.Ran?
  }

  /** The predicate of loadAccount, if the run of the account-group query reaches it. */
  function LinkAccountAdded(db: Database, v: LinkView, ids: seq<int>): seq<Predicate> {
    var rows := LinkRowsFor(db, v, ids);
    if rows.None? || rows.value == [] || v.account.None? then []
    else [IDIn(DistinctKeys(LinkAccountKeys(rows.value)))]
  }

  /** The predicate of loadGroup. */
  ghost function LinkGroupAdded(db: Database, v: LinkView, ids: seq<int>): seq<Predicate> {
    var rows := LinkRowsFor(db, v, ids);
    if rows.None? || rows.value == [] || v.group.None? || !AccountsLoad(db, v, ids) then []
    else [IDIn(DistinctKeys(LinkGroupKeys(rows.value)))]
  }

  ghost function LinkAccountAsk(db: Database, v: AccountView): seq<Predicate> {
    match Start(db, v)
    case None => []
    case Some(p) =>
      if FirstEdges(db, p).error.Some? || v.links.None? then []
      else LinkAccountAdded(db, v.links.value, RowIDs(p.plan.rows))
  }

  ghost function LinkGroupAsk(db: Database, v: AccountView): seq<Predicate> {
    match Start(db, v)
    case None => []
    case Some(p) =>
      if FirstEdges(db, p).error.Some? || v.links.None? then []
      else LinkGroupAdded(db, v.links.value, RowIDs(p.plan.rows))
  }

  function Plus<C>(b: Base<C>, ps: seq<Predicate>): Base<C> {
    b.(predicates := b.predicates + ps)
  }

  function PlusEdge<C>(b: Option<Base<C>>, ps: seq<Predicate>): Option<Base<C>> {
    if b.None? then None else Some(Plus(b.value, ps))
  }

  /** With predicates, the key of a one-to-many edge joins the selected fields. */
  function PlusKeyed<C(==)>(b: Base<C>, key: C, ps: seq<Predicate>): Base<C> {
    var more := Plus(b, ps);
    if ps == [] then more else more.(ctx := b.ctx.(fields := WithKey(b.ctx.fields, key)))
  }

  lemma PlusNothing(v: AccountView)
    ensures PlusEdge(v.groups, []) == v.groups && PlusEdge(v.proxy, []) == v.proxy && PlusEdge(v.owner, []) == v.owner
    ensures v.usageLogs.Some? ==> PlusKeyed(v.usageLogs.value, LogAccountID, []) == v.usageLogs.value
    ensures v.links.Some? ==> PlusKeyed(v.links.value.base, LinkAccountID, []) == v.links.value.base
  {
    assert forall ps: seq<Predicate> :: ps + [] == ps;
  }

  lemma StartFits(db: Database, v: AccountView)
    requires Start(db, v).Some?
    ensures
      var p := Start(db, v).value;
      && p.view == v.(base := p.view.base) && p.error.None? && p.plan.rows != []
      && PlanFits(v, p.plan) && PlanFits(p.view, p.plan)
      && db.accounts(RunSpec(db, v)) == Some(p.plan.rows)
  {
    hide SpecOf, Readable, InvalidField;
  }

  lemma NoStart(db: Database, v: AccountView)
    requires Start(db, v).None?
    ensures RunAccounts(db, v).0 == v.(base := RunAccounts(db, v).0.base)
  {
    hide InvalidField, SpecOf, Readable, LinksStep, FirstEdges, Unloaded;
  }

  lemma RunUnfolds(db: Database, v: AccountView, p: Progress)
    requires Start(db, v) == Some(p)
    ensures
      var q := LinksStep(db, FirstEdges(db, p));
      RunAccounts(db, v) == (q.view, if q.error.Some? then Failed(q.error.value) else Ran(q.plan))
    ensures FirstEdges(db, p) == UsageLogsStep(db, OwnersStep(db, ProxiesStep(db, GroupsStep(db, p))))
    ensures p.view == v.(base := p.view.base) && p.error.None? && p.plan.rows != []
  {
    hide InvalidField, SpecOf, Readable, LinksStep, GroupsStep, ProxiesStep, OwnersStep, UsageLogsStep;
  }

  lemma GroupsAdds(db: Database, p: Progress)
    ensures GroupsStep(db, p).view.groups ==
            PlusEdge(
              p.view.groups, if p.error.Some? || p.view.groups.None? then [] else [JoinedTo(RowIDs(p.plan.rows))])
  {
    hide GroupsRequested, RowIDs;
    PlusNothing(p.view);
  }

  lemma ProxiesAdds(db: Database, p: Progress)
    ensures
      var ids := DistinctKeys(RowKeys(p.plan.rows, ProxyID));
      ProxiesStep(db, p).view.proxy ==
      PlusEdge(p.view.proxy, if p.error.Some? || p.view.proxy.None? || ids == [] then [] else [IDIn(ids)])
  {
    hide ToOneAnswered, DistinctKeys, RowKeys;
    PlusNothing(p.view);
  }

  lemma OwnersAdds(db: Database, p: Progress)
    ensures
      var ids := DistinctKeys(RowKeys(p.plan.rows, OwnerUserID));
      OwnersStep(db, p).view.owner ==
      PlusEdge(p.view.owner, if p.error.Some? || p.view.owner.None? || ids == [] then [] else [IDIn(ids)])
  {
    hide ToOneAnswered, DistinctKeys, RowKeys;
    PlusNothing(p.view);
  }

  lemma UsageLogsAdds(db: Database, p: Progress)
    ensures
      var b := p.view.usageLogs;
      UsageLogsStep(db, p).view.usageLogs ==
      if p.error.Some? || b.None? then b else Some(PlusKeyed(b.value, LogAccountID, [KeyIn(RowIDs(p.plan.rows))]))
  {
    hide UsageLogsRequested, RowIDs, WithKey;
  }

  lemma LinkRunAdds(db: Database, v: LinkView, ids: seq<int>)
    ensures RunLinks(db, v, ids).0.base == PlusKeyed(v.base, LinkAccountID, [KeyIn(ids)])
  {
    hide RunAccounts, DistinctKeys, Answers, WithKey, PlannedLinks, LinkAccountKeys, LinkGroupKeys;
  }

  /** An account query with more predicates. */
  function PlusAccount(v: AccountView, ps: seq<Predicate>): AccountView {
    v.(base := Plus(v.base, ps))
  }

  lemma SameQueryItself(db: Database, v: AccountView)
    ensures SameQuery(db, v, PlusAccount(v, []))
  {
    assert v.base.predicates + [] == v.base.predicates;
  }

  lemma PlusSame(db: Database, v: AccountView, w: AccountView, ps: seq<Predicate>)
    requires SameQuery(db, v, w)
    ensures SameQuery(db, PlusAccount(v, ps), PlusAccount(w, ps))
  {
  }

  /** The account and group queries below the links: the same, with at most one predicate more. */
  ghost predicate LinkAdded(db: Database, v: LinkView, w: LinkView, account: seq<Predicate>, group: seq<Predicate>) {
    && w.group == PlusEdge(v.group, group) && w.account.Some? == v.account.Some?
    && (v.account.Some? ==> SameQuery(db, w.account.value, PlusAccount(v.account.value, account)))
  }

  lemma LinkAddsNothing(db: Database, v: LinkView)
    ensures LinkAdded(db, v, v, [], [])
  {
    if v.account.Some? {
      SameQueryItself(db, v.account.value);
    }
    if v.group.Some? {
      assert v.group.value.predicates + [] == v.group.value.predicates;
    }
  }

  /** What loadAccount leaves, for some links. */
  lemma LinkAccountsAdd(db: Database, v: LinkView, plan: AccountGroupPlan, rows: seq<LinkRow>)
    requires rows != []
    ensures
      var w := QueryLinkAccounts(db, v, plan, LinkAccountKeys(rows)).0;
      var asked := if v.account.None? then [] else [IDIn(DistinctKeys(LinkAccountKeys(rows)))];
      w.base == v.base && LinkAdded(db, v, w, asked, [])
  {
    hide RunAccounts, DistinctKeys, Answers, LinkAccountKeys, LoadedAccounts, SameQuery, LinkGroupKeys;
    SomeKeys(rows);
    LinkAddsNothing(db, v);
    if v.account.Some? {
      RunKeepsMain(db, AskedFor(v.account.value, rows));
    }
  }

  lemma LinkGroupsAdd(db: Database, v: LinkView, plan: AccountGroupPlan, rows: seq<LinkRow>)
    requires rows != []
    ensures
      var w := QueryLinkGroups(db, v, plan, LinkGroupKeys(rows)).0;
      w == v.(group := PlusEdge(v.group, if v.group.None? then [] else [IDIn(DistinctKeys(LinkGroupKeys(rows)))]))
  {
    hide DistinctKeys, Answers, LinkGroupKeys, LinkAccountKeys;
    SomeKeys(rows);
  }

  lemma NoLinkGroup(db: Database, v: LinkView, plan: AccountGroupPlan, keys: seq<Option<int>>)
    ensures v.group.None? ==> QueryLinkGroups(db, v, plan, keys) == (v, Ran(plan))
  {
  }

  /** With the group requested, its key is scanned. */
  lemma ScannedGroupKeys(plan: AccountGroupPlan, ids: seq<int>)
    requires plan.withGroup.Some?
    ensures LinkGroupKeys(PlannedLinks(plan, ids)) == LinkGroupKeys(plan.run(ids))
  {
    LinkKeysSelected(plan);
  }

  lemma LinkRunAddsBelow(db: Database, v: LinkView, ids: seq<int>)
    ensures LinkAdded(db, v, RunLinks(db, v, ids).0, LinkAccountAdded(db, v, ids), LinkGroupAdded(db, v, ids))
  {
    hide RunAccounts, DistinctKeys, LinkAccountKeys, LinkGroupKeys, PlannedLinks, QueryLinkAccounts, QueryLinkGroups,
      Stepped, SameQuery, Plus;
    LinkAddsNothing(db, v);
    var b := LinkBase(v, ids);
    if db.links(b).Some? && db.links(b).value != [] {
      var rows := db.links(b).value;
      var plan := LinkPlan(v, b, rows);
      ScannedAccountKeys(plan, ids);
      LinkAccountsAdd(db, v.(base := b), plan, rows);
      var r1 := QueryLinkAccounts(db, v.(base := b), plan, LinkAccountKeys(rows));
      if r1.1.Ran? {
        NoLinkGroup(db, r1.0, r1.1.plan, LinkGroupKeys(PlannedLinks(plan, ids)));
        if v.group.Some? {
          ScannedGroupKeys(plan, ids);
          LinkGroupsAdd(db, r1.0, r1.1.plan, rows);
        }
      }
    }
  }

  lemma LinksAdds(db: Database, p: Progress)
    ensures
      var b, ids := p.view.links, RowIDs(p.plan.rows);
      var b' := LinksStep(db, p).view.links;
      if p.error.Some? || b.None? then b' == b
      else
        && b'.Some? && b'.value.base == PlusKeyed(b.value.base, LinkAccountID, [KeyIn(ids)])
        && LinkAdded(
             db, b.value, b'.value, LinkAccountAdded(db, b.value, ids), LinkGroupAdded(db, b.value, ids))
  {
    hide AccountGroupsRequested, RowIDs, RunLinks, WithKey, LinkAdded, LinkAccountAdded, LinkGroupAdded;
    if p.error.None? && p.view.links.Some? {
      LinkRunAdds(db, p.view.links.value, RowIDs(p.plan.rows));
      LinkRunAddsBelow(db, p.view.links.value, RowIDs(p.plan.rows));
    }
  }

  /** What the steps of a run add, one after the other. */
  lemma StepsAdd(db: Database, p: Progress)
    requires p.error.None? && PlanFits(p.view, p.plan)
    ensures
      var p1 := GroupsStep(db, p);
      var p2 := ProxiesStep(db, p1);
      var p3 := OwnersStep(db, p2);
      var p4 := UsageLogsStep(db, p3);
      var v' := LinksStep(db, p4).view;
      && p1.plan.rows == p2.plan.rows == p3.plan.rows == p4.plan.rows == p.plan.rows
      && v'.groups == p1.view.groups && v'.proxy == p2.view.proxy && v'.owner == p3.view.owner
      && v'.usageLogs == p4.view.usageLogs
      && p1.view.proxy == p.view.proxy && p2.view.owner == p.view.owner && p3.view.usageLogs == p.view.usageLogs
      && p4.view.links == p.view.links
  {
    hide GroupsStep, ProxiesStep, OwnersStep, UsageLogsStep, LinksStep;
    var p1 := GroupsStep(db, p);
    var p2 := ProxiesStep(db, p1);
    var p3 := OwnersStep(db, p2);
    var p4 := UsageLogsStep(db, p3);
    GroupsStepKeeps(db, p);
    ProxiesStepKeeps(db, p1);
    OwnersStepKeeps(db, p2);
    UsageLogsStepKeeps(db, p3);
    LinksStepKeeps(db, p4);
  }

  /** The edge queries that a run leaves behind. */
  lemma RunAdds(db: Database, v: AccountView)
    ensures
      var v' := RunAccounts(db, v).0;
      && v'.groups == PlusEdge(v.groups, GroupsAsk(db, v))
      && v'.proxy == PlusEdge(v.proxy, ProxyAsk(db, v))
      && v'.owner == PlusEdge(v.owner, OwnerAsk(db, v))
      && v'.usageLogs.Some? == v.usageLogs.Some?
      && (v.usageLogs.Some? ==>
            v'.usageLogs.value == PlusKeyed(v.usageLogs.value, LogAccountID, UsageLogsAsk(db, v)))
  {
    hide RowKeys, RowIDs, DistinctKeys, GroupsStep, ProxiesStep, OwnersStep, UsageLogsStep, LinksStep, RunAccounts,
      ReachesEdges, Unloaded, PlusKeyed, Plus, FirstEdges, PlanFits, RunSpec;
    PlusNothing(v);
    if Start(db, v).Some? {
      var p := Start(db, v).value;
      StartFits(db, v);
      RunUnfolds(db, v, p);
      StepsAdd(db, p);
      GroupsAdds(db, p);
      ProxiesAdds(db, GroupsStep(db, p));
      OwnersAdds(db, ProxiesStep(db, GroupsStep(db, p)));
      UsageLogsAdds(db, OwnersStep(db, ProxiesStep(db, GroupsStep(db, p))));
    } else {
      NoStart(db, v);
    }
  }

  /** What a run asks below its account-group query, once it has started. */
  lemma AsksOfLinks(db: Database, v: AccountView, p: Progress)
    requires Start(db, v) == Some(p) && v.links.Some?
    ensures
      var failed, ids := FirstEdges(db, p).error.Some?, RowIDs(p.plan.rows);
      && LinksAsk(db, v) == (if failed then [] else [KeyIn(ids)])
      && LinkAccountAsk(db, v) == (if failed then [] else LinkAccountAdded(db, v.links.value, ids))
      && LinkGroupAsk(db, v) == (if failed then [] else LinkGroupAdded(db, v.links.value, ids))
  {
    hide Start, FirstEdges, RowIDs, LinkAccountAdded, LinkGroupAdded;
  }

  lemma AsksOfNone(db: Database, v: AccountView)
    requires Start(db, v).None?
    ensures LinksAsk(db, v) == [] && LinkAccountAsk(db, v) == [] && LinkGroupAsk(db, v) == []
  {
    hide Start;
  }

  /** The account-group query that a run leaves behind, and the queries below it. */
  lemma RunAddsLinks(db: Database, v: AccountView)
    ensures
      var w := RunAccounts(db, v).0.links;
      && w.Some? == v.links.Some?
      && (w.Some? ==>
            && w.value.base == PlusKeyed(v.links.value.base, LinkAccountID, LinksAsk(db, v))
            && LinkAdded(db, v.links.value, w.value, LinkAccountAsk(db, v), LinkGroupAsk(db, v)))
  {
    hide RowIDs, LinksStep, RunAccounts, PlusKeyed, Plus, FirstEdges, PlanFits, LinkAdded, LinkAccountAdded,
      LinkGroupAdded, RunSpec, Start, LinksAsk, LinkAccountAsk, LinkGroupAsk;
    PlusNothing(v);
    if v.links.Some? {
      LinkAddsNothing(db, v.links.value);
    }
    if Start(db, v).Some? {
      var p := Start(db, v).value;
      StartFits(db, v);
      RunUnfolds(db, v, p);
      LinksAdds(db, FirstEdges(db, p));
      if v.links.Some? {
        AsksOfLinks(db, v, p);
      }
    } else {
      NoStart(db, v);
      AsksOfNone(db, v);
    }
  }

  // ---------- what some calls add ----------

  /** The predicates of a loader that some calls add, in order. */
  ghost function Asks(
    db: Database, v: AccountView, calls: seq<Read>, ask: (Database, AccountView) -> seq<Predicate>): seq<Predicate>
  {
    if calls == [] then []
    else
      var init, r := calls[..|calls| - 1], calls[|calls| - 1];
      Asks(db, v, init, ask) + (if r.SetTo? then [] else ask(db, Limited(After(db, v, init), r)))
  }

  ghost predicate AsksOnly(ask: (Database, AccountView) -> seq<Predicate>, kind: Predicate -> bool) {
    forall db, v, p :: p in ask(db, v) ==> kind(p)
  }

  lemma {:induction false} AsksOfOneKind(
    db: Database, v: AccountView, calls: seq<Read>, ask: (Database, AccountView) -> seq<Predicate>,
    kind: Predicate -> bool, asks: seq<Predicate>)
    requires AsksOnly(ask, kind) && asks == Asks(db, v, calls, ask)
    ensures forall p :: p in asks ==> kind(p)
  {
    if calls == [] {
    } else {
      var init, r := calls[..|calls| - 1], calls[|calls| - 1];
      AsksOfOneKind(db, v, init, ask, kind, Asks(db, v, init, ask));
      hide After, Limited;
    }
  }

  ghost function GroupsAsks(db: Database, v: AccountView, calls: seq<Read>): seq<Predicate> {
    Asks(db, v, calls, GroupsAsk)
  }

  ghost function ProxyAsks(db: Database, v: AccountView, calls: seq<Read>): seq<Predicate> {
    Asks(db, v, calls, ProxyAsk)
  }

  ghost function OwnerAsks(db: Database, v: AccountView, calls: seq<Read>): seq<Predicate> {
    Asks(db, v, calls, OwnerAsk)
  }

  ghost function UsageLogsAsks(db: Database, v: AccountView, calls: seq<Read>): seq<Predicate> {
    Asks(db, v, calls, UsageLogsAsk)
  }

  ghost function LinksAsks(db: Database, v: AccountView, calls: seq<Read>): seq<Predicate> {
    Asks(db, v, calls, LinksAsk)
  }

  ghost function LinkAccountAsks(db: Database, v: AccountView, calls: seq<Read>): seq<Predicate> {
    Asks(db, v, calls, LinkAccountAsk)
  }

  ghost function LinkGroupAsks(db: Database, v: AccountView, calls: seq<Read>): seq<Predicate> {
    Asks(db, v, calls, LinkGroupAsk)
  }

  /** The edge queries that some calls leave behind: those they started from, and the predicates added. */
  ghost predicate Narrowed(db: Database, v: AccountView, calls: seq<Read>, w: AccountView) {
    && w.groups == PlusEdge(v.groups, GroupsAsks(db, v, calls))
    && w.proxy == PlusEdge(v.proxy, ProxyAsks(db, v, calls))
    && w.owner == PlusEdge(v.owner, OwnerAsks(db, v, calls))
    && w.usageLogs.Some? == v.usageLogs.Some?
    && (v.usageLogs.Some? ==>
          w.usageLogs.value == PlusKeyed(v.usageLogs.value, LogAccountID, UsageLogsAsks(db, v, calls)))
  }

  /** The account-group query that they leave behind, and the queries below it. */
  ghost predicate NarrowedLinks(db: Database, v: AccountView, calls: seq<Read>, w: AccountView) {
    && w.links.Some? == v.links.Some?
    && (v.links.Some? ==>
          && w.links.value.base == PlusKeyed(v.links.value.base, LinkAccountID, LinksAsks(db, v, calls))
          && LinkAdded(
               db, v.links.value, w.links.value, LinkAccountAsks(db, v, calls), LinkGroupAsks(db, v, calls)))
  }

  lemma AsksStep(db: Database, v: AccountView, init: seq<Read>, r: Read, calls: seq<Read>)
    requires calls != [] && init == calls[..|calls| - 1] && r == calls[|calls| - 1]
    ensures
      var w := Limited(After(db, v, init), r);
      && GroupsAsks(db, v, calls) == GroupsAsks(db, v, init) + (if r.SetTo? then [] else GroupsAsk(db, w))
      && ProxyAsks(db, v, calls) == ProxyAsks(db, v, init) + (if r.SetTo? then [] else ProxyAsk(db, w))
      && OwnerAsks(db, v, calls) == OwnerAsks(db, v, init) + (if r.SetTo? then [] else OwnerAsk(db, w))
      && UsageLogsAsks(db, v, calls) == UsageLogsAsks(db, v, init) + (if r.SetTo? then [] else UsageLogsAsk(db, w))
      && LinksAsks(db, v, calls) == LinksAsks(db, v, init) + (if r.SetTo? then [] else LinksAsk(db, w))
      && LinkAccountAsks(db, v, calls) ==
         LinkAccountAsks(db, v, init) + (if r.SetTo? then [] else LinkAccountAsk(db, w))
      && LinkGroupAsks(db, v, calls) == LinkGroupAsks(db, v, init) + (if r.SetTo? then [] else LinkGroupAsk(db, w))
  {
    hide GroupsAsk, ProxyAsk, OwnerAsk, UsageLogsAsk, LinksAsk, LinkAccountAsk, LinkGroupAsk, After, Limited;
  }

  lemma PlusTwice<C>(b: Option<Base<C>>, ps: seq<Predicate>, qs: seq<Predicate>)
    ensures PlusEdge(PlusEdge(b, ps), qs) == PlusEdge(b, ps + qs)
    ensures ps + [] == ps
  {
    if b.Some? {
      assert (b.value.predicates + ps) + qs == b.value.predicates + (ps + qs);
    }
  }

  lemma PlusKeyedTwice<C>(b: Base<C>, key: C, ps: seq<Predicate>, qs: seq<Predicate>)
    ensures PlusKeyed(PlusKeyed(b, key, ps), key, qs) == PlusKeyed(b, key, ps + qs)
    ensures ps + [] == ps
  {
    assert (b.predicates + ps) + qs == b.predicates + (ps + qs);
    assert WithKey(WithKey(b.ctx.fields, key), key) == WithKey(b.ctx.fields, key);
    hide WithKey;
  }

  lemma LinkAddedTwice(
    db: Database, u: LinkView, v: LinkView, w: LinkView, as1: seq<Predicate>, gs1: seq<Predicate>,
    as2: seq<Predicate>, gs2: seq<Predicate>)
    requires LinkAdded(db, u, v, as1, gs1) && LinkAdded(db, v, w, as2, gs2)
    ensures LinkAdded(db, u, w, as1 + as2, gs1 + gs2)
  {
    PlusTwice(u.group, gs1, gs2);
    hide PlusEdge, SameQuery;
    if u.account.Some? {
      var a, b, c := u.account.value, v.account.value, w.account.value;
      PlusSame(db, b, PlusAccount(a, as1), as2);
      assert PlusAccount(PlusAccount(a, as1), as2) == PlusAccount(a, as1 + as2) by {
        assert (a.base.predicates + as1) + as2 == a.base.predicates + (as1 + as2);
      }
      hide PlusAccount;
      SameQueryThrough(db, c, PlusAccount(b, as2), PlusAccount(a, as1 + as2));
    }
  }

  /** What a call leaves, when it is no run. */
  lemma SetToAdds(db: Database, v: AccountView, r: Read)
    ensures
      if r.SetTo? then Owed(db, v, r).0 == v.(base := Owed(db, v, r).0.base)
      else Owed(db, v, r).0 == RunAccounts(db, Limited(v, r)).0
    ensures Limited(v, r) == v.(base := Limited(v, r).base)
  {
    hide RunAccounts, SeenResult;
  }

  lemma {:induction false} AfterIsNarrowed(db: Database, v: AccountView, calls: seq<Read>)
    ensures Narrowed(db, v, calls, After(db, v, calls))
  {
    hide GroupsAsk, ProxyAsk, OwnerAsk, UsageLogsAsk, RunAccounts, Owed, Limited, Plus, PlusKeyed, PlusEdge;
    if calls == [] {
      PlusNothing(v);
    } else {
      var init, r := calls[..|calls| - 1], calls[|calls| - 1];
      var w := Limited(After(db, v, init), r);
      AfterIsNarrowed(db, v, init);
      SetToAdds(db, After(db, v, init), r);
      RunAdds(db, w);
      AsksStep(db, v, init, r, calls);
      hide GroupsAsks, ProxyAsks, OwnerAsks, UsageLogsAsks;
      PlusTwice(v.groups, GroupsAsks(db, v, init), GroupsAsk(db, w));
      PlusTwice(v.proxy, ProxyAsks(db, v, init), ProxyAsk(db, w));
      PlusTwice(v.owner, OwnerAsks(db, v, init), OwnerAsk(db, w));
      if v.usageLogs.Some? {
        PlusKeyedTwice(v.usageLogs.value, LogAccountID, UsageLogsAsks(db, v, init), UsageLogsAsk(db, w));
      }
    }
  }

  lemma NothingMore(ps: seq<Predicate>)
    ensures ps + [] == ps
  {
  }

  lemma {:induction false} LinksAreNarrowed(db: Database, v: AccountView, calls: seq<Read>)
    ensures NarrowedLinks(db, v, calls, After(db, v, calls))
  {
    hide LinksAsk, LinkAccountAsk, LinkGroupAsk, RunAccounts, Owed, Limited, PlusKeyed, LinkAdded;
    if calls == [] {
      PlusNothing(v);
      if v.links.Some? {
        LinkAddsNothing(db, v.links.value);
      }
    } else {
      var init, r := calls[..|calls| - 1], calls[|calls| - 1];
      var w := Limited(After(db, v, init), r);
      LinksAreNarrowed(db, v, init);
      SetToAdds(db, After(db, v, init), r);
      RunAddsLinks(db, w);
      AsksStep(db, v, init, r, calls);
      hide LinksAsks, LinkAccountAsks, LinkGroupAsks;
      if v.links.Some? {
        var l, k := v.links.value, w.links.value;
        PlusKeyedTwice(l.base, LinkAccountID, LinksAsks(db, v, init), LinksAsk(db, w));
        NothingMore(LinksAsks(db, v, init));
        NothingMore(LinkAccountAsks(db, v, init));
        NothingMore(LinkGroupAsks(db, v, init));
        if !r.SetTo? {
          LinkAddedTwice(
            db, l, k, RunAccounts(db, w).0.links.value, LinkAccountAsks(db, v, init), LinkGroupAsks(db, v, init),
            LinkAccountAsk(db, w), LinkGroupAsk(db, w));
        }
      }
    }
  }
}
