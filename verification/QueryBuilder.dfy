/**
 The query builders and their Clone: backend/ent/account_query.go and
 backend/ent/accountgroup_query.go.

 An account query holds an account-group query, which holds an account query, and so on
 to any depth. A caller's predicates, orders, interceptors, modifiers, selectors and
 traversal paths are opaque tokens; the predicates that eager loading adds are kept with
 the ids they ask for. The builders of groups, proxies, users and usage logs are kept
 without edges of their own.
 */
module QueryBuilder {
  import opened Common
  import opened RowCodec
  import opened Projection

  // ---------- the values of builders ----------

  /** The value of a query context. */
  datatype Context<+C> = Context(fields: seq<C>, unique: Option<bool>, limit: Option<nat>, offset: Option<nat>)

  /** A predicate of the caller, or one that a loader adds: on the id, on the foreign key, or through the join table. */
  datatype Predicate = Custom(token: string) | IDIn(ids: seq<int>) | KeyIn(ids: seq<int>) | JoinedTo(ids: seq<int>)

  /** What every builder has. */
  datatype Base<+C> = Base(
    ctx: Context<C>, order: seq<string>, inters: seq<string>, predicates: seq<Predicate>, modifiers: seq<string>,
    sql: Option<string>, path: Option<string>)

  function EmptyBase<C>(): Base<C> {
    Base(Context([], None, None, None), [], [], [], [], None, None)
  }

  datatype AccountView = AccountView(
    base: Base<Column>, groups: Option<Base<string>>, proxy: Option<Base<string>>, owner: Option<Base<string>>,
    usageLogs: Option<Base<LogColumn>>, links: Option<LinkView>)

  datatype LinkView = LinkView(base: Base<LinkColumn>, account: Option<AccountView>, group: Option<Base<string>>)

  const EMPTY_ACCOUNT: AccountView := AccountView(EmptyBase(), None, None, None, None, None)

  const EMPTY_LINK: LinkView := LinkView(EmptyBase(), None, None)

  // ---------- builder calls ----------

  /**
   A call that changes what every builder has. A lock call adds a modifier, and on Postgres
   drops Unique; KeyField is what a one-to-many loader does to the selected fields, and
   StartFrom what prepareQuery does to a query that a traversal path leads to.
   */
  datatype Step<+C> =
    | Where(added: Predicate)
    | Order(option: string)
    | Limit(limit: nat)
    | Offset(offset: nat)
    | Unique(unique: bool)
    | Select(fields: seq<C>)
    | GroupBy(field: C, others: seq<C>)
    | Lock(modifier: string, postgres: bool)
    | KeyField(field: C)
    | StartFrom(selector: string)

  /** A call on an account query; a With call carries the calls its options make on the new edge query. */
  datatype AccountCall =
    | Own(step: Step<Column>)
    | WithGroups(steps: seq<Step<string>>)
    | WithProxy(steps: seq<Step<string>>)
    | WithOwner(steps: seq<Step<string>>)
    | WithUsageLogs(logSteps: seq<Step<LogColumn>>)
    | WithAccountGroups(calls: seq<LinkCall>)

  datatype LinkCall =
    | OwnLink(step: Step<LinkColumn>)
    | WithAccount(calls: seq<AccountCall>)
    | WithGroup(steps: seq<Step<string>>)

  function Stepped<C(==)>(b: Base<C>, s: Step<C>): Base<C> {
    match s
    case Where(p) => b.(predicates := b.predicates + [p])
    case Order(o) => b.(order := b.order + [o])
    case Limit(n) => b.(ctx := b.ctx.(limit := Some(n)))
    case Offset(n) => b.(ctx := b.ctx.(offset := Some(n)))
    case Unique(u) => b.(ctx := b.ctx.(unique := Some(u)))
    case Select(fs) => b.(ctx := b.ctx.(fields := b.ctx.fields + fs))
    case GroupBy(f, fs) => b.(ctx := b.ctx.(fields := [f] + fs))
    case Lock(m, postgres) =>
      var locked := b.(modifiers := b.modifiers + [m]);
      if postgres then locked.(ctx := locked.ctx.(unique := Some(false))) else locked
    case KeyField(f) => b.(ctx := b.ctx.(fields := WithKey(b.ctx.fields, f)))
    case StartFrom(s) => b.(sql := Some(s))
  }

  function SteppedAll<C(==)>(b: Base<C>, steps: seq<Step<C>>): Base<C> {
    if steps == [] then b else Stepped(SteppedAll(b, steps[..|steps| - 1]), steps[|steps| - 1])
  }

  function NewEdge<C(==)>(steps: seq<Step<C>>): Option<Base<C>> {
    Some(SteppedAll(EmptyBase(), steps))
  }

  function Called(v: AccountView, c: AccountCall): AccountView
    decreases c, 0
  {
    match c
    case Own(s) => v.(base := Stepped(v.base, s))
    case WithGroups(steps) => v.(groups := NewEdge(steps))
    case WithProxy(steps) => v.(proxy := NewEdge(steps))
    case WithOwner(steps) => v.(owner := NewEdge(steps))
    case WithUsageLogs(steps) => v.(usageLogs := NewEdge(steps))
    case WithAccountGroups(calls) => v.(links := Some(LinkCalledAll(EMPTY_LINK, calls)))
  }

  function CalledAll(v: AccountView, calls: seq<AccountCall>): AccountView
    decreases calls, 1
  {
    if calls == [] then v else Called(CalledAll(v, calls[..|calls| - 1]), calls[|calls| - 1])
  }

  function LinkCalled(v: LinkView, c: LinkCall): LinkView
    decreases c, 0
  {
    match c
    case OwnLink(s) => v.(base := Stepped(v.base, s))
    case WithAccount(calls) => v.(account := Some(CalledAll(EMPTY_ACCOUNT, calls)))
    case WithGroup(steps) => v.(group := NewEdge(steps))
  }

  function LinkCalledAll(v: LinkView, calls: seq<LinkCall>): LinkView
    decreases calls, 1
  {
    if calls == [] then v else LinkCalled(LinkCalledAll(v, calls[..|calls| - 1]), calls[|calls| - 1])
  }

  // ---------- what a call changes ----------

  datatype Edge = GroupsEdge | ProxyEdge | OwnerEdge | UsageLogsEdge | AccountGroupsEdge

  /** The With call of the edge. */
  predicate AsksFor(c: AccountCall, e: Edge) {
    match e
    case GroupsEdge => c.WithGroups?
    case ProxyEdge => c.WithProxy?
    case OwnerEdge => c.WithOwner?
    case UsageLogsEdge => c.WithUsageLogs?
    case AccountGroupsEdge => c.WithAccountGroups?
  }

  /** The edge query is a new one that has seen the calls of this With call, and no others. */
  predicate HoldsOnly(v: AccountView, e: Edge, c: AccountCall)
    requires AsksFor(c, e)
  {
    match e
    case GroupsEdge => v.groups == Some(SteppedAll(EmptyBase(), c.steps))
    case ProxyEdge => v.proxy == Some(SteppedAll(EmptyBase(), c.steps))
    case OwnerEdge => v.owner == Some(SteppedAll(EmptyBase(), c.steps))
    case UsageLogsEdge => v.usageLogs == Some(SteppedAll(EmptyBase(), c.logSteps))
    case AccountGroupsEdge => v.links == Some(LinkCalledAll(EMPTY_LINK, c.calls))
  }

  predicate SameEdge(v: AccountView, w: AccountView, e: Edge) {
    match e
    case GroupsEdge => v.groups == w.groups
    case ProxyEdge => v.proxy == w.proxy
    case OwnerEdge => v.owner == w.owner
    case UsageLogsEdge => v.usageLogs == w.usageLogs
    case AccountGroupsEdge => v.links == w.links
  }

  /** A With call makes the query of its own edge anew; it and every other call leave all else as it was. */
  ghost predicate CallMade(v: AccountView, c: AccountCall, w: AccountView) {
    && w.base == (if c.Own? then Stepped(v.base, c.step) else v.base)
    && forall e :: if AsksFor(c, e) then HoldsOnly(w, e, c) else SameEdge(w, v, e)
  }

  lemma CallMakes(v: AccountView, c: AccountCall)
    ensures CallMade(v, c, Called(v, c))
  {
    hide Stepped, SteppedAll, LinkCalledAll;
  }

  datatype LinkEdge = AccountEdge | GroupEdge

  predicate LinkAsksFor(c: LinkCall, e: LinkEdge) {
    match e
    case AccountEdge => c.WithAccount?
    case GroupEdge => c.WithGroup?
  }

  predicate LinkHoldsOnly(v: LinkView, e: LinkEdge, c: LinkCall)
    requires LinkAsksFor(c, e)
  {
    match e
    case AccountEdge => v.account == Some(CalledAll(EMPTY_ACCOUNT, c.calls))
    case GroupEdge => v.group == Some(SteppedAll(EmptyBase(), c.steps))
  }

  predicate SameLinkEdge(v: LinkView, w: LinkView, e: LinkEdge) {
    match e
    case AccountEdge => v.account == w.account
    case GroupEdge => v.group == w.group
  }

  ghost predicate LinkCallMade(v: LinkView, c: LinkCall, w: LinkView) {
    && w.base == (if c.OwnLink? then Stepped(v.base, c.step) else v.base)
    && forall e :: if LinkAsksFor(c, e) then LinkHoldsOnly(w, e, c) else SameLinkEdge(w, v, e)
  }

  lemma LinkCallMakes(v: LinkView, c: LinkCall)
    ensures LinkCallMade(v, c, LinkCalled(v, c))
  {
    hide Stepped, SteppedAll, CalledAll;
  }

  // ---------- what a clone keeps ----------

  function PlainBase<C>(b: Base<C>): Base<C> {
    b.(modifiers := [])
  }

  function PlainEdge<C>(b: Option<Base<C>>): Option<Base<C>> {
    if b.Some? then Some(PlainBase(b.value)) else None
  }

  /** The query without the modifiers at any level. */
  function Plain(v: AccountView): AccountView {
    AccountView(
      PlainBase(v.base), PlainEdge(v.groups), PlainEdge(v.proxy), PlainEdge(v.owner), PlainEdge(v.usageLogs),
      if v.links.Some? then Some(PlainLink(v.links.value)) else None)
  }

  function PlainLink(v: LinkView): LinkView {
    LinkView(PlainBase(v.base), if v.account.Some? then Some(Plain(v.account.value)) else None, PlainEdge(v.group))
  }

  // ---------- the heap ----------

  class QueryContext<C> {
    var fields: seq<C>
    var unique: Option<bool>
    var limit: Option<nat>
    var offset: Option<nat>

    constructor (c: Context<C>)
      ensures View() == c
    {
      fields, unique, limit, offset := c.fields, c.unique, c.limit, c.offset;
    }

    function View(): Context<C>
      reads this
    {
      Context(fields, unique, limit, offset)
    }

    method Clone() returns (c: QueryContext<C>)
      ensures fresh(c) && c.View() == View()
    {
      c := new QueryContext(Context(fields, unique, limit, offset));
    }
  }

  class Builder<C(==)> {
    const ctx: QueryContext<C>
    var order: seq<string>
    var inters: seq<string>
    var predicates: seq<Predicate>
    var modifiers: seq<string>
    var sql: Option<string>
    const path: Option<string>

    constructor ()
      ensures fresh(ctx) && View() == EmptyBase()
    {
      ctx := new QueryContext(Context([], None, None, None));
      order, inters, predicates, modifiers, sql, path := [], [], [], [], None, None;
    }

    constructor Copy(ctx: QueryContext<C>, b: Base<C>)
      requires ctx.View() == b.ctx
      ensures this.ctx == ctx && View() == PlainBase(b)
    {
      this.ctx, order, inters, predicates, modifiers := ctx, b.order, b.inters, b.predicates, [];
      sql, path := b.sql, b.path;
    }

    function View(): Base<C>
      reads this, ctx
    {
      Base(ctx.View(), order, inters, predicates, modifiers, sql, path)
    }

    function Objects(): set<object> {
      {this, ctx}
    }

    /** One builder call. */
    method Apply(s: Step<C>)
      modifies this, ctx
      ensures View() == Stepped(old(View()), s)
    {
      match s
      case Where(p) => predicates := predicates + [p];
      case Order(o) => order := order + [o];
      case Limit(n) => ctx.limit := Some(n);
      case Offset(n) => ctx.offset := Some(n);
      case Unique(u) => ctx.unique := Some(u);
      case Select(fs) => ctx.fields := ctx.fields + fs;
      case GroupBy(f, fs) => ctx.fields := [f] + fs;
      case Lock(m, postgres) =>
        if postgres {
          ctx.unique := Some(false);
        }
        modifiers := modifiers + [m];
      case KeyField(f) => ctx.fields := WithKey(ctx.fields, f);
      case StartFrom(s) => sql := Some(s);
    }

    /** A new builder, on which the options of a With call make their calls. */
    static method Configured(steps: seq<Step<C>>) returns (b: Builder<C>)
      ensures fresh(b.Objects()) && b.View() == SteppedAll(EmptyBase(), steps)
    {
      b := new Builder();
      for i := 0 to |steps|
        invariant fresh(b.Objects()) && b.View() == SteppedAll(EmptyBase(), steps[..i])
      {
        assert steps[..i + 1][..i] == steps[..i];
        b.Apply(steps[i]);
      }
      assert steps[..|steps|] == steps;
    }

    method Clone() returns (b: Builder<C>)
      ensures fresh(b.Objects()) && b.View() == PlainBase(View())
    {
      var c := ctx.Clone();
      b := new Builder.Copy(c, View());
    }
  }

  function EdgeObjects<C(==)>(b: Builder?<C>): set<object> {
    if b == null then {} else b.Objects()
  }

  function EdgeView<C(==)>(b: Builder?<C>): Option<Base<C>>
    reads EdgeObjects(b)
  {
    if b == null then None else Some(b.View())
  }

  /** Clone on a pointer that may be nil. */
  method CloneEdge<C(==)>(b: Builder?<C>) returns (c: Builder?<C>)
    ensures fresh(EdgeObjects(c)) && EdgeView(c) == PlainEdge(EdgeView(b))
  {
    c := null;
    if b != null {
      c := b.Clone();
    }
  }

  ghost function FourObjects(
    groups: Builder?<string>, proxy: Builder?<string>, owner: Builder?<string>, usageLogs: Builder?<LogColumn>)
    : set<object>
  {
    EdgeObjects(groups) + EdgeObjects(proxy) + EdgeObjects(owner) + EdgeObjects(usageLogs)
  }

  /** No two of the four share an object. */
  ghost predicate Apart(
    groups: Builder?<string>, proxy: Builder?<string>, owner: Builder?<string>, usageLogs: Builder?<LogColumn>)
  {
    && EdgeObjects(groups) !! EdgeObjects(proxy) + EdgeObjects(owner) + EdgeObjects(usageLogs)
    && EdgeObjects(proxy) !! EdgeObjects(owner) + EdgeObjects(usageLogs)
    && EdgeObjects(owner) !! EdgeObjects(usageLogs)
  }

  method CloneTwo<C(==), D(==)>(b: Builder?<C>, d: Builder?<D>) returns (b': Builder?<C>, d': Builder?<D>)
    ensures fresh(EdgeObjects(b')) && fresh(EdgeObjects(d')) && EdgeObjects(b') !! EdgeObjects(d')
    ensures EdgeView(b') == PlainEdge(EdgeView(b)) && EdgeView(d') == PlainEdge(EdgeView(d))
  {
    hide PlainEdge;
    b' := CloneEdge(b);
    d' := CloneEdge(d);
  }

  class AccountQuery {
    const base: Builder<Column>
    var withGroups: Builder?<string>
    var withProxy: Builder?<string>
    var withOwner: Builder?<string>
    var withUsageLogs: Builder?<LogColumn>
    var withAccountGroups: AccountGroupQuery?
    ghost var Repr: set<object>

    constructor (
      base: Builder<Column>, groups: Builder?<string>, proxy: Builder?<string>, owner: Builder?<string>,
      usageLogs: Builder?<LogColumn>, links: AccountGroupQuery?)
      requires base.Objects() !! FourObjects(groups, proxy, owner, usageLogs) && Apart(groups, proxy, owner, usageLogs)
      requires links != null ==>
        links.Valid() && links.Repr !! base.Objects() && links.Repr !! FourObjects(groups, proxy, owner, usageLogs)
      ensures Valid() && fresh(Repr - base.Objects() - Edges() - LinkObjects(links))
      ensures Edges() == FourObjects(groups, proxy, owner, usageLogs)
      ensures View() == AccountView(
        base.View(), EdgeView(groups), EdgeView(proxy), EdgeView(owner), EdgeView(usageLogs),
        if links == null then None else Some(links.View()))
    {
      this.base := base;
      withGroups, withProxy, withOwner, withUsageLogs, withAccountGroups := groups, proxy, owner, usageLogs, links;
      new;
      Repr := {this, base, base.ctx} + Edges() + LinkObjects(links);
    }

    ghost function Edges(): set<object>
      reads this
    {
      FourObjects(withGroups, withProxy, withOwner, withUsageLogs)
    }

    /** The builders below this one are a tree that shares nothing with it. */
    ghost predicate Valid()
      reads this, Repr
      decreases Repr, 0
    {
      && this in Repr && base in Repr && base.ctx in Repr && Edges() <= Repr
      && {this, base, base.ctx} !! Edges() && Apart(withGroups, withProxy, withOwner, withUsageLogs)
      && (withAccountGroups != null ==>
            && withAccountGroups in Repr && withAccountGroups.Repr <= Repr - {this, base, base.ctx} - Edges()
            && withAccountGroups.Valid())
    }

    ghost function View(): AccountView
      requires Valid()
      reads this, Repr
      decreases Repr, 0
    {
      AccountView(
        base.View(), EdgeView(withGroups), EdgeView(withProxy), EdgeView(withOwner), EdgeView(withUsageLogs),
        if withAccountGroups == null then None else Some(withAccountGroups.View()))
    }

    lemma Parts()
      requires Valid()
      ensures View() == AccountView(
        base.View(), EdgeView(withGroups), EdgeView(withProxy), EdgeView(withOwner), EdgeView(withUsageLogs),
        if withAccountGroups == null then None else Some(withAccountGroups.View()))
      ensures this in Repr && base in Repr && base.ctx in Repr && Edges() <= Repr
      ensures withAccountGroups != null ==> withAccountGroups.Valid() && withAccountGroups.Repr < Repr
    {
    }

    /** A call on what every builder has. */
    method Do(s: Step<Column>)
      requires Valid()
      modifies base, base.ctx
      ensures Valid() && Repr == old(Repr) && View() == old(View()).(base := Stepped(old(View()).base, s))
    {
      hide Stepped, AccountGroupQuery.Valid, AccountGroupQuery.View;
      base.Apply(s);
    }

    method SetGroups(q: Builder<string>)
      requires Valid() && q.Objects() !! Repr
      modifies this
      ensures Valid() && Repr == old(Repr) + q.Objects() && View() == old(View()).(groups := Some(q.View()))
    {
      hide AccountGroupQuery.Valid, AccountGroupQuery.View;
      withGroups, Repr := q, Repr + q.Objects();
    }

    method SetProxy(q: Builder<string>)
      requires Valid() && q.Objects() !! Repr
      modifies this
      ensures Valid() && Repr == old(Repr) + q.Objects() && View() == old(View()).(proxy := Some(q.View()))
    {
      hide AccountGroupQuery.Valid, AccountGroupQuery.View;
      withProxy, Repr := q, Repr + q.Objects();
    }

    method SetOwner(q: Builder<string>)
      requires Valid() && q.Objects() !! Repr
      modifies this
      ensures Valid() && Repr == old(Repr) + q.Objects() && View() == old(View()).(owner := Some(q.View()))
    {
      hide AccountGroupQuery.Valid, AccountGroupQuery.View;
      withOwner, Repr := q, Repr + q.Objects();
    }

    method SetUsageLogs(q: Builder<LogColumn>)
      requires Valid() && q.Objects() !! Repr
      modifies this
      ensures Valid() && Repr == old(Repr) + q.Objects() && View() == old(View()).(usageLogs := Some(q.View()))
    {
      hide AccountGroupQuery.Valid, AccountGroupQuery.View;
      withUsageLogs, Repr := q, Repr + q.Objects();
    }

    method SetAccountGroups(q: AccountGroupQuery)
      requires Valid() && q.Valid() && q.Repr !! Repr
      modifies this
      ensures Valid() && Repr == old(Repr) + q.Repr && View() == old(View()).(links := Some(q.View()))
    {
      hide AccountGroupQuery.Valid, AccountGroupQuery.View;
      q.Parts();
      withAccountGroups, Repr := q, Repr + q.Repr;
    }

    // ---------- calls on an edge query that is already there ----------

    method StepGroups(s: Step<string>)
      requires Valid() && withGroups != null
      modifies withGroups, withGroups.ctx
      ensures Valid() && Repr == old(Repr)
      ensures View() == old(View()).(groups := Some(Stepped(old(View()).groups.value, s)))
    {
      hide Stepped, AccountGroupQuery.Valid, AccountGroupQuery.View;
      withGroups.Apply(s);
    }

    method StepProxy(s: Step<string>)
      requires Valid() && withProxy != null
      modifies withProxy, withProxy.ctx
      ensures Valid() && Repr == old(Repr)
      ensures View() == old(View()).(proxy := Some(Stepped(old(View()).proxy.value, s)))
    {
      hide Stepped, AccountGroupQuery.Valid, AccountGroupQuery.View;
      withProxy.Apply(s);
    }

    method StepOwner(s: Step<string>)
      requires Valid() && withOwner != null
      modifies withOwner, withOwner.ctx
      ensures Valid() && Repr == old(Repr)
      ensures View() == old(View()).(owner := Some(Stepped(old(View()).owner.value, s)))
    {
      hide Stepped, AccountGroupQuery.Valid, AccountGroupQuery.View;
      withOwner.Apply(s);
    }

    method StepUsageLogs(s: Step<LogColumn>)
      requires Valid() && withUsageLogs != null
      modifies withUsageLogs, withUsageLogs.ctx
      ensures Valid() && Repr == old(Repr)
      ensures View() == old(View()).(usageLogs := Some(Stepped(old(View()).usageLogs.value, s)))
    {
      hide Stepped, AccountGroupQuery.Valid, AccountGroupQuery.View;
      withUsageLogs.Apply(s);
    }

    /** A change of the account-group query below, and of nothing else here. */
    twostate lemma LinksChanged()
      requires old(Valid()) && withAccountGroups != null && unchanged(this)
      requires unchanged(old(Repr) - old(withAccountGroups.Repr))
      requires withAccountGroups.Valid() && withAccountGroups.Repr == old(withAccountGroups.Repr)
      ensures Valid() && View() == old(View()).(links := Some(withAccountGroups.View()))
    {
      hide AccountGroupQuery.Valid, AccountGroupQuery.View;
    }

    /** One builder call. */
    method Apply(c: AccountCall)
      requires Valid()
      modifies Repr
      ensures Valid() && fresh(Repr - old(Repr)) && View() == Called(old(View()), c)
      ensures CallMade(old(View()), c, View())
      decreases c, 0
    {
      hide Stepped, Valid, View, EdgeObjects, EdgeView, AccountGroupQuery.Valid, AccountGroupQuery.View, CallMade;
      CallMakes(View(), c);
      Parts();
      match c
      case Own(s) =>
        Do(s);
      case WithGroups(steps) =>
        var q := Builder.Configured(steps);
        SetGroups(q);
      case WithProxy(steps) =>
        var q := Builder.Configured(steps);
        SetProxy(q);
      case WithOwner(steps) =>
        var q := Builder.Configured(steps);
        SetOwner(q);
      case WithUsageLogs(steps) =>
        var q := Builder.Configured(steps);
        SetUsageLogs(q);
      case WithAccountGroups(calls) =>
        var q := AccountGroupQuery.Configured(calls);
        SetAccountGroups(q);
    }

    /** A new builder, on which the options of a With call make their calls. */
    static method Configured(calls: seq<AccountCall>) returns (q: AccountQuery)
      ensures q.Valid() && fresh(q.Repr) && q.View() == CalledAll(EMPTY_ACCOUNT, calls)
      decreases calls, 1
    {
      var b := new Builder<Column>();
      q := new AccountQuery(b, null, null, null, null, null);
      for i := 0 to |calls|
        invariant q.Valid() && fresh(q.Repr) && q.View() == CalledAll(EMPTY_ACCOUNT, calls[..i])
      {
        assert calls[..i + 1][..i] == calls[..i];
        q.Apply(calls[i]);
      }
      assert calls[..|calls|] == calls;
    }

    method CloneEdges()
      returns (
        groups: Builder?<string>, proxy: Builder?<string>, owner: Builder?<string>, usageLogs: Builder?<LogColumn>)
      requires Valid()
      ensures fresh(FourObjects(groups, proxy, owner, usageLogs)) && Apart(groups, proxy, owner, usageLogs)
      ensures EdgeView(groups) == PlainEdge(View().groups) && EdgeView(proxy) == PlainEdge(View().proxy)
      ensures EdgeView(owner) == PlainEdge(View().owner) && EdgeView(usageLogs) == PlainEdge(View().usageLogs)
    {
      hide PlainEdge, EdgeView, Valid, View, AccountGroupQuery.Valid, AccountGroupQuery.View;
      Parts();
      ghost var v := View();
      groups, proxy := CloneTwo(withGroups, withProxy);
      owner, usageLogs := CloneTwo(withOwner, withUsageLogs);
      assert View() == v;
    }

    /** Clones of everything below this builder. */
    method CloneParts()
      returns (
        base': Builder<Column>, groups: Builder?<string>, proxy: Builder?<string>, owner: Builder?<string>,
        usageLogs: Builder?<LogColumn>, links: AccountGroupQuery?)
      requires Valid()
      ensures fresh(base'.Objects()) && fresh(FourObjects(groups, proxy, owner, usageLogs))
      ensures base'.Objects() !! FourObjects(groups, proxy, owner, usageLogs) && Apart(groups, proxy, owner, usageLogs)
      ensures links != null ==> links.Valid() && fresh(links.Repr)
      ensures links != null ==>
        links.Repr !! base'.Objects() && links.Repr !! FourObjects(groups, proxy, owner, usageLogs)
      ensures Plain(View()) == AccountView(
        base'.View(), EdgeView(groups), EdgeView(proxy), EdgeView(owner), EdgeView(usageLogs),
        if links == null then None else Some(links.View()))
      decreases Repr, 0
    {
      hide PlainBase, EdgeView, PlainEdge, Valid, View, AccountGroupQuery.Valid, AccountGroupQuery.View;
      Parts();
      hide Edges;
      ghost var v := View();
      links := null;
      if withAccountGroups != null {
        links := withAccountGroups.Clone();
      }
      base' := base.Clone();
      groups, proxy, owner, usageLogs := CloneEdges();
      assert View() == v;
    }

    /**
     A clone is a new tree of builders: no builder and no context of it existed before, and
     it is the same query at every level, but for the modifiers.
     */
    method Clone() returns (q: AccountQuery)
      requires Valid()
      ensures q.Valid() && fresh(q.Repr) && q.View() == Plain(View())
      decreases Repr, 1
    {
      hide Plain, Valid, View, EdgeView, AccountGroupQuery.Valid, AccountGroupQuery.View, Edges;
      ghost var v := View();
      var b, groups, proxy, owner, usageLogs, links := CloneParts();
      q := new AccountQuery(b, groups, proxy, owner, usageLogs, links);
      assert View() == v;
    }
  }

  ghost function LinkObjects(links: AccountGroupQuery?): set<object>
    reads links
  {
    if links == null then {} else links.Repr
  }

  ghost function AccountObjects(account: AccountQuery?): set<object>
    reads account
  {
    if account == null then {} else account.Repr
  }

  class AccountGroupQuery {
    const base: Builder<LinkColumn>
    var withAccount: AccountQuery?
    var withGroup: Builder?<string>
    ghost var Repr: set<object>

    constructor (base: Builder<LinkColumn>, account: AccountQuery?, group: Builder?<string>)
      requires base.Objects() !! EdgeObjects(group)
      requires account != null ==>
        account.Valid() && account.Repr !! base.Objects() && account.Repr !! EdgeObjects(group)
      ensures Valid() && fresh(Repr - base.Objects() - EdgeObjects(group) - AccountObjects(account))
      ensures View() == LinkView(base.View(), if account == null then None else Some(account.View()), EdgeView(group))
    {
      this.base := base;
      withAccount, withGroup := account, group;
      new;
      Repr := {this, base, base.ctx} + EdgeObjects(group) + AccountObjects(account);
    }

    ghost predicate Valid()
      reads this, Repr
      decreases Repr, 0
    {
      && this in Repr && base in Repr && base.ctx in Repr && EdgeObjects(withGroup) <= Repr
      && {this, base, base.ctx} !! EdgeObjects(withGroup)
      && (withAccount != null ==>
            && withAccount in Repr && withAccount.Repr <= Repr - {this, base, base.ctx} - EdgeObjects(withGroup)
            && withAccount.Valid())
    }

    ghost function View(): LinkView
      requires Valid()
      reads this, Repr
      decreases Repr, 0
    {
      LinkView(base.View(), if withAccount == null then None else Some(withAccount.View()), EdgeView(withGroup))
    }

    lemma Parts()
      requires Valid()
      ensures View() == LinkView(
        base.View(), if withAccount == null then None else Some(withAccount.View()), EdgeView(withGroup))
      ensures this in Repr && base in Repr && base.ctx in Repr && EdgeObjects(withGroup) <= Repr
      ensures withAccount != null ==> withAccount.Valid() && withAccount.Repr < Repr
    {
    }

    method Do(s: Step<LinkColumn>)
      requires Valid()
      modifies base, base.ctx
      ensures Valid() && Repr == old(Repr) && View() == old(View()).(base := Stepped(old(View()).base, s))
    {
      hide Stepped, AccountQuery.Valid, AccountQuery.View;
      base.Apply(s);
    }

    method SetAccount(q: AccountQuery)
      requires Valid() && q.Valid() && q.Repr !! Repr
      modifies this
      ensures Valid() && Repr == old(Repr) + q.Repr && View() == old(View()).(account := Some(q.View()))
    {
      hide AccountQuery.Valid, AccountQuery.View;
      q.Parts();
      withAccount, Repr := q, Repr + q.Repr;
    }

    method SetGroup(q: Builder<string>)
      requires Valid() && q.Objects() !! Repr
      modifies this
      ensures Valid() && Repr == old(Repr) + q.Objects() && View() == old(View()).(group := Some(q.View()))
    {
      hide AccountQuery.Valid, AccountQuery.View;
      withGroup, Repr := q, Repr + q.Objects();
    }

    method StepGroup(s: Step<string>)
      requires Valid() && withGroup != null
      modifies withGroup, withGroup.ctx
      ensures Valid() && Repr == old(Repr)
      ensures View() == old(View()).(group := Some(Stepped(old(View()).group.value, s)))
    {
      hide Stepped, AccountQuery.Valid, AccountQuery.View;
      withGroup.Apply(s);
    }

    /** A change of the account query below, and of nothing else here. */
    twostate lemma AccountChanged()
      requires old(Valid()) && withAccount != null && unchanged(this)
      requires unchanged(old(Repr) - old(withAccount.Repr))
      requires withAccount.Valid() && withAccount.Repr == old(withAccount.Repr)
      ensures Valid() && View() == old(View()).(account := Some(withAccount.View()))
    {
      hide AccountQuery.Valid, AccountQuery.View;
    }

    method Apply(c: LinkCall)
      requires Valid()
      modifies Repr
      ensures Valid() && fresh(Repr - old(Repr)) && View() == LinkCalled(old(View()), c)
      ensures LinkCallMade(old(View()), c, View())
      decreases c, 0
    {
      hide Stepped, Valid, View, EdgeObjects, EdgeView, AccountQuery.Valid, AccountQuery.View, LinkCallMade;
      LinkCallMakes(View(), c);
      Parts();
      match c
      case OwnLink(s) =>
        Do(s);
      case WithAccount(calls) =>
        var q := AccountQuery.Configured(calls);
        SetAccount(q);
      case WithGroup(steps) =>
        var q := Builder.Configured(steps);
        SetGroup(q);
    }

    static method Configured(calls: seq<LinkCall>) returns (q: AccountGroupQuery)
      ensures q.Valid() && fresh(q.Repr) && q.View() == LinkCalledAll(EMPTY_LINK, calls)
      decreases calls, 1
    {
      var b := new Builder<LinkColumn>();
      q := new AccountGroupQuery(b, null, null);
      for i := 0 to |calls|
        invariant q.Valid() && fresh(q.Repr) && q.View() == LinkCalledAll(EMPTY_LINK, calls[..i])
      {
        assert calls[..i + 1][..i] == calls[..i];
        q.Apply(calls[i]);
      }
      assert calls[..|calls|] == calls;
    }

    method Clone() returns (q: AccountGroupQuery)
      requires Valid()
      ensures q.Valid() && fresh(q.Repr) && q.View() == PlainLink(View())
      decreases Repr, 1
    {
      hide PlainBase, EdgeView, PlainEdge, Valid, View, AccountQuery.Valid, AccountQuery.View;
      Parts();
      ghost var v := View();
      var b := base.Clone();
      var group := CloneEdge(withGroup);
      var account: AccountQuery? := null;
      if withAccount != null {
        account := withAccount.Clone();
      }
      assert EdgeView(group) == PlainEdge(v.group);
      q := new AccountGroupQuery(b, account, group);
      assert View() == v;
    }
  }
}
