/**
 createSpec of backend/ent/account_create.go as it runs: field by field, into a spec and an
 entity at once. Module RowCodec says what the two should hold.
 */
module CreateSpec {
  import opened Common
  import opened RowCodec

  /**
   An edge of the spec, and the ids of its targets: through the join table, by a foreign key,
   or by the logs' own key.
   */
  datatype Edge =
    | ToGroups(ids: seq<int>, fields: seq<(string, FieldSpec)>)
    | ByKey(column: Column, ids: seq<int>)
    | FromUsageLogs(ids: seq<int>)

  /** The defaults of an account_groups row: its priority, and the time of its creation. */
  datatype LinkDefaults = LinkDefaults(priority: int, createdAt: int)

  class Spec {
    var fields: seq<(Column, FieldSpec)>
    var edges: seq<Edge>

    constructor ()
      ensures fields == [] && edges == []
    {
      fields, edges := [], [];
    }

    method SetField(c: Column, typ: FieldType, value: GoValue)
      modifies this`fields
      ensures fields == old(fields) + [(c, FieldSpec(typ, value))]
    {
      fields := fields + [(c, FieldSpec(typ, value))];
    }
  }

  const SPEC_FIELDS := 30

  /** The place of a column among those that createSpec sets with SetField. */
  function Rank(c: Column): nat {
    match c
    case CreatedAt => 0
    case UpdatedAt => 1
    case DeletedAt => 2
    case Name => 3
    case Notes => 4
    case Platform => 5
    case Type => 6
    case Credentials => 7
    case Extra => 8
    case ShareMode => 9
    case ShareStatus => 10
    case SharePolicyID => 11
    case Concurrency => 12
    case LoadFactor => 13
    case Priority => 14
    case RateMultiplier => 15
    case Status => 16
    case ErrorMessage => 17
    case LastUsedAt => 18
    case ExpiresAt => 19
    case AutoPauseOnExpired => 20
    case Schedulable => 21
    case RateLimitedAt => 22
    case RateLimitResetAt => 23
    case OverloadUntil => 24
    case TempUnschedulableUntil => 25
    case TempUnschedulableReason => 26
    case SessionWindowStart => 27
    case SessionWindowEnd => 28
    case SessionWindowStatus => 29
    case _ => SPEC_FIELDS
  }

  /** Of the first k columns, the spec sets exactly those that the mutation sets, in order and to their values. */
  ghost predicate Covers(m: Mutation, fields: seq<(Column, FieldSpec)>, k: nat) {
    && (forall i :: 0 <= i < |fields| ==> Rank(fields[i].0) < k && SpecField(m, fields[i].0) == Some(fields[i].1))
    && (forall c :: Rank(c) < k && SpecField(m, c).Some? ==> exists i :: 0 <= i < |fields| && fields[i].0 == c)
    && (forall i, j :: 0 <= i < j < |fields| ==> Rank(fields[i].0) < Rank(fields[j].0))
  }

  lemma SameRank(c: Column)
    requires Rank(c) < SPEC_FIELDS
    ensures forall d :: Rank(d) == Rank(c) ==> d == c
  {
  }

  /** The fields of the spec after the branch for one column. */
  function Next(m: Mutation, fields: seq<(Column, FieldSpec)>, c: Column): seq<(Column, FieldSpec)> {
    if SpecField(m, c).Some? then fields + [(c, SpecField(m, c).value)] else fields
  }

  lemma CoversNext(m: Mutation, fields: seq<(Column, FieldSpec)>, k: nat, c: Column)
    requires Covers(m, fields, k) && Rank(c) == k < SPEC_FIELDS
    ensures Covers(m, Next(m, fields, c), k + 1)
  {
    hide SpecField, Rank, SPEC_FIELDS;
    SameRank(c);
    var fields' := Next(m, fields, c);
    forall d | Rank(d) < k + 1 && SpecField(m, d).Some? ensures exists i :: 0 <= i < |fields'| && fields'[i].0 == d {
      if d == c {
        assert fields'[|fields|].0 == d;
      } else {
        var i :| 0 <= i < |fields| && fields[i].0 == d;
        assert fields'[i].0 == d;
      }
    }
  }

  function Next3(m: Mutation, fields: seq<(Column, FieldSpec)>, c1: Column, c2: Column, c3: Column)
    : seq<(Column, FieldSpec)>
  {
    Next(m, Next(m, Next(m, fields, c1), c2), c3)
  }

  lemma CoversNext3(m: Mutation, fields: seq<(Column, FieldSpec)>, k: nat, c1: Column, c2: Column, c3: Column)
    requires Covers(m, fields, k) && Rank(c1) == k && Rank(c2) == k + 1 && Rank(c3) == k + 2 < SPEC_FIELDS
    ensures Covers(m, Next3(m, fields, c1, c2, c3), k + 3)
  {
    hide Covers, Next, Rank;
    var f1 := Next(m, fields, c1);
    CoversNext(m, fields, k, c1);
    CoversNext(m, f1, k + 1, c2);
    CoversNext(m, Next(m, f1, c2), k + 2, c3);
  }

  /** A pointer field: set when the mutation has a value, and otherwise left as it was. */
  function Kept<T>(o: Option<T>, before: Option<T>): Option<T> {
    if o.Some? then o else before
  }

  method SetTimes(m: Mutation, spec: Spec, node: AccountRecord) returns (node': AccountRecord)
    requires Covers(m, spec.fields, 0)
    modifies spec`fields
    ensures Covers(m, spec.fields, 3)
    ensures node' == node.(
          createdAt := Or(m.createdAt, node.createdAt),
          updatedAt := Or(m.updatedAt, node.updatedAt),
          deletedAt := Kept(m.deletedAt, node.deletedAt))
  {
    hide Covers;
    CoversNext3(m, spec.fields, 0, CreatedAt, UpdatedAt, DeletedAt);
    node' := node;
    if m.createdAt.Some? {
      spec.SetField(CreatedAt, TypeTime, TimeValue(m.createdAt.value));
      node' := node'.(createdAt := m.createdAt.value);
    }
    if m.updatedAt.Some? {
      spec.SetField(UpdatedAt, TypeTime, TimeValue(m.updatedAt.value));
      node' := node'.(updatedAt := m.updatedAt.value);
    }
    if m.deletedAt.Some? {
      spec.SetField(DeletedAt, TypeTime, TimeValue(m.deletedAt.value));
      node' := node'.(deletedAt := Some(m.deletedAt.value));
    }
  }

  method SetNames(m: Mutation, spec: Spec, node: AccountRecord) returns (node': AccountRecord)
    requires Covers(m, spec.fields, 3)
    modifies spec`fields
    ensures Covers(m, spec.fields, 6)
    ensures node' == node.(
          name := Or(m.name, node.name),
          notes := Kept(m.notes, node.notes),
          platform := Or(m.platform, node.platform))
  {
    hide Covers;
    CoversNext3(m, spec.fields, 3, Name, Notes, Platform);
    node' := node;
    if m.name.Some? {
      spec.SetField(Name, TypeString, StringValue(m.name.value));
      node' := node'.(name := m.name.value);
    }
    if m.notes.Some? {
      spec.SetField(Notes, TypeString, StringValue(m.notes.value));
      node' := node'.(notes := Some(m.notes.value));
    }
    if m.platform.Some? {
      spec.SetField(Platform, TypeString, StringValue(m.platform.value));
      node' := node'.(platform := m.platform.value);
    }
  }

  method SetKind(m: Mutation, spec: Spec, node: AccountRecord) returns (node': AccountRecord)
    requires Covers(m, spec.fields, 6)
    modifies spec`fields
    ensures Covers(m, spec.fields, 9)
    ensures node' == node.(
          typ := Or(m.typ, node.typ),
          credentials := Or(m.credentials, node.credentials),
          extra := Or(m.extra, node.extra))
  {
    hide Covers;
    CoversNext3(m, spec.fields, 6, Type, Credentials, Extra);
    node' := node;
    if m.typ.Some? {
      spec.SetField(Type, TypeString, StringValue(m.typ.value));
      node' := node'.(typ := m.typ.value);
    }
    if m.credentials.Some? {
      spec.SetField(Credentials, TypeJSON, JsonValue(m.credentials.value));
      node' := node'.(credentials := m.credentials.value);
    }
    if m.extra.Some? {
      spec.SetField(Extra, TypeJSON, JsonValue(m.extra.value));
      node' := node'.(extra := m.extra.value);
    }
  }

  method SetSharing(m: Mutation, spec: Spec, node: AccountRecord) returns (node': AccountRecord)
    requires Covers(m, spec.fields, 9)
    modifies spec`fields
    ensures Covers(m, spec.fields, 12)
    ensures node' == node.(
          shareMode := Or(m.shareMode, node.shareMode),
          shareStatus := Or(m.shareStatus, node.shareStatus),
          sharePolicyID := Kept(m.sharePolicyID, node.sharePolicyID))
  {
    hide Covers;
    CoversNext3(m, spec.fields, 9, ShareMode, ShareStatus, SharePolicyID);
    node' := node;
    if m.shareMode.Some? {
      spec.SetField(ShareMode, TypeString, StringValue(m.shareMode.value));
      node' := node'.(shareMode := m.shareMode.value);
    }
    if m.shareStatus.Some? {
      spec.SetField(ShareStatus, TypeString, StringValue(m.shareStatus.value));
      node' := node'.(shareStatus := m.shareStatus.value);
    }
    if m.sharePolicyID.Some? {
      spec.SetField(SharePolicyID, TypeInt64, IntValue(m.sharePolicyID.value));
      node' := node'.(sharePolicyID := Some(m.sharePolicyID.value));
    }
  }

  method SetLimits(m: Mutation, spec: Spec, node: AccountRecord) returns (node': AccountRecord)
    requires Covers(m, spec.fields, 12)
    modifies spec`fields
    ensures Covers(m, spec.fields, 15)
    ensures node' == node.(
          concurrency := Or(m.concurrency, node.concurrency),
          loadFactor := Kept(m.loadFactor, node.loadFactor),
          priority := Or(m.priority, node.priority))
  {
    hide Covers;
    CoversNext3(m, spec.fields, 12, Concurrency, LoadFactor, Priority);
    node' := node;
    if m.concurrency.Some? {
      spec.SetField(Concurrency, TypeInt, IntValue(m.concurrency.value));
      node' := node'.(concurrency := m.concurrency.value);
    }
    if m.loadFactor.Some? {
      spec.SetField(LoadFactor, TypeInt, IntValue(m.loadFactor.value));
      node' := node'.(loadFactor := Some(m.loadFactor.value));
    }
    if m.priority.Some? {
      spec.SetField(Priority, TypeInt, IntValue(m.priority.value));
      node' := node'.(priority := m.priority.value);
    }
  }

  method SetRates(m: Mutation, spec: Spec, node: AccountRecord) returns (node': AccountRecord)
    requires Covers(m, spec.fields, 15)
    modifies spec`fields
    ensures Covers(m, spec.fields, 18)
    ensures node' == node.(
          rateMultiplier := Or(m.rateMultiplier, node.rateMultiplier),
          status := Or(m.status, node.status),
          errorMessage := Kept(m.errorMessage, node.errorMessage))
  {
    hide Covers;
    CoversNext3(m, spec.fields, 15, RateMultiplier, Status, ErrorMessage);
    node' := node;
    if m.rateMultiplier.Some? {
      spec.SetField(RateMultiplier, TypeFloat64, FloatValue(m.rateMultiplier.value));
      node' := node'.(rateMultiplier := m.rateMultiplier.value);
    }
    if m.status.Some? {
      spec.SetField(Status, TypeString, StringValue(m.status.value));
      node' := node'.(status := m.status.value);
    }
    if m.errorMessage.Some? {
      spec.SetField(ErrorMessage, TypeString, StringValue(m.errorMessage.value));
      node' := node'.(errorMessage := Some(m.errorMessage.value));
    }
  }

  method SetUse(m: Mutation, spec: Spec, node: AccountRecord) returns (node': AccountRecord)
    requires Covers(m, spec.fields, 18)
    modifies spec`fields
    ensures Covers(m, spec.fields, 21)
    ensures node' == node.(
          lastUsedAt := Kept(m.lastUsedAt, node.lastUsedAt),
          expiresAt := Kept(m.expiresAt, node.expiresAt),
          autoPauseOnExpired := Or(m.autoPauseOnExpired, node.autoPauseOnExpired))
  {
    hide Covers;
    CoversNext3(m, spec.fields, 18, LastUsedAt, ExpiresAt, AutoPauseOnExpired);
    node' := node;
    if m.lastUsedAt.Some? {
      spec.SetField(LastUsedAt, TypeTime, TimeValue(m.lastUsedAt.value));
      node' := node'.(lastUsedAt := Some(m.lastUsedAt.value));
    }
    if m.expiresAt.Some? {
      spec.SetField(ExpiresAt, TypeTime, TimeValue(m.expiresAt.value));
      node' := node'.(expiresAt := Some(m.expiresAt.value));
    }
    if m.autoPauseOnExpired.Some? {
      spec.SetField(AutoPauseOnExpired, TypeBool, BoolValue(m.autoPauseOnExpired.value));
      node' := node'.(autoPauseOnExpired := m.autoPauseOnExpired.value);
    }
  }

  method SetFlags(m: Mutation, spec: Spec, node: AccountRecord) returns (node': AccountRecord)
    requires Covers(m, spec.fields, 21)
    modifies spec`fields
    ensures Covers(m, spec.fields, 24)
    ensures node' == node.(
          schedulable := Or(m.schedulable, node.schedulable),
          rateLimitedAt := Kept(m.rateLimitedAt, node.rateLimitedAt),
          rateLimitResetAt := Kept(m.rateLimitResetAt, node.rateLimitResetAt))
  {
    hide Covers;
    CoversNext3(m, spec.fields, 21, Schedulable, RateLimitedAt, RateLimitResetAt);
    node' := node;
    if m.schedulable.Some? {
      spec.SetField(Schedulable, TypeBool, BoolValue(m.schedulable.value));
      node' := node'.(schedulable := m.schedulable.value);
    }
    if m.rateLimitedAt.Some? {
      spec.SetField(RateLimitedAt, TypeTime, TimeValue(m.rateLimitedAt.value));
      node' := node'.(rateLimitedAt := Some(m.rateLimitedAt.value));
    }
    if m.rateLimitResetAt.Some? {
      spec.SetField(RateLimitResetAt, TypeTime, TimeValue(m.rateLimitResetAt.value));
      node' := node'.(rateLimitResetAt := Some(m.rateLimitResetAt.value));
    }
  }

  method SetOverload(m: Mutation, spec: Spec, node: AccountRecord) returns (node': AccountRecord)
    requires Covers(m, spec.fields, 24)
    modifies spec`fields
    ensures Covers(m, spec.fields, 27)
    ensures node' == node.(
          overloadUntil := Kept(m.overloadUntil, node.overloadUntil),
          tempUnschedulableUntil := Kept(m.tempUnschedulableUntil, node.tempUnschedulableUntil),
          tempUnschedulableReason := Kept(m.tempUnschedulableReason, node.tempUnschedulableReason))
  {
    hide Covers;
    CoversNext3(m, spec.fields, 24, OverloadUntil, TempUnschedulableUntil, TempUnschedulableReason);
    node' := node;
    if m.overloadUntil.Some? {
      spec.SetField(OverloadUntil, TypeTime, TimeValue(m.overloadUntil.value));
      node' := node'.(overloadUntil := Some(m.overloadUntil.value));
    }
    if m.tempUnschedulableUntil.Some? {
      spec.SetField(TempUnschedulableUntil, TypeTime, TimeValue(m.tempUnschedulableUntil.value));
      node' := node'.(tempUnschedulableUntil := Some(m.tempUnschedulableUntil.value));
    }
    if m.tempUnschedulableReason.Some? {
      spec.SetField(TempUnschedulableReason, TypeString, StringValue(m.tempUnschedulableReason.value));
      node' := node'.(tempUnschedulableReason := Some(m.tempUnschedulableReason.value));
    }
  }

  method SetWindow(m: Mutation, spec: Spec, node: AccountRecord) returns (node': AccountRecord)
    requires Covers(m, spec.fields, 27)
    modifies spec`fields
    ensures Covers(m, spec.fields, 30)
    ensures node' == node.(
          sessionWindowStart := Kept(m.sessionWindowStart, node.sessionWindowStart),
          sessionWindowEnd := Kept(m.sessionWindowEnd, node.sessionWindowEnd),
          sessionWindowStatus := Kept(m.sessionWindowStatus, node.sessionWindowStatus))
  {
    hide Covers;
    CoversNext3(m, spec.fields, 27, SessionWindowStart, SessionWindowEnd, SessionWindowStatus);
    node' := node;
    if m.sessionWindowStart.Some? {
      spec.SetField(SessionWindowStart, TypeTime, TimeValue(m.sessionWindowStart.value));
      node' := node'.(sessionWindowStart := Some(m.sessionWindowStart.value));
    }
    if m.sessionWindowEnd.Some? {
      spec.SetField(SessionWindowEnd, TypeTime, TimeValue(m.sessionWindowEnd.value));
      node' := node'.(sessionWindowEnd := Some(m.sessionWindowEnd.value));
    }
    if m.sessionWindowStatus.Some? {
      spec.SetField(SessionWindowStatus, TypeString, StringValue(m.sessionWindowStatus.value));
      node' := node'.(sessionWindowStatus := Some(m.sessionWindowStatus.value));
    }
  }

  /** The ids are the members of the set, each once. */
  ghost predicate Lists(ids: seq<int>, s: set<int>) {
    NoDuplicates(ids) && forall k :: k in ids <==> k in s
  }

  lemma SomeMember(s: set<int>)
    ensures s == {} || exists k :: k in s
  {
    if forall k :: k !in s {
      assert s == {};
    }
  }

  /** The ids of a mutation's edge, in no particular order: a Go map's. */
  method ListIDs(s: set<int>) returns (ids: seq<int>)
    ensures Lists(ids, s)
  {
    ids := [];
    var rest := s;
    while rest != {}
      invariant rest <= s && Lists(ids, s - rest)
    {
      SomeMember(rest);
      var k :| k in rest;
      ids, rest := ids + [k], rest - {k};
    }
  }

  /** The fields that each new account_groups row gets: those of an empty one with its defaults filled in. */
  function LinkFields(d: LinkDefaults): seq<(string, FieldSpec)> {
    [
      ("priority", FieldSpec(TypeInt, IntValue(d.priority))),
      ("created_at", FieldSpec(TypeTime, TimeValue(d.createdAt)))
    ]
  }

  function GroupEdges(ids: seq<int>, d: LinkDefaults): seq<Edge> {
    if ids == [] then [] else [ToGroups(ids, LinkFields(d))]
  }

  function KeyEdges(m: Mutation): seq<Edge> {
    Map(SpecEdges(m), (e: (Column, seq<int>)) => ByKey(e.0, e.1))
  }

  function UsageLogEdges(ids: seq<int>): seq<Edge> {
    if ids == [] then [] else [FromUsageLogs(ids)]
  }

  ghost predicate EdgesAre(m: Mutation, d: LinkDefaults, edges: seq<Edge>, groups: seq<int>, logs: seq<int>) {
    && Lists(groups, m.groups) && Lists(logs, m.usageLogs)
    && edges == GroupEdges(groups, d) + KeyEdges(m) + UsageLogEdges(logs)
  }

  /** The edges that the mutation sets: groups, proxy, owner, usage logs, with the ids it gives them. */
  ghost predicate AreEdges(m: Mutation, d: LinkDefaults, edges: seq<Edge>) {
    exists groups, logs :: EdgesAre(m, d, edges, groups, logs)
  }

  /** The account_groups rows get the default priority and the default time of creation, and no other field. */
  ghost predicate GivesDefaults(d: LinkDefaults, fields: seq<(string, FieldSpec)>) {
    && |fields| == 2 && fields[0].0 == "priority" && fields[1].0 == "created_at"
    && fields[0].1 == FieldSpec(TypeInt, IntValue(d.priority))
    && fields[1].1 == FieldSpec(TypeTime, TimeValue(d.createdAt))
  }

  lemma ListsNothing(ids: seq<int>, s: set<int>)
    requires Lists(ids, s)
    ensures ids == [] <==> s == {}
  {
    SomeMember(s);
    if ids != [] {
      var k := ids[0];
      assert k in ids && k in s;
    }
  }

  /** The foreign key of the proxy or of the owner that the mutation sets. */
  predicate IsKeyEdge(m: Mutation, e: Edge) {
    || (m.proxy.Some? && e == ByKey(ProxyID, [m.proxy.value]))
    || (m.owner.Some? && e == ByKey(OwnerUserID, [m.owner.value]))
  }

  lemma KeyEdgesAre(m: Mutation, e: Edge)
    ensures e in KeyEdges(m) <==> IsKeyEdge(m, e)
  {
    var proxy := if m.proxy.Some? then [ByKey(ProxyID, [m.proxy.value])] else [];
    var owner := if m.owner.Some? then [ByKey(OwnerUserID, [m.owner.value])] else [];
    assert KeyEdges(m) == proxy + owner;
  }

  lemma EdgeIn(m: Mutation, d: LinkDefaults, edges: seq<Edge>, groups: seq<int>, logs: seq<int>, e: Edge)
    requires EdgesAre(m, d, edges, groups, logs)
    ensures e in edges <==>
      || (groups != [] && e == ToGroups(groups, LinkFields(d))) || IsKeyEdge(m, e)
      || (logs != [] && e == FromUsageLogs(logs))
  {
    hide Lists, IsKeyEdge, KeyEdges, LinkFields;
    KeyEdgesAre(m, e);
  }

  lemma SetsListed(m: Mutation, d: LinkDefaults, edges: seq<Edge>, groups: seq<int>, logs: seq<int>)
    requires EdgesAre(m, d, edges, groups, logs)
    ensures Lists(groups, m.groups) && Lists(logs, m.usageLogs)
    ensures (groups == [] <==> m.groups == {}) && (logs == [] <==> m.usageLogs == {})
  {
    hide Lists;
    ListsNothing(groups, m.groups);
    ListsNothing(logs, m.usageLogs);
  }

  /**
   The spec has an edge to groups exactly when the mutation sets some, to exactly these, whose
   new rows get the defaults; a foreign key for exactly the proxy and the owner that it sets;
   and an edge from usage logs exactly when it sets some, from exactly these.
   */
  lemma EdgesMean(m: Mutation, d: LinkDefaults, edges: seq<Edge>)
    requires AreEdges(m, d, edges)
    ensures m.groups != {} <==> exists e :: e in edges && e.ToGroups?
    ensures m.usageLogs != {} <==> exists e :: e in edges && e.FromUsageLogs?
    ensures forall e :: e in edges && e.ToGroups? ==> Lists(e.ids, m.groups) && GivesDefaults(d, e.fields)
    ensures forall e :: e in edges && e.FromUsageLogs? ==> Lists(e.ids, m.usageLogs)
    ensures forall e: Edge :: e.ByKey? ==> (e in edges <==> IsKeyEdge(m, e))
  {
    hide Lists, EdgesAre;
    var groups, logs :| EdgesAre(m, d, edges, groups, logs);
    SetsListed(m, d, edges, groups, logs);
    forall e
      ensures e in edges <==>
        || (groups != [] && e == ToGroups(groups, LinkFields(d))) || IsKeyEdge(m, e)
        || (logs != [] && e == FromUsageLogs(logs))
    {
      EdgeIn(m, d, edges, groups, logs, e);
    }
    if groups != [] {
      assert ToGroups(groups, LinkFields(d)) in edges;
    }
    if logs != [] {
      assert FromUsageLogs(logs) in edges;
    }
  }

  /** The foreign keys of the many-to-one edges. */
  method SetKeyEdges(m: Mutation, spec: Spec, node: AccountRecord) returns (node': AccountRecord)
    modifies spec`edges
    ensures spec.edges == old(spec.edges) + KeyEdges(m)
    ensures node' == node.(proxyID := Kept(m.proxy, node.proxyID), ownerUserID := Kept(m.owner, node.ownerUserID))
  {
    node' := node;
    if m.proxy.Some? {
      node' := node'.(proxyID := m.proxy);
      spec.edges := spec.edges + [ByKey(ProxyID, [m.proxy.value])];
    }
    if m.owner.Some? {
      node' := node'.(ownerUserID := m.owner);
      spec.edges := spec.edges + [ByKey(OwnerUserID, [m.owner.value])];
    }
  }

  method SetEdges(m: Mutation, d: LinkDefaults, spec: Spec, node: AccountRecord) returns (node': AccountRecord)
    requires spec.edges == []
    modifies spec`edges
    ensures AreEdges(m, d, spec.edges)
    ensures node' == node.(proxyID := Kept(m.proxy, node.proxyID), ownerUserID := Kept(m.owner, node.ownerUserID))
  {
    hide KeyEdges, Lists;
    var groups := ListIDs(m.groups);
    if |groups| > 0 {
      spec.edges := spec.edges + [ToGroups(groups, LinkFields(d))];
    }
    node' := SetKeyEdges(m, spec, node);
    var logs := ListIDs(m.usageLogs);
    if |logs| > 0 {
      spec.edges := spec.edges + [FromUsageLogs(logs)];
    }
    assert EdgesAre(m, d, spec.edges, groups, logs);
  }

  lemma OnlySpecColumns(m: Mutation, c: Column)
    ensures SpecField(m, c).Some? ==> Rank(c) < SPEC_FIELDS
  {
  }

  /**
   The spec is that of the mutation: the columns the mutation sets, each once and to its value,
   in the order of the source, and its edges.
   */
  ghost predicate IsSpecOf(m: Mutation, d: LinkDefaults, spec: Spec)
    reads spec
  {
    && (forall i :: 0 <= i < |spec.fields| ==> SpecField(m, spec.fields[i].0) == Some(spec.fields[i].1))
    && (forall c :: SpecField(m, c).Some? ==> exists i :: 0 <= i < |spec.fields| && spec.fields[i].0 == c)
    && (forall i, j :: 0 <= i < j < |spec.fields| ==> Rank(spec.fields[i].0) < Rank(spec.fields[j].0))
    && AreEdges(m, d, spec.edges)
  }

  lemma CoversAll(m: Mutation, d: LinkDefaults, spec: Spec)
    requires Covers(m, spec.fields, SPEC_FIELDS) && AreEdges(m, d, spec.edges)
    ensures IsSpecOf(m, d, spec)
  {
    hide SpecField, AreEdges, Rank;
    forall c | SpecField(m, c).Some? ensures exists i :: 0 <= i < |spec.fields| && spec.fields[i].0 == c {
      OnlySpecColumns(m, c);
    }
  }

  method SetFirstHalf(m: Mutation, spec: Spec, node: AccountRecord) returns (node': AccountRecord)
    requires Covers(m, spec.fields, 0)
    modifies spec`fields
    ensures Covers(m, spec.fields, 15)
    ensures node' == node.(
          createdAt := Or(m.createdAt, node.createdAt), updatedAt := Or(m.updatedAt, node.updatedAt),
          deletedAt := Kept(m.deletedAt, node.deletedAt), name := Or(m.name, node.name),
          notes := Kept(m.notes, node.notes), platform := Or(m.platform, node.platform),
          typ := Or(m.typ, node.typ), credentials := Or(m.credentials, node.credentials),
          extra := Or(m.extra, node.extra), shareMode := Or(m.shareMode, node.shareMode),
          shareStatus := Or(m.shareStatus, node.shareStatus),
          sharePolicyID := Kept(m.sharePolicyID, node.sharePolicyID),
          concurrency := Or(m.concurrency, node.concurrency), loadFactor := Kept(m.loadFactor, node.loadFactor),
          priority := Or(m.priority, node.priority))
  {
    hide *;
    node' := node;
    node' := SetTimes(m, spec, node');
    node' := SetNames(m, spec, node');
    node' := SetKind(m, spec, node');
    node' := SetSharing(m, spec, node');
    node' := SetLimits(m, spec, node');
  }

  method SetSecondHalf(m: Mutation, spec: Spec, node: AccountRecord) returns (node': AccountRecord)
    requires Covers(m, spec.fields, 15)
    modifies spec`fields
    ensures Covers(m, spec.fields, 30)
    ensures node' == node.(
          rateMultiplier := Or(m.rateMultiplier, node.rateMultiplier), status := Or(m.status, node.status),
          errorMessage := Kept(m.errorMessage, node.errorMessage), lastUsedAt := Kept(m.lastUsedAt, node.lastUsedAt),
          expiresAt := Kept(m.expiresAt, node.expiresAt),
          autoPauseOnExpired := Or(m.autoPauseOnExpired, node.autoPauseOnExpired),
          schedulable := Or(m.schedulable, node.schedulable),
          rateLimitedAt := Kept(m.rateLimitedAt, node.rateLimitedAt),
          rateLimitResetAt := Kept(m.rateLimitResetAt, node.rateLimitResetAt),
          overloadUntil := Kept(m.overloadUntil, node.overloadUntil),
          tempUnschedulableUntil := Kept(m.tempUnschedulableUntil, node.tempUnschedulableUntil),
          tempUnschedulableReason := Kept(m.tempUnschedulableReason, node.tempUnschedulableReason),
          sessionWindowStart := Kept(m.sessionWindowStart, node.sessionWindowStart),
          sessionWindowEnd := Kept(m.sessionWindowEnd, node.sessionWindowEnd),
          sessionWindowStatus := Kept(m.sessionWindowStatus, node.sessionWindowStatus))
  {
    hide *;
    node' := node;
    node' := SetRates(m, spec, node');
    node' := SetUse(m, spec, node');
    node' := SetFlags(m, spec, node');
    node' := SetOverload(m, spec, node');
    node' := SetWindow(m, spec, node');
  }

  lemma NothingCovered(m: Mutation)
    ensures Covers(m, [], 0)
  {
  }

  /** createSpec: the entity and the spec, side by side. */
  method CreateSpecOf(m: Mutation, d: LinkDefaults) returns (node: AccountRecord, spec: Spec)
    ensures fresh(spec) && node == CreateNode(m) && IsSpecOf(m, d, spec)
  {
    spec := new Spec();
    NothingCovered(m);
    node := ZERO_RECORD;
    hide Covers, IsSpecOf, AreEdges;
    node := SetFirstHalf(m, spec, node);
    node := SetSecondHalf(m, spec, node);
    node := SetEdges(m, d, spec, node);
    CoversAll(m, d, spec);
  }
}
