/**
 An account that has been created and is then read back: createSpec of
 backend/ent/account_create.go, and sqlAll of backend/ent/account_query.go with no fields
 selected.
 */
module CreateRead {
  import opened RowCodec
  import opened Projection
  import opened Entities
  import opened AccountLoading

  // ---------- the fields determine the entity ----------

  ghost predicate SameFields(a: AccountRecord, b: AccountRecord) {
    forall c :: Field(a, c) == Field(b, c)
  }

  predicate FirstAt(a: AccountRecord, b: AccountRecord, c: Column) {
    match c
    case ID => a.id == b.id
    case CreatedAt => a.createdAt == b.createdAt
    case UpdatedAt => a.updatedAt == b.updatedAt
    case DeletedAt => a.deletedAt == b.deletedAt
    case Name => a.name == b.name
    case Notes => a.notes == b.notes
    case Platform => a.platform == b.platform
    case Type => a.typ == b.typ
    case _ => true
  }

  predicate SecondAt(a: AccountRecord, b: AccountRecord, c: Column) {
    match c
    case Credentials => a.credentials == b.credentials
    case Extra => a.extra == b.extra
    case OwnerUserID => a.ownerUserID == b.ownerUserID
    case ShareMode => a.shareMode == b.shareMode
    case ShareStatus => a.shareStatus == b.shareStatus
    case SharePolicyID => a.sharePolicyID == b.sharePolicyID
    case ProxyID => a.proxyID == b.proxyID
    case Concurrency => a.concurrency == b.concurrency
    case LoadFactor => a.loadFactor == b.loadFactor
    case _ => true
  }

  predicate ThirdAt(a: AccountRecord, b: AccountRecord, c: Column) {
    match c
    case Priority => a.priority == b.priority
    case RateMultiplier => a.rateMultiplier == b.rateMultiplier
    case Status => a.status == b.status
    case ErrorMessage => a.errorMessage == b.errorMessage
    case LastUsedAt => a.lastUsedAt == b.lastUsedAt
    case ExpiresAt => a.expiresAt == b.expiresAt
    case AutoPauseOnExpired => a.autoPauseOnExpired == b.autoPauseOnExpired
    case Schedulable => a.schedulable == b.schedulable
    case _ => true
  }

  predicate FinalAt(a: AccountRecord, b: AccountRecord, c: Column) {
    match c
    case RateLimitedAt => a.rateLimitedAt == b.rateLimitedAt
    case RateLimitResetAt => a.rateLimitResetAt == b.rateLimitResetAt
    case OverloadUntil => a.overloadUntil == b.overloadUntil
    case TempUnschedulableUntil => a.tempUnschedulableUntil == b.tempUnschedulableUntil
    case TempUnschedulableReason => a.tempUnschedulableReason == b.tempUnschedulableReason
    case SessionWindowStart => a.sessionWindowStart == b.sessionWindowStart
    case SessionWindowEnd => a.sessionWindowEnd == b.sessionWindowEnd
    case SessionWindowStatus => a.sessionWindowStatus == b.sessionWindowStatus
    case _ => true
  }

  /** The two agree on one column. */
  lemma FieldIsSame(a: AccountRecord, b: AccountRecord, c: Column)
    requires Field(a, c) == Field(b, c)
    ensures FirstAt(a, b, c) && SecondAt(a, b, c) && ThirdAt(a, b, c) && FinalAt(a, b, c)
  {
    match c {
      case ID => case CreatedAt => case UpdatedAt => case DeletedAt => case Name => case Notes =>
      case Platform => case Type => case Credentials => case Extra => case OwnerUserID => case ShareMode =>
      case ShareStatus => case SharePolicyID => case ProxyID => case Concurrency => case LoadFactor =>
      case Priority => case RateMultiplier => case Status => case ErrorMessage => case LastUsedAt =>
      case ExpiresAt => case AutoPauseOnExpired => case Schedulable => case RateLimitedAt =>
      case RateLimitResetAt => case OverloadUntil => case TempUnschedulableUntil =>
      case TempUnschedulableReason => case SessionWindowStart => case SessionWindowEnd =>
      case SessionWindowStatus => case Other(_) =>
    }
  }

  lemma FirstFields(a: AccountRecord, b: AccountRecord)
    requires forall c :: FirstAt(a, b, c)
    ensures a.id == b.id && a.createdAt == b.createdAt && a.updatedAt == b.updatedAt
    ensures a.deletedAt == b.deletedAt && a.name == b.name && a.notes == b.notes && a.platform == b.platform
    ensures a.typ == b.typ
  {
    assert FirstAt(a, b, ID) && FirstAt(a, b, CreatedAt) && FirstAt(a, b, UpdatedAt);
    assert FirstAt(a, b, DeletedAt) && FirstAt(a, b, Name) && FirstAt(a, b, Notes) && FirstAt(a, b, Platform);
    assert FirstAt(a, b, Type);
  }

  lemma SecondFields(a: AccountRecord, b: AccountRecord)
    requires forall c :: SecondAt(a, b, c)
    ensures a.credentials == b.credentials && a.extra == b.extra && a.ownerUserID == b.ownerUserID
    ensures a.shareMode == b.shareMode && a.shareStatus == b.shareStatus && a.sharePolicyID == b.sharePolicyID
    ensures a.proxyID == b.proxyID && a.concurrency == b.concurrency && a.loadFactor == b.loadFactor
  {
    assert SecondAt(a, b, Credentials) && SecondAt(a, b, Extra) && SecondAt(a, b, OwnerUserID);
    assert SecondAt(a, b, ShareMode) && SecondAt(a, b, ShareStatus) && SecondAt(a, b, SharePolicyID);
    assert SecondAt(a, b, ProxyID) && SecondAt(a, b, Concurrency) && SecondAt(a, b, LoadFactor);
  }

  lemma ThirdFields(a: AccountRecord, b: AccountRecord)
    requires forall c :: ThirdAt(a, b, c)
    ensures a.priority == b.priority && a.rateMultiplier == b.rateMultiplier && a.status == b.status
    ensures a.errorMessage == b.errorMessage && a.lastUsedAt == b.lastUsedAt && a.expiresAt == b.expiresAt
    ensures a.autoPauseOnExpired == b.autoPauseOnExpired && a.schedulable == b.schedulable
  {
    assert ThirdAt(a, b, Priority) && ThirdAt(a, b, RateMultiplier) && ThirdAt(a, b, Status);
    assert ThirdAt(a, b, ErrorMessage) && ThirdAt(a, b, LastUsedAt) && ThirdAt(a, b, ExpiresAt);
    assert ThirdAt(a, b, AutoPauseOnExpired) && ThirdAt(a, b, Schedulable);
  }

  lemma FinalFields(a: AccountRecord, b: AccountRecord)
    requires forall c :: FinalAt(a, b, c)
    ensures a.rateLimitedAt == b.rateLimitedAt && a.rateLimitResetAt == b.rateLimitResetAt
    ensures a.overloadUntil == b.overloadUntil && a.tempUnschedulableUntil == b.tempUnschedulableUntil
    ensures a.tempUnschedulableReason == b.tempUnschedulableReason
    ensures a.sessionWindowStart == b.sessionWindowStart && a.sessionWindowEnd == b.sessionWindowEnd
    ensures a.sessionWindowStatus == b.sessionWindowStatus
  {
    assert FinalAt(a, b, RateLimitedAt) && FinalAt(a, b, RateLimitResetAt) && FinalAt(a, b, OverloadUntil);
    assert FinalAt(a, b, TempUnschedulableUntil) && FinalAt(a, b, TempUnschedulableReason);
    assert FinalAt(a, b, SessionWindowStart) && FinalAt(a, b, SessionWindowEnd);
    assert FinalAt(a, b, SessionWindowStatus);
  }

  lemma FieldsDetermine(a: AccountRecord, b: AccountRecord)
    requires SameFields(a, b)
    ensures a == b
  {
    hide Field, FirstAt, SecondAt, ThirdAt, FinalAt;
    forall c ensures FirstAt(a, b, c) && SecondAt(a, b, c) && ThirdAt(a, b, c) && FinalAt(a, b, c) {
      FieldIsSame(a, b, c);
    }
    FirstFields(a, b);
    SecondFields(a, b);
    ThirdFields(a, b);
    FinalFields(a, b);
  }

  // ---------- reading it back ----------

  /** A query that selects no fields scans every field of an account. */
  lemma EveryFieldScanned(plan: AccountPlan, c: Column)
    requires plan.fields == [] && !c.Other?
    ensures c in SelectedColumns(plan)
  {
    hide AllColumns;
    AllAreListed();
  }

  lemma OthersAreNil(r: AccountRecord, c: Column)
    requires c.Other?
    ensures Field(r, c) == NilPointer
  {
  }

  /** The row of a created account can be read, whatever is selected. */
  lemma CreatedIsReadable(plan: AccountPlan, m: Mutation, id: int, json: JsonCodec)
    requires RoundTrips(json)
    ensures ReadableRow(plan, InsertedRow(m, id, json), json)
  {
    hide AccountColumns, InsertedRow, AssignAll, Scannable;
    RoundTrip(m, id, SelectedColumns(plan), json);
  }

  /** With no fields selected, it decodes to the node that createSpec returned, under its id. */
  lemma CreatedDecodes(plan: AccountPlan, m: Mutation, id: int, json: JsonCodec)
    requires RoundTrips(json) && plan.fields == []
    ensures Scannable(SelectedColumns(plan), InsertedRow(m, id, json))
    ensures DecodeRow(SelectedColumns(plan), InsertedRow(m, id, json), json) == Done(CreateNode(m).(id := id))
  {
    hide SelectedColumns, InsertedRow, AssignAll, Field, CreateNode, DecodeRow;
    var columns := SelectedColumns(plan);
    RoundTrip(m, id, columns, json);
    var r := DecodeRow(columns, InsertedRow(m, id, json), json).value;
    var node := CreateNode(m).(id := id);
    forall c ensures Field(r, c) == Field(node, c) {
      if c.Other? {
        OthersAreNil(r, c);
        OthersAreNil(node, c);
      } else {
        EveryFieldScanned(plan, c);
      }
    }
    FieldsDetermine(r, node);
  }

  /** What the mutation sets, the entity has; a pointer field is nil exactly when it is not set. */
  ghost predicate Carries(m: Mutation, r: AccountRecord) {
    && (m.createdAt.Some? ==> r.createdAt == m.createdAt.value)
    && (m.updatedAt.Some? ==> r.updatedAt == m.updatedAt.value) && r.deletedAt == m.deletedAt
    && (m.name.Some? ==> r.name == m.name.value) && r.notes == m.notes
    && (m.platform.Some? ==> r.platform == m.platform.value) && (m.typ.Some? ==> r.typ == m.typ.value)
    && (m.credentials.Some? ==> r.credentials == m.credentials.value)
    && (m.extra.Some? ==> r.extra == m.extra.value) && r.ownerUserID == m.owner
    && (m.shareMode.Some? ==> r.shareMode == m.shareMode.value)
    && (m.shareStatus.Some? ==> r.shareStatus == m.shareStatus.value) && r.sharePolicyID == m.sharePolicyID
    && r.proxyID == m.proxy && (m.concurrency.Some? ==> r.concurrency == m.concurrency.value)
    && r.loadFactor == m.loadFactor && (m.priority.Some? ==> r.priority == m.priority.value)
    && (m.rateMultiplier.Some? ==> r.rateMultiplier == m.rateMultiplier.value)
    && (m.status.Some? ==> r.status == m.status.value) && r.errorMessage == m.errorMessage
    && r.lastUsedAt == m.lastUsedAt && r.expiresAt == m.expiresAt
    && (m.autoPauseOnExpired.Some? ==> r.autoPauseOnExpired == m.autoPauseOnExpired.value)
    && (m.schedulable.Some? ==> r.schedulable == m.schedulable.value) && r.rateLimitedAt == m.rateLimitedAt
    && r.rateLimitResetAt == m.rateLimitResetAt && r.overloadUntil == m.overloadUntil
    && r.tempUnschedulableUntil == m.tempUnschedulableUntil
    && r.tempUnschedulableReason == m.tempUnschedulableReason && r.sessionWindowStart == m.sessionWindowStart
    && r.sessionWindowEnd == m.sessionWindowEnd && r.sessionWindowStatus == m.sessionWindowStatus
  }

  lemma NodeCarries(m: Mutation, id: int)
    ensures Carries(m, CreateNode(m).(id := id))
  {
  }

  /**
   sqlAll with no fields selected, over the row of a created account: the entity it returns is
   the node that createSpec returned, under the id of the row, and has in every field what the
   mutation set.
   */
  lemma CreatedIsReadBack(
    nodes: seq<Account>, plan: AccountPlan, json: JsonCodec, i: int, m: Mutation, id: int)
    requires RoundTrips(json) && plan.fields == []
    requires Eager(nodes, plan, json) && 0 <= i < |nodes| && plan.rows[i] == InsertedRow(m, id, json)
    ensures nodes[i].rec == CreateNode(m).(id := id)
    ensures nodes[i].rec.id == id && Carries(m, nodes[i].rec)
  {
    hide DecodeRow, ReadableRow, SelectedColumns, GroupsOf, UsageLogsOf, AccountGroupsOf, ToOneEdge, LinksBelow,
      InsertedRow, CreateNode, Carries;
    CreatedDecodes(plan, m, id, json);
    NodeCarries(m, id);
    assert Shown(nodes[i]) == NodeOf(plan, json, i);
  }
}
