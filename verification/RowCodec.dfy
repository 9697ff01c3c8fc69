/**
 The row codec of the Account entity (backend/ent/account.go and the createSpec
 half of backend/ent/account_create.go).

 A column name is a constructor of `Column`; a name outside account.Columns is
 `Other`. A pointer field of the entity is an `Option`, and nil is `None`.
 time.Time is an integer instant, float64 a real, and int a 64-bit int.
 The JSON library is a pair of functions passed in as a `JsonCodec`.
 */
module RowCodec {
  import opened Common

  datatype Column =
    | ID
    | CreatedAt
    | UpdatedAt
    | DeletedAt
    | Name
    | Notes
    | Platform
    | Type
    | Credentials
    | Extra
    | OwnerUserID
    | ShareMode
    | ShareStatus
    | SharePolicyID
    | ProxyID
    | Concurrency
    | LoadFactor
    | Priority
    | RateMultiplier
    | Status
    | ErrorMessage
    | LastUsedAt
    | ExpiresAt
    | AutoPauseOnExpired
    | Schedulable
    | RateLimitedAt
    | RateLimitResetAt
    | OverloadUntil
    | TempUnschedulableUntil
    | TempUnschedulableReason
    | SessionWindowStart
    | SessionWindowEnd
    | SessionWindowStatus
    | Other(name: string)

  datatype Json = NilMap | Object(members: map<string, string>)

  datatype JsonCodec = JsonCodec(marshal: Json -> seq<bv8>, unmarshal: seq<bv8> -> Option<Json>)

  /** What is asked of the JSON library: a map encodes to some bytes that decode to it. */
  ghost predicate RoundTrips(json: JsonCodec) {
    forall j :: json.marshal(j) != [] && json.unmarshal(json.marshal(j)) == Some(j)
  }

  /** The entity's own fields; the zero value of each is in `ZERO_RECORD`. */
  datatype AccountRecord = AccountRecord(
    id: int,
    createdAt: int,
    updatedAt: int,
    deletedAt: Option<int>,
    name: string,
    notes: Option<string>,
    platform: string,
    typ: string,
    credentials: Json,
    extra: Json,
    ownerUserID: Option<int>,
    shareMode: string,
    shareStatus: string,
    sharePolicyID: Option<int>,
    proxyID: Option<int>,
    concurrency: int,
    loadFactor: Option<int>,
    priority: int,
    rateMultiplier: real,
    status: string,
    errorMessage: Option<string>,
    lastUsedAt: Option<int>,
    expiresAt: Option<int>,
    autoPauseOnExpired: bool,
    schedulable: bool,
    rateLimitedAt: Option<int>,
    rateLimitResetAt: Option<int>,
    overloadUntil: Option<int>,
    tempUnschedulableUntil: Option<int>,
    tempUnschedulableReason: Option<string>,
    sessionWindowStart: Option<int>,
    sessionWindowEnd: Option<int>,
    sessionWindowStatus: Option<string>)

  const ZERO_RECORD: AccountRecord := AccountRecord(
    0, 0, 0, None, "", None, "", "", NilMap, NilMap, None, "", "", None, None, 0, None,
    0, 0.0, "", None, None, None, false, false, None, None, None, None, None, None, None, None)

  /** The value one field holds; `NilPointer` is a nil pointer field. */
  datatype GoValue =
    | NilPointer
    | IntValue(i: int)
    | StringValue(s: string)
    | BoolValue(b: bool)
    | FloatValue(f: real)
    | TimeValue(t: int)
    | JsonValue(j: Json)

  function Field(r: AccountRecord, c: Column): GoValue {
    match c
    case ID => IntValue(r.id)
    case CreatedAt => TimeValue(r.createdAt)
    case UpdatedAt => TimeValue(r.updatedAt)
    case DeletedAt => if r.deletedAt.Some? then TimeValue(r.deletedAt.value) else NilPointer
    case Name => StringValue(r.name)
    case Notes => if r.notes.Some? then StringValue(r.notes.value) else NilPointer
    case Platform => StringValue(r.platform)
    case Type => StringValue(r.typ)
    case Credentials => JsonValue(r.credentials)
    case Extra => JsonValue(r.extra)
    case OwnerUserID => if r.ownerUserID.Some? then IntValue(r.ownerUserID.value) else NilPointer
    case ShareMode => StringValue(r.shareMode)
    case ShareStatus => StringValue(r.shareStatus)
    case SharePolicyID => if r.sharePolicyID.Some? then IntValue(r.sharePolicyID.value) else NilPointer
    case ProxyID => if r.proxyID.Some? then IntValue(r.proxyID.value) else NilPointer
    case Concurrency => IntValue(r.concurrency)
    case LoadFactor => if r.loadFactor.Some? then IntValue(r.loadFactor.value) else NilPointer
    case Priority => IntValue(r.priority)
    case RateMultiplier => FloatValue(r.rateMultiplier)
    case Status => StringValue(r.status)
    case ErrorMessage => if r.errorMessage.Some? then StringValue(r.errorMessage.value) else NilPointer
    case LastUsedAt => if r.lastUsedAt.Some? then TimeValue(r.lastUsedAt.value) else NilPointer
    case ExpiresAt => if r.expiresAt.Some? then TimeValue(r.expiresAt.value) else NilPointer
    case AutoPauseOnExpired => BoolValue(r.autoPauseOnExpired)
    case Schedulable => BoolValue(r.schedulable)
    case RateLimitedAt => if r.rateLimitedAt.Some? then TimeValue(r.rateLimitedAt.value) else NilPointer
    case RateLimitResetAt => if r.rateLimitResetAt.Some? then TimeValue(r.rateLimitResetAt.value) else NilPointer
    case OverloadUntil => if r.overloadUntil.Some? then TimeValue(r.overloadUntil.value) else NilPointer
    case TempUnschedulableUntil =>
      if r.tempUnschedulableUntil.Some? then TimeValue(r.tempUnschedulableUntil.value) else NilPointer
    case TempUnschedulableReason =>
      if r.tempUnschedulableReason.Some? then StringValue(r.tempUnschedulableReason.value) else NilPointer
    case SessionWindowStart => if r.sessionWindowStart.Some? then TimeValue(r.sessionWindowStart.value) else NilPointer
    case SessionWindowEnd => if r.sessionWindowEnd.Some? then TimeValue(r.sessionWindowEnd.value) else NilPointer
    case SessionWindowStatus =>
      if r.sessionWindowStatus.Some? then StringValue(r.sessionWindowStatus.value) else NilPointer
    case Other(_) => NilPointer
  }

  // ---------- scanValues and assignValues ----------

  /** A scan destination: sql.NullInt64 and its siblings, *[]byte, sql.UnknownType. */
  datatype Slot =
    | NullInt64(valid: bool, int64: int)
    | NullString(valid: bool, text: string)
    | NullBool(valid: bool, flag: bool)
    | NullFloat64(valid: bool, float64: real)
    | NullTime(valid: bool, time: int)
    | RawBytes(data: seq<bv8>)
    | UnknownType

  predicate SameKind(a: Slot, b: Slot) {
    match a
    case NullInt64(_, _) => b.NullInt64?
    case NullString(_, _) => b.NullString?
    case NullBool(_, _) => b.NullBool?
    case NullFloat64(_, _) => b.NullFloat64?
    case NullTime(_, _) => b.NullTime?
    case RawBytes(_) => b.RawBytes?
    case UnknownType => b.UnknownType?
  }

  /** The destination scanValues allocates for a column. */
  function EmptySlot(c: Column): Slot {
    match c
    case Credentials | Extra =>
      RawBytes([])
    case AutoPauseOnExpired | Schedulable =>
      NullBool(false, false)
    case RateMultiplier =>
      NullFloat64(false, 0.0)
    case ID | OwnerUserID | SharePolicyID | ProxyID | Concurrency | LoadFactor | Priority =>
      NullInt64(false, 0)
    case Name | Notes | Platform | Type | ShareMode | ShareStatus | Status | ErrorMessage
       | TempUnschedulableReason | SessionWindowStatus =>
      NullString(false, "")
    case CreatedAt | UpdatedAt | DeletedAt | LastUsedAt | ExpiresAt | RateLimitedAt | RateLimitResetAt
       | OverloadUntil | TempUnschedulableUntil | SessionWindowStart | SessionWindowEnd =>
      NullTime(false, 0)
    case Other(_) =>
      UnknownType
  }

  datatype Decoded<+T> = Done(value: T) | LengthMismatch | TypeMismatch(column: Column) | BadJson(column: Column)

  /** One case of the switch in assignValues. */
  function Assign(r: AccountRecord, c: Column, s: Slot, json: JsonCodec): Decoded<AccountRecord> {
    match c
    case ID => if !s.NullInt64? then TypeMismatch(c) else Done(r.(id := s.int64))
    case CreatedAt =>
      if !s.NullTime? then TypeMismatch(c) else if !s.valid then Done(r) else Done(r.(createdAt := s.time))
    case UpdatedAt =>
      if !s.NullTime? then TypeMismatch(c) else if !s.valid then Done(r) else Done(r.(updatedAt := s.time))
    case DeletedAt =>
      if !s.NullTime? then TypeMismatch(c) else if !s.valid then Done(r) else Done(r.(deletedAt := Some(s.time)))
    case Name =>
      if !s.NullString? then TypeMismatch(c) else if !s.valid then Done(r) else Done(r.(name := s.text))
    case Notes =>
      if !s.NullString? then TypeMismatch(c) else if !s.valid then Done(r) else Done(r.(notes := Some(s.text)))
    case Platform =>
      if !s.NullString? then TypeMismatch(c) else if !s.valid then Done(r) else Done(r.(platform := s.text))
    case Type =>
      if !s.NullString? then TypeMismatch(c) else if !s.valid then Done(r) else Done(r.(typ := s.text))
    case Credentials =>
      if !s.RawBytes? then TypeMismatch(c)
      else if s.data == [] then Done(r)
      else if json.unmarshal(s.data).None? then BadJson(c)
      else Done(r.(credentials := json.unmarshal(s.data).value))
    case Extra =>
      if !s.RawBytes? then TypeMismatch(c)
      else if s.data == [] then Done(r)
      else if json.unmarshal(s.data).None? then BadJson(c)
      else Done(r.(extra := json.unmarshal(s.data).value))
    case OwnerUserID =>
      if !s.NullInt64? then TypeMismatch(c) else if !s.valid then Done(r) else Done(r.(ownerUserID := Some(s.int64)))
    case ShareMode =>
      if !s.NullString? then TypeMismatch(c) else if !s.valid then Done(r) else Done(r.(shareMode := s.text))
    case ShareStatus =>
      if !s.NullString? then TypeMismatch(c) else if !s.valid then Done(r) else Done(r.(shareStatus := s.text))
    case SharePolicyID =>
      if !s.NullInt64? then TypeMismatch(c) else if !s.valid then Done(r) else Done(r.(sharePolicyID := Some(s.int64)))
    case ProxyID =>
      if !s.NullInt64? then TypeMismatch(c) else if !s.valid then Done(r) else Done(r.(proxyID := Some(s.int64)))
    case Concurrency =>
      if !s.NullInt64? then TypeMismatch(c) else if !s.valid then Done(r) else Done(r.(concurrency := s.int64))
    case LoadFactor =>
      if !s.NullInt64? then TypeMismatch(c) else if !s.valid then Done(r) else Done(r.(loadFactor := Some(s.int64)))
    case Priority =>
      if !s.NullInt64? then TypeMismatch(c) else if !s.valid then Done(r) else Done(r.(priority := s.int64))
    case RateMultiplier =>
      if !s.NullFloat64? then TypeMismatch(c) else if !s.valid then Done(r) else Done(r.(rateMultiplier := s.float64))
    case Status =>
      if !s.NullString? then TypeMismatch(c) else if !s.valid then Done(r) else Done(r.(status := s.text))
    case ErrorMessage =>
      if !s.NullString? then TypeMismatch(c) else if !s.valid then Done(r) else Done(r.(errorMessage := Some(s.text)))
    case LastUsedAt =>
      if !s.NullTime? then TypeMismatch(c) else if !s.valid then Done(r) else Done(r.(lastUsedAt := Some(s.time)))
    case ExpiresAt =>
      if !s.NullTime? then TypeMismatch(c) else if !s.valid then Done(r) else Done(r.(expiresAt := Some(s.time)))
    case AutoPauseOnExpired =>
      if !s.NullBool? then TypeMismatch(c) else if !s.valid then Done(r) else Done(r.(autoPauseOnExpired := s.flag))
    case Schedulable =>
      if !s.NullBool? then TypeMismatch(c) else if !s.valid then Done(r) else Done(r.(schedulable := s.flag))
    case RateLimitedAt =>
      if !s.NullTime? then TypeMismatch(c) else if !s.valid then Done(r) else Done(r.(rateLimitedAt := Some(s.time)))
    case RateLimitResetAt =>
      if !s.NullTime? then TypeMismatch(c) else if !s.valid then Done(r) else Done(r.(rateLimitResetAt := Some(s.time)))
    case OverloadUntil =>
      if !s.NullTime? then TypeMismatch(c) else if !s.valid then Done(r) else Done(r.(overloadUntil := Some(s.time)))
    case TempUnschedulableUntil =>
      if !s.NullTime? then TypeMismatch(c)
      else if !s.valid then Done(r) else Done(r.(tempUnschedulableUntil := Some(s.time)))
    case TempUnschedulableReason =>
      if !s.NullString? then TypeMismatch(c)
      else if !s.valid then Done(r) else Done(r.(tempUnschedulableReason := Some(s.text)))
    case SessionWindowStart =>
      if !s.NullTime? then TypeMismatch(c)
      else if !s.valid then Done(r) else Done(r.(sessionWindowStart := Some(s.time)))
    case SessionWindowEnd =>
      if !s.NullTime? then TypeMismatch(c) else if !s.valid then Done(r) else Done(r.(sessionWindowEnd := Some(s.time)))
    case SessionWindowStatus =>
      if !s.NullString? then TypeMismatch(c)
      else if !s.valid then Done(r) else Done(r.(sessionWindowStatus := Some(s.text)))
    case Other(_) => Done(r)
  }

  /** assignValues over a whole row, from the record `r`. */
  function AssignAll(r: AccountRecord, columns: seq<Column>, values: seq<Slot>, json: JsonCodec): Decoded<AccountRecord>
    decreases |columns|
  {
    if |values| < |columns| then LengthMismatch
    else if columns == [] then Done(r)
    else
      match Assign(r, columns[0], values[0], json)
      case Done(r') => AssignAll(r', columns[1..], values[1..], json)
      case LengthMismatch => LengthMismatch
      case TypeMismatch(c) => TypeMismatch(c)
      case BadJson(c) => BadJson(c)
  }

  lemma NoTypeMismatchAt(r: AccountRecord, c: Column, s: Slot, json: JsonCodec)
    requires SameKind(EmptySlot(c), s)
    ensures var d := Assign(r, c, s, json); d.Done? || d.BadJson?
  {
    match c {
      case ID => case CreatedAt => case UpdatedAt => case DeletedAt => case Name => case Notes =>
      case Platform => case Type => case Credentials => case Extra => case OwnerUserID => case ShareMode =>
      case ShareStatus => case SharePolicyID => case ProxyID => case Concurrency => case LoadFactor =>
      case Priority => case RateMultiplier => case Status => case ErrorMessage => case LastUsedAt =>
      case ExpiresAt => case AutoPauseOnExpired => case Schedulable => case RateLimitedAt =>
      case RateLimitResetAt => case OverloadUntil => case TempUnschedulableUntil =>
      case TempUnschedulableReason => case SessionWindowStart => case SessionWindowEnd =>
      case SessionWindowStatus => case Other(_) =>
    }
  }

  /**
   scanValues and assignValues agree on every column, known or not: values scanned
   into the destinations that scanValues allocates never trip a type assertion.
   */
  lemma {:induction false} NoTypeMismatch(r: AccountRecord, columns: seq<Column>, values: seq<Slot>, json: JsonCodec)
    requires |values| == |columns|
    requires forall i :: 0 <= i < |columns| ==> SameKind(EmptySlot(columns[i]), values[i])
    ensures var d := AssignAll(r, columns, values, json); d.Done? || d.BadJson?
    decreases |columns|
  {
    if columns == [] {
    } else {
      assert SameKind(EmptySlot(columns[0]), values[0]);
      NoTypeMismatchAt(r, columns[0], values[0], json);
      match Assign(r, columns[0], values[0], json) {
        case Done(r') => NoTypeMismatch(r', columns[1..], values[1..], json);
        case _ =>
      }
    }
  }

  /** An empty destination assigns nothing, except that the id has no validity to look at. */
  lemma AssignEmptyAt(r: AccountRecord, c: Column, json: JsonCodec)
    ensures Assign(r, c, EmptySlot(c), json) == Done(if c == ID then r.(id := 0) else r)
  {
    match c {
      case ID => case CreatedAt => case UpdatedAt => case DeletedAt => case Name => case Notes =>
      case Platform => case Type => case Credentials => case Extra => case OwnerUserID => case ShareMode =>
      case ShareStatus => case SharePolicyID => case ProxyID => case Concurrency => case LoadFactor =>
      case Priority => case RateMultiplier => case Status => case ErrorMessage => case LastUsedAt =>
      case ExpiresAt => case AutoPauseOnExpired => case Schedulable => case RateLimitedAt =>
      case RateLimitResetAt => case OverloadUntil => case TempUnschedulableUntil =>
      case TempUnschedulableReason => case SessionWindowStart => case SessionWindowEnd =>
      case SessionWindowStatus => case Other(_) =>
    }
  }

  lemma {:induction false} AssignEmpties(r: AccountRecord, columns: seq<Column>, values: seq<Slot>, json: JsonCodec)
    requires |values| == |columns| && forall i :: 0 <= i < |columns| ==> values[i] == EmptySlot(columns[i])
    ensures AssignAll(r, columns, values, json) == Done(if ID in columns then r.(id := 0) else r)
    decreases |columns|
  {
    hide Assign, EmptySlot;
    if columns == [] {
    } else {
      AssignEmptyAt(r, columns[0], json);
      AssignEmpties(if columns[0] == ID then r.(id := 0) else r, columns[1..], values[1..], json);
      assert columns == [columns[0]] + columns[1..];
    }
  }

  ghost predicate SameKinds(a: seq<Slot>, b: seq<Slot>) {
    |a| == |b| && forall i :: 0 <= i < |a| ==> SameKind(a[i], b[i])
  }

  /** Whatever is scanned into the slots, assigning them trips no type assertion. */
  ghost predicate Fit(columns: seq<Column>, slots: seq<Slot>) {
    forall scanned: seq<Slot>, r, json :: SameKinds(slots, scanned) ==>
      AssignAll(r, columns, scanned, json).Done? || AssignAll(r, columns, scanned, json).BadJson?
  }

  /** Nothing has been scanned yet: assigning the slots leaves an entity as it is, but for its id. */
  ghost predicate Blank(columns: seq<Column>, slots: seq<Slot>) {
    forall r, json :: AssignAll(r, columns, slots, json) == Done(if ID in columns then r.(id := 0) else r)
  }

  lemma EmptiesFit(columns: seq<Column>, slots: seq<Slot>)
    requires |slots| == |columns| && forall i :: 0 <= i < |columns| ==> slots[i] == EmptySlot(columns[i])
    ensures Fit(columns, slots) && Blank(columns, slots)
  {
    hide EmptySlot, SameKind, AssignAll;
    forall scanned: seq<Slot>, r, json | SameKinds(slots, scanned)
      ensures AssignAll(r, columns, scanned, json).Done? || AssignAll(r, columns, scanned, json).BadJson?
    {
      NoTypeMismatch(r, columns, scanned, json);
    }
    forall r, json ensures AssignAll(r, columns, slots, json) == Done(if ID in columns then r.(id := 0) else r) {
      AssignEmpties(r, columns, slots, json);
    }
  }

  /** The destinations of scanValues are blank, and fit assignValues. */
  method ScanValues(columns: seq<Column>) returns (values: array<Slot>)
    ensures fresh(values) && values.Length == |columns|
    ensures Fit(columns, values[..]) && Blank(columns, values[..])
  {
    hide EmptySlot, Fit, Blank;
    values := new Slot[|columns|](_ => UnknownType);
    for i := 0 to |columns|
      invariant forall k :: 0 <= k < i ==> values[k] == EmptySlot(columns[k])
    {
      values[i] := EmptySlot(columns[i]);
    }
    EmptiesFit(columns, values[..]);
  }

  // ---------- rows ----------

  /** A value stored in the database. */
  datatype Cell =
    | Null
    | IntCell(i: int)
    | TextCell(s: string)
    | BoolCell(b: bool)
    | FloatCell(f: real)
    | TimeCell(t: int)
    | BytesCell(data: seq<bv8>)

  type Row = Column -> Cell

  /** What the driver scans from a cell into the column's destination; `None` is a scan error. */
  function Scan(c: Column, cell: Cell): Option<Slot> {
    match EmptySlot(c)
    case NullInt64(_, _) =>
      if cell.Null? then Some(NullInt64(false, 0))
      else if cell.IntCell? then Some(NullInt64(true, cell.i)) else None
    case NullString(_, _) =>
      if cell.Null? then Some(NullString(false, ""))
      else if cell.TextCell? then Some(NullString(true, cell.s)) else None
    case NullBool(_, _) =>
      if cell.Null? then Some(NullBool(false, false))
      else if cell.BoolCell? then Some(NullBool(true, cell.b)) else None
    case NullFloat64(_, _) =>
      if cell.Null? then Some(NullFloat64(false, 0.0))
      else if cell.FloatCell? then Some(NullFloat64(true, cell.f)) else None
    case NullTime(_, _) =>
      if cell.Null? then Some(NullTime(false, 0))
      else if cell.TimeCell? then Some(NullTime(true, cell.t)) else None
    case RawBytes(_) =>
      if cell.Null? then Some(RawBytes([]))
      else if cell.BytesCell? then Some(RawBytes(cell.data)) else None
    case UnknownType => Some(UnknownType)
  }

  predicate Scannable(columns: seq<Column>, row: Row) {
    forall i :: 0 <= i < |columns| ==> Scan(columns[i], row(columns[i])).Some?
  }

  function ScanRow(columns: seq<Column>, row: Row): (values: seq<Slot>)
    requires Scannable(columns, row)
    ensures |values| == |columns|
  {
    if columns == [] then []
    else
      assert Scan(columns[0], row(columns[0])).Some?;
      [Scan(columns[0], row(columns[0])).value] + ScanRow(columns[1..], row)
  }

  /** Reading a row back as a fresh entity. */
  function DecodeRow(columns: seq<Column>, row: Row, json: JsonCodec): Decoded<AccountRecord>
    requires Scannable(columns, row)
  {
    AssignAll(ZERO_RECORD, columns, ScanRow(columns, row), json)
  }

  // ---------- createSpec ----------

  /** What an AccountMutation holds: each unset field is `None`. */
  datatype Mutation = Mutation(
    createdAt: Option<int>,
    updatedAt: Option<int>,
    deletedAt: Option<int>,
    name: Option<string>,
    notes: Option<string>,
    platform: Option<string>,
    typ: Option<string>,
    credentials: Option<Json>,
    extra: Option<Json>,
    shareMode: Option<string>,
    shareStatus: Option<string>,
    sharePolicyID: Option<int>,
    concurrency: Option<int>,
    loadFactor: Option<int>,
    priority: Option<int>,
    rateMultiplier: Option<real>,
    status: Option<string>,
    errorMessage: Option<string>,
    lastUsedAt: Option<int>,
    expiresAt: Option<int>,
    autoPauseOnExpired: Option<bool>,
    schedulable: Option<bool>,
    rateLimitedAt: Option<int>,
    rateLimitResetAt: Option<int>,
    overloadUntil: Option<int>,
    tempUnschedulableUntil: Option<int>,
    tempUnschedulableReason: Option<string>,
    sessionWindowStart: Option<int>,
    sessionWindowEnd: Option<int>,
    sessionWindowStatus: Option<string>,
    groups: set<int>,
    proxy: Option<int>,
    owner: Option<int>,
    usageLogs: set<int>)

  datatype FieldType = TypeTime | TypeString | TypeJSON | TypeInt | TypeInt64 | TypeFloat64 | TypeBool

  datatype FieldSpec = FieldSpec(typ: FieldType, value: GoValue)

  /** The SetField call that createSpec makes for a column, if the mutation sets it. */
  function SpecField(m: Mutation, c: Column): Option<FieldSpec> {
    match c
    case CreatedAt => if m.createdAt.Some? then Some(FieldSpec(TypeTime, TimeValue(m.createdAt.value))) else None
    case UpdatedAt => if m.updatedAt.Some? then Some(FieldSpec(TypeTime, TimeValue(m.updatedAt.value))) else None
    case DeletedAt => if m.deletedAt.Some? then Some(FieldSpec(TypeTime, TimeValue(m.deletedAt.value))) else None
    case Name => if m.name.Some? then Some(FieldSpec(TypeString, StringValue(m.name.value))) else None
    case Notes => if m.notes.Some? then Some(FieldSpec(TypeString, StringValue(m.notes.value))) else None
    case Platform => if m.platform.Some? then Some(FieldSpec(TypeString, StringValue(m.platform.value))) else None
    case Type => if m.typ.Some? then Some(FieldSpec(TypeString, StringValue(m.typ.value))) else None
    case Credentials => if m.credentials.Some? then Some(FieldSpec(TypeJSON, JsonValue(m.credentials.value))) else None
    case Extra => if m.extra.Some? then Some(FieldSpec(TypeJSON, JsonValue(m.extra.value))) else None
    case ShareMode => if m.shareMode.Some? then Some(FieldSpec(TypeString, StringValue(m.shareMode.value))) else None
    case ShareStatus =>
      if m.shareStatus.Some? then Some(FieldSpec(TypeString, StringValue(m.shareStatus.value))) else None
    case SharePolicyID =>
      if m.sharePolicyID.Some? then Some(FieldSpec(TypeInt64, IntValue(m.sharePolicyID.value))) else None
    case Concurrency => if m.concurrency.Some? then Some(FieldSpec(TypeInt, IntValue(m.concurrency.value))) else None
    case LoadFactor => if m.loadFactor.Some? then Some(FieldSpec(TypeInt, IntValue(m.loadFactor.value))) else None
    case Priority => if m.priority.Some? then Some(FieldSpec(TypeInt, IntValue(m.priority.value))) else None
    case RateMultiplier =>
      if m.rateMultiplier.Some? then Some(FieldSpec(TypeFloat64, FloatValue(m.rateMultiplier.value))) else None
    case Status => if m.status.Some? then Some(FieldSpec(TypeString, StringValue(m.status.value))) else None
    case ErrorMessage =>
      if m.errorMessage.Some? then Some(FieldSpec(TypeString, StringValue(m.errorMessage.value))) else None
    case LastUsedAt => if m.lastUsedAt.Some? then Some(FieldSpec(TypeTime, TimeValue(m.lastUsedAt.value))) else None
    case ExpiresAt => if m.expiresAt.Some? then Some(FieldSpec(TypeTime, TimeValue(m.expiresAt.value))) else None
    case AutoPauseOnExpired =>
      if m.autoPauseOnExpired.Some? then Some(FieldSpec(TypeBool, BoolValue(m.autoPauseOnExpired.value))) else None
    case Schedulable => if m.schedulable.Some? then Some(FieldSpec(TypeBool, BoolValue(m.schedulable.value))) else None
    case RateLimitedAt =>
      if m.rateLimitedAt.Some? then Some(FieldSpec(TypeTime, TimeValue(m.rateLimitedAt.value))) else None
    case RateLimitResetAt =>
      if m.rateLimitResetAt.Some? then Some(FieldSpec(TypeTime, TimeValue(m.rateLimitResetAt.value))) else None
    case OverloadUntil =>
      if m.overloadUntil.Some? then Some(FieldSpec(TypeTime, TimeValue(m.overloadUntil.value))) else None
    case TempUnschedulableUntil =>
      if m.tempUnschedulableUntil.Some? then Some(FieldSpec(TypeTime, TimeValue(m.tempUnschedulableUntil.value)))
      else None
    case TempUnschedulableReason =>
      if m.tempUnschedulableReason.Some? then Some(FieldSpec(TypeString, StringValue(m.tempUnschedulableReason.value)))
      else None
    case SessionWindowStart =>
      if m.sessionWindowStart.Some? then Some(FieldSpec(TypeTime, TimeValue(m.sessionWindowStart.value))) else None
    case SessionWindowEnd =>
      if m.sessionWindowEnd.Some? then Some(FieldSpec(TypeTime, TimeValue(m.sessionWindowEnd.value))) else None
    case SessionWindowStatus =>
      if m.sessionWindowStatus.Some? then Some(FieldSpec(TypeString, StringValue(m.sessionWindowStatus.value)))
      else None
    case _ => None
  }

  /** The many-to-one edges of the spec: the foreign-key column and the target ids. */
  function SpecEdges(m: Mutation): seq<(Column, seq<int>)> {
    (if m.proxy.Some? then [(ProxyID, [m.proxy.value])] else []) +
    (if m.owner.Some? then [(OwnerUserID, [m.owner.value])] else [])
  }

  function Or<T>(o: Option<T>, zero: T): T {
    if o.Some? then o.value else zero
  }

  /** The entity that createSpec returns beside the spec. */
  function CreateNode(m: Mutation): AccountRecord {
    AccountRecord(
      0,
      Or(m.createdAt, 0),
      Or(m.updatedAt, 0),
      m.deletedAt,
      Or(m.name, ""),
      m.notes,
      Or(m.platform, ""),
      Or(m.typ, ""),
      Or(m.credentials, NilMap),
      Or(m.extra, NilMap),
      m.owner,
      Or(m.shareMode, ""),
      Or(m.shareStatus, ""),
      m.sharePolicyID,
      m.proxy,
      Or(m.concurrency, 0),
      m.loadFactor,
      Or(m.priority, 0),
      Or(m.rateMultiplier, 0.0),
      Or(m.status, ""),
      m.errorMessage,
      m.lastUsedAt,
      m.expiresAt,
      Or(m.autoPauseOnExpired, false),
      Or(m.schedulable, false),
      m.rateLimitedAt,
      m.rateLimitResetAt,
      m.overloadUntil,
      m.tempUnschedulableUntil,
      m.tempUnschedulableReason,
      m.sessionWindowStart,
      m.sessionWindowEnd,
      m.sessionWindowStatus)
  }

  // ---------- writing a spec and reading it back ----------

  function CellOf(v: GoValue, json: JsonCodec): Cell {
    match v
    case NilPointer => Null
    case IntValue(i) => IntCell(i)
    case StringValue(s) => TextCell(s)
    case BoolValue(b) => BoolCell(b)
    case FloatValue(f) => FloatCell(f)
    case TimeValue(t) => TimeCell(t)
    case JsonValue(j) => BytesCell(json.marshal(j))
  }

  /** The value that the edges store in a column of accounts. */
  function ForeignKey(edges: seq<(Column, seq<int>)>, c: Column): Option<int> {
    if edges == [] then None
    else if edges[0].0 == c && edges[0].1 != [] then Some(edges[0].1[0])
    else ForeignKey(edges[1..], c)
  }

  /** What the inserted row stores in a column other than the id; `None` is NULL. */
  function Stored(m: Mutation, c: Column): Option<GoValue> {
    if SpecField(m, c).Some? then Some(SpecField(m, c).value.value)
    else
      var key := ForeignKey(SpecEdges(m), c);
      if key.Some? then Some(IntValue(key.value)) else None
  }

  /** The row the database holds once the spec is inserted under `id`; columns not set are NULL. */
  function InsertedRow(m: Mutation, id: int, json: JsonCodec): Row {
    c =>
      if c == ID then IntCell(id)
      else if Stored(m, c).Some? then CellOf(Stored(m, c).value, json)
      else Null
  }

  /** A value of the kind that the column's scan destination takes. */
  predicate Fits(v: GoValue, c: Column) {
    match EmptySlot(c)
    case NullInt64(_, _) => v.IntValue?
    case NullString(_, _) => v.StringValue?
    case NullBool(_, _) => v.BoolValue?
    case NullFloat64(_, _) => v.FloatValue?
    case NullTime(_, _) => v.TimeValue?
    case RawBytes(_) => v.JsonValue?
    case UnknownType => false
  }

  predicate HasType(v: GoValue, t: FieldType) {
    match t
    case TypeTime => v.TimeValue?
    case TypeString => v.StringValue?
    case TypeJSON => v.JsonValue?
    case TypeInt | TypeInt64 => v.IntValue?
    case TypeFloat64 => v.FloatValue?
    case TypeBool => v.BoolValue?
  }

  lemma ForeignKeys(m: Mutation, c: Column)
    ensures ForeignKey(SpecEdges(m), c) ==
            match c { case ProxyID => m.proxy case OwnerUserID => m.owner case _ => None }
  {
    var e := SpecEdges(m);
    if |e| == 2 {
      assert e[1..] == [(OwnerUserID, [m.owner.value])] && e[1..][1..] == [];
      assert ForeignKey(e[1..], c) == if c == OwnerUserID then m.owner else None;
    } else if |e| == 1 {
      assert e[1..] == [];
    }
  }

  lemma SpecMatchesNodeTime(m: Mutation, id: int, c: Column)
    requires EmptySlot(c).NullTime?
    requires c != ID
    ensures SpecField(m, c).Some? ==> HasType(SpecField(m, c).value.value, SpecField(m, c).value.typ)
    ensures Stored(m, c).Some? ==> Fits(Stored(m, c).value, c)
    ensures Field(CreateNode(m).(id := id), c) ==
            if Stored(m, c).Some? then Stored(m, c).value else Field(ZERO_RECORD, c)
  {
    ForeignKeys(m, c);
    hide ForeignKey, SpecEdges;
    match c {
      case CreatedAt => case UpdatedAt => case DeletedAt => case LastUsedAt => case ExpiresAt =>
      case RateLimitedAt => case RateLimitResetAt => case OverloadUntil => case TempUnschedulableUntil =>
      case SessionWindowStart => case SessionWindowEnd =>
      case _ =>
    }
  }

  lemma SpecMatchesNodeText(m: Mutation, id: int, c: Column)
    requires EmptySlot(c).NullString?
    requires c != ID
    ensures SpecField(m, c).Some? ==> HasType(SpecField(m, c).value.value, SpecField(m, c).value.typ)
    ensures Stored(m, c).Some? ==> Fits(Stored(m, c).value, c)
    ensures Field(CreateNode(m).(id := id), c) ==
            if Stored(m, c).Some? then Stored(m, c).value else Field(ZERO_RECORD, c)
  {
    ForeignKeys(m, c);
    hide ForeignKey, SpecEdges;
    match c {
      case Name => case Notes => case Platform => case Type => case ShareMode => case ShareStatus =>
      case Status => case ErrorMessage => case TempUnschedulableReason => case SessionWindowStatus =>
      case _ =>
    }
  }

  lemma SpecMatchesNodeRest(m: Mutation, id: int, c: Column)
    requires !EmptySlot(c).NullTime? && !EmptySlot(c).NullString?
    requires c != ID
    ensures SpecField(m, c).Some? ==> HasType(SpecField(m, c).value.value, SpecField(m, c).value.typ)
    ensures Stored(m, c).Some? ==> Fits(Stored(m, c).value, c)
    ensures Field(CreateNode(m).(id := id), c) ==
            if Stored(m, c).Some? then Stored(m, c).value else Field(ZERO_RECORD, c)
  {
    ForeignKeys(m, c);
    hide ForeignKey, SpecEdges;
    match c {
      case ID => case Credentials => case Extra => case OwnerUserID => case SharePolicyID => case ProxyID =>
      case Concurrency => case LoadFactor => case Priority => case RateMultiplier => case AutoPauseOnExpired =>
      case Schedulable => case Other(_) =>
      case _ =>
    }
  }

  /**
   Column by column, the spec stores the value that the node holds, declared with a type
   the value has and in the kind that scanValues expects back; a column left out of the
   spec is at its zero value in the node.
   */
  lemma SpecMatchesNode(m: Mutation, id: int, c: Column)
    requires c != ID
    ensures SpecField(m, c).Some? ==> HasType(SpecField(m, c).value.value, SpecField(m, c).value.typ)
    ensures Stored(m, c).Some? ==> Fits(Stored(m, c).value, c)
    ensures Field(CreateNode(m).(id := id), c) ==
            if Stored(m, c).Some? then Stored(m, c).value else Field(ZERO_RECORD, c)
  {
    if EmptySlot(c).NullTime? {
      SpecMatchesNodeTime(m, id, c);
    } else if EmptySlot(c).NullString? {
      SpecMatchesNodeText(m, id, c);
    } else {
      SpecMatchesNodeRest(m, id, c);
    }
  }

  lemma AssignFrameStamps(r: AccountRecord, c: Column, s: Slot, json: JsonCodec, c': Column)
    requires c.CreatedAt? || c.UpdatedAt? || c.DeletedAt? || c.LastUsedAt?
    requires Assign(r, c, s, json).Done? && c' != c
    ensures Field(Assign(r, c, s, json).value, c') == Field(r, c')
  {
    match c {
      case CreatedAt => case UpdatedAt => case DeletedAt => case LastUsedAt => case _ =>
    }
  }

  lemma AssignFrameLimits(r: AccountRecord, c: Column, s: Slot, json: JsonCodec, c': Column)
    requires c.ExpiresAt? || c.RateLimitedAt? || c.RateLimitResetAt? || c.OverloadUntil?
    requires Assign(r, c, s, json).Done? && c' != c
    ensures Field(Assign(r, c, s, json).value, c') == Field(r, c')
  {
    match c {
      case ExpiresAt => case RateLimitedAt => case RateLimitResetAt => case OverloadUntil => case _ =>
    }
  }

  lemma AssignFrameWindows(r: AccountRecord, c: Column, s: Slot, json: JsonCodec, c': Column)
    requires c.TempUnschedulableUntil? || c.SessionWindowStart? || c.SessionWindowEnd?
    requires Assign(r, c, s, json).Done? && c' != c
    ensures Field(Assign(r, c, s, json).value, c') == Field(r, c')
  {
    match c {
      case TempUnschedulableUntil => case SessionWindowStart => case SessionWindowEnd => case _ =>
    }
  }

  lemma AssignFrameTexts(r: AccountRecord, c: Column, s: Slot, json: JsonCodec, c': Column)
    requires c.Name? || c.Notes? || c.Platform? || c.Type? || c.ShareMode?
    requires Assign(r, c, s, json).Done? && c' != c
    ensures Field(Assign(r, c, s, json).value, c') == Field(r, c')
  {
    match c {
      case Name => case Notes => case Platform => case Type => case ShareMode => case _ =>
    }
  }

  lemma AssignFrameStates(r: AccountRecord, c: Column, s: Slot, json: JsonCodec, c': Column)
    requires c.ShareStatus? || c.Status? || c.ErrorMessage? || c.TempUnschedulableReason? || c.SessionWindowStatus?
    requires Assign(r, c, s, json).Done? && c' != c
    ensures Field(Assign(r, c, s, json).value, c') == Field(r, c')
  {
    match c {
      case ShareStatus => case Status => case ErrorMessage => case TempUnschedulableReason =>
      case SessionWindowStatus => case _ =>
    }
  }

  lemma AssignFrameIdentity(r: AccountRecord, c: Column, s: Slot, json: JsonCodec, c': Column)
    requires c.ID? || c.Credentials? || c.Extra? || c.OwnerUserID?
    requires Assign(r, c, s, json).Done? && c' != c
    ensures Field(Assign(r, c, s, json).value, c') == Field(r, c')
  {
    match c {
      case ID => case Credentials => case Extra => case OwnerUserID => case _ =>
    }
  }

  lemma AssignFrameKeys(r: AccountRecord, c: Column, s: Slot, json: JsonCodec, c': Column)
    requires c.SharePolicyID? || c.ProxyID? || c.Concurrency? || c.LoadFactor?
    requires Assign(r, c, s, json).Done? && c' != c
    ensures Field(Assign(r, c, s, json).value, c') == Field(r, c')
  {
    match c {
      case SharePolicyID => case ProxyID => case Concurrency => case LoadFactor => case _ =>
    }
  }

  lemma AssignFrameSettings(r: AccountRecord, c: Column, s: Slot, json: JsonCodec, c': Column)
    requires c.Priority? || c.RateMultiplier? || c.AutoPauseOnExpired? || c.Schedulable? || c.Other?
    requires Assign(r, c, s, json).Done? && c' != c
    ensures Field(Assign(r, c, s, json).value, c') == Field(r, c')
  {
    match c {
      case Priority => case RateMultiplier => case AutoPauseOnExpired => case Schedulable => case Other(_) => case _ =>
    }
  }

  /** Assigning one column leaves every other field alone. */
  lemma AssignFrame(r: AccountRecord, c: Column, s: Slot, json: JsonCodec, c': Column)
    requires Assign(r, c, s, json).Done? && c' != c
    ensures Field(Assign(r, c, s, json).value, c') == Field(r, c')
  {
    hide Assign, Field;
    if c.CreatedAt? || c.UpdatedAt? || c.DeletedAt? || c.LastUsedAt? {
      AssignFrameStamps(r, c, s, json, c');
    } else if c.ExpiresAt? || c.RateLimitedAt? || c.RateLimitResetAt? || c.OverloadUntil? {
      AssignFrameLimits(r, c, s, json, c');
    } else if c.TempUnschedulableUntil? || c.SessionWindowStart? || c.SessionWindowEnd? {
      AssignFrameWindows(r, c, s, json, c');
    } else if c.Name? || c.Notes? || c.Platform? || c.Type? || c.ShareMode? {
      AssignFrameTexts(r, c, s, json, c');
    } else if c.ShareStatus? || c.Status? || c.ErrorMessage? || c.TempUnschedulableReason? || c.SessionWindowStatus? {
      AssignFrameStates(r, c, s, json, c');
    } else if c.ID? || c.Credentials? || c.Extra? || c.OwnerUserID? {
      AssignFrameIdentity(r, c, s, json, c');
    } else if c.SharePolicyID? || c.ProxyID? || c.Concurrency? || c.LoadFactor? {
      AssignFrameKeys(r, c, s, json, c');
    } else {
      AssignFrameSettings(r, c, s, json, c');
    }
  }

  /** Writing a value to a cell and reading the cell back assigns that value. */
  lemma AssignScanned(r: AccountRecord, c: Column, v: GoValue, json: JsonCodec)
    requires Fits(v, c)
    requires v.JsonValue? ==> json.marshal(v.j) != [] && json.unmarshal(json.marshal(v.j)) == Some(v.j)
    ensures Scan(c, CellOf(v, json)).Some?
    ensures var d := Assign(r, c, Scan(c, CellOf(v, json)).value, json); d.Done? && Field(d.value, c) == v
  {
    match c {
      case ID => case CreatedAt => case UpdatedAt => case DeletedAt => case Name => case Notes =>
      case Platform => case Type => case Credentials => case Extra => case OwnerUserID => case ShareMode =>
      case ShareStatus => case SharePolicyID => case ProxyID => case Concurrency => case LoadFactor =>
      case Priority => case RateMultiplier => case Status => case ErrorMessage => case LastUsedAt =>
      case ExpiresAt => case AutoPauseOnExpired => case Schedulable => case RateLimitedAt =>
      case RateLimitResetAt => case OverloadUntil => case TempUnschedulableUntil =>
      case TempUnschedulableReason => case SessionWindowStart => case SessionWindowEnd =>
      case SessionWindowStatus => case Other(_) =>
    }
  }

  /** Reading NULL assigns nothing, except that it sets the id to zero. */
  lemma AssignNull(r: AccountRecord, c: Column, json: JsonCodec)
    ensures Scan(c, Null).Some? && Assign(r, c, Scan(c, Null).value, json) == Done(if c == ID then r.(id := 0) else r)
  {
    match c {
      case ID => case CreatedAt => case UpdatedAt => case DeletedAt => case Name => case Notes =>
      case Platform => case Type => case Credentials => case Extra => case OwnerUserID => case ShareMode =>
      case ShareStatus => case SharePolicyID => case ProxyID => case Concurrency => case LoadFactor =>
      case Priority => case RateMultiplier => case Status => case ErrorMessage => case LastUsedAt =>
      case ExpiresAt => case AutoPauseOnExpired => case Schedulable => case RateLimitedAt =>
      case RateLimitResetAt => case OverloadUntil => case TempUnschedulableUntil =>
      case TempUnschedulableReason => case SessionWindowStart => case SessionWindowEnd =>
      case SessionWindowStatus => case Other(_) =>
    }
  }

  /** Reading one column of the inserted row sets it to the value in the node. */
  lemma AssignInserted(r: AccountRecord, c: Column, m: Mutation, id: int, json: JsonCodec)
    requires RoundTrips(json)
    requires Field(r, c) in {Field(ZERO_RECORD, c), Field(CreateNode(m).(id := id), c)}
    ensures Scan(c, InsertedRow(m, id, json)(c)).Some?
    ensures
      var d := Assign(r, c, Scan(c, InsertedRow(m, id, json)(c)).value, json);
      d.Done? && Field(d.value, c) == Field(CreateNode(m).(id := id), c)
  {
    if c == ID {
      AssignScanned(r, ID, IntValue(id), json);
    } else {
      hide Field, Assign, Scan, CellOf, Fits, SpecField, CreateNode, Stored, EmptySlot;
      SpecMatchesNode(m, id, c);
      if Stored(m, c).Some? {
        AssignScanned(r, c, Stored(m, c).value, json);
      } else {
        AssignNull(r, c, json);
      }
    }
  }

  /** The induction: `seen` are the columns already read into `r`. */
  lemma {:induction false} RoundTripFrom(
    m: Mutation, id: int, columns: seq<Column>, seen: seq<Column>, r: AccountRecord, json: JsonCodec)
    requires RoundTrips(json)
    requires Scannable(columns, InsertedRow(m, id, json))
    requires forall c :: Field(r, c) == Field(if c in seen then CreateNode(m).(id := id) else ZERO_RECORD, c)
    ensures
      var d := AssignAll(r, columns, ScanRow(columns, InsertedRow(m, id, json)), json);
      && d.Done?
      && forall c :: Field(d.value, c) ==
                     Field(if c in seen + columns then CreateNode(m).(id := id) else ZERO_RECORD, c)
    decreases |columns|
  {
    hide Field, Assign, Scan, CreateNode, InsertedRow;
    var row := InsertedRow(m, id, json);
    if columns == [] {
      assert seen + columns == seen;
    } else {
      var c0 := columns[0];
      AssignInserted(r, c0, m, id, json);
      var s := Scan(c0, row(c0)).value;
      var r' := Assign(r, c0, s, json).value;
      forall c ensures Field(r', c) == Field(if c in seen + [c0] then CreateNode(m).(id := id) else ZERO_RECORD, c) {
        if c != c0 { AssignFrame(r, c0, s, json, c); }
      }
      assert forall i :: 0 <= i < |columns[1..]| ==> columns[1..][i] == columns[i + 1];
      RoundTripFrom(m, id, columns[1..], seen + [c0], r', json);
      assert (seen + [c0]) + columns[1..] == seen + columns;
    }
  }

  /**
   Encoding a created account and decoding any list of its columns gives back, field by
   field, the node that createSpec returned, under the id the database assigned; fields
   that are not selected keep their zero value.
   */
  lemma {:induction false} RoundTrip(m: Mutation, id: int, columns: seq<Column>, json: JsonCodec)
    requires RoundTrips(json)
    ensures Scannable(columns, InsertedRow(m, id, json))
    ensures
      var d := DecodeRow(columns, InsertedRow(m, id, json), json);
      && d.Done?
      && forall c :: Field(d.value, c) == Field(if c in columns then CreateNode(m).(id := id) else ZERO_RECORD, c)
  {
    hide Field, Assign, Scan, CreateNode, InsertedRow;
    var row := InsertedRow(m, id, json);
    forall i | 0 <= i < |columns| ensures Scan(columns[i], row(columns[i])).Some? {
      AssignInserted(ZERO_RECORD, columns[i], m, id, json);
    }
    RoundTripFrom(m, id, columns, [], ZERO_RECORD, json);
    assert [] + columns == columns;
  }

  lemma AssignAgainTime(r: AccountRecord, c: Column, s: Slot, json: JsonCodec)
    requires EmptySlot(c).NullTime?
    ensures Assign(r, c, s, json).Done? <==> Assign(ZERO_RECORD, c, s, json).Done?
    ensures
      var once := Assign(ZERO_RECORD, c, s, json);
      once.Done? && Field(r, c) in {Field(ZERO_RECORD, c), Field(once.value, c)} ==>
        Field(Assign(r, c, s, json).value, c) == Field(once.value, c)
  {
    match c {
      case CreatedAt => case UpdatedAt => case DeletedAt => case LastUsedAt => case ExpiresAt =>
      case RateLimitedAt => case RateLimitResetAt => case OverloadUntil => case TempUnschedulableUntil =>
      case SessionWindowStart => case SessionWindowEnd =>
      case _ =>
    }
  }

  lemma AssignAgainText(r: AccountRecord, c: Column, s: Slot, json: JsonCodec)
    requires EmptySlot(c).NullString?
    ensures Assign(r, c, s, json).Done? <==> Assign(ZERO_RECORD, c, s, json).Done?
    ensures
      var once := Assign(ZERO_RECORD, c, s, json);
      once.Done? && Field(r, c) in {Field(ZERO_RECORD, c), Field(once.value, c)} ==>
        Field(Assign(r, c, s, json).value, c) == Field(once.value, c)
  {
    match c {
      case Name => case Notes => case Platform => case Type => case ShareMode => case ShareStatus =>
      case Status => case ErrorMessage => case TempUnschedulableReason => case SessionWindowStatus =>
      case _ =>
    }
  }

  lemma AssignAgainRest(r: AccountRecord, c: Column, s: Slot, json: JsonCodec)
    requires !EmptySlot(c).NullTime? && !EmptySlot(c).NullString?
    ensures Assign(r, c, s, json).Done? <==> Assign(ZERO_RECORD, c, s, json).Done?
    ensures
      var once := Assign(ZERO_RECORD, c, s, json);
      once.Done? && Field(r, c) in {Field(ZERO_RECORD, c), Field(once.value, c)} ==>
        Field(Assign(r, c, s, json).value, c) == Field(once.value, c)
  {
    match c {
      case ID => case Credentials => case Extra => case OwnerUserID => case SharePolicyID => case ProxyID =>
      case Concurrency => case LoadFactor => case Priority => case RateMultiplier => case AutoPauseOnExpired =>
      case Schedulable => case Other(_) =>
      case _ =>
    }
  }

  /** Assigning a column twice is assigning it once, and whether it succeeds does not depend on the entity. */
  lemma AssignAgain(r: AccountRecord, c: Column, s: Slot, json: JsonCodec)
    ensures Assign(r, c, s, json).Done? <==> Assign(ZERO_RECORD, c, s, json).Done?
    ensures
      var once := Assign(ZERO_RECORD, c, s, json);
      once.Done? && Field(r, c) in {Field(ZERO_RECORD, c), Field(once.value, c)} ==>
        Field(Assign(r, c, s, json).value, c) == Field(once.value, c)
  {
    if EmptySlot(c).NullTime? {
      AssignAgainTime(r, c, s, json);
    } else if EmptySlot(c).NullString? {
      AssignAgainText(r, c, s, json);
    } else {
      AssignAgainRest(r, c, s, json);
    }
  }

  /** What decoding a row puts in one selected field, whatever else is selected. */
  function DecodedField(c: Column, row: Row, json: JsonCodec): Option<GoValue> {
    if Scan(c, row(c)).None? then None
    else
      var d := Assign(ZERO_RECORD, c, Scan(c, row(c)).value, json);
      if d.Done? then Some(Field(d.value, c)) else None
  }

  lemma {:induction false} ProjectionFrom(r: AccountRecord, columns: seq<Column>, row: Row, json: JsonCodec, c: Column)
    requires Scannable(columns, row) && AssignAll(r, columns, ScanRow(columns, row), json).Done?
    requires Field(r, c) == Field(ZERO_RECORD, c) || DecodedField(c, row, json) == Some(Field(r, c))
    ensures
      var r' := AssignAll(r, columns, ScanRow(columns, row), json).value;
      && (c in columns ==> DecodedField(c, row, json) == Some(Field(r', c)))
      && (c !in columns ==> Field(r', c) == Field(r, c))
      && (DecodedField(c, row, json) == Some(Field(r, c)) ==> DecodedField(c, row, json) == Some(Field(r', c)))
    decreases |columns|
  {
    hide Field, Assign, Scan;
    if columns == [] {
    } else {
      var c0 := columns[0];
      assert Scan(c0, row(c0)).Some?;
      var s := Scan(c0, row(c0)).value;
      assert ScanRow(columns, row)[0] == s && ScanRow(columns, row)[1..] == ScanRow(columns[1..], row);
      var r1 := Assign(r, c0, s, json).value;
      if c0 == c {
        AssignAgain(r, c, s, json);
      } else {
        AssignFrame(r, c0, s, json, c);
      }
      ProjectionFrom(r1, columns[1..], row, json, c);
    }
  }

  /**
   A decoded field depends on its own column only: every projection that selects a column
   gives it the same value, and one that does not leaves it at its zero value.
   */
  lemma ProjectionIndependent(columns: seq<Column>, row: Row, json: JsonCodec, c: Column)
    requires Scannable(columns, row) && DecodeRow(columns, row, json).Done?
    ensures
      var r := DecodeRow(columns, row, json).value;
      if c in columns then DecodedField(c, row, json) == Some(Field(r, c)) else Field(r, c) == Field(ZERO_RECORD, c)
  {
    ProjectionFrom(ZERO_RECORD, columns, row, json, c);
  }

  /** A pointer field is nil in the decoded entity exactly when its cell is NULL. */
  lemma NilExactlyForNull(m: Mutation, id: int, columns: seq<Column>, c: Column, json: JsonCodec)
    requires RoundTrips(json) && c in columns && c != ID && !c.Other? && Field(ZERO_RECORD, c).NilPointer?
    ensures Scannable(columns, InsertedRow(m, id, json))
    ensures
      var d := DecodeRow(columns, InsertedRow(m, id, json), json);
      d.Done? && (Field(d.value, c).NilPointer? <==> InsertedRow(m, id, json)(c).Null?)
  {
    hide Field, Scan, CreateNode, Assign, SpecField, Stored, EmptySlot, DecodeRow;
    RoundTrip(m, id, columns, json);
    SpecMatchesNode(m, id, c);
  }
}
