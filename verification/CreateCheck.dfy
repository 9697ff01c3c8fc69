/**
 AccountCreate.defaults and AccountCreate.check (backend/ent/account_create.go), and why
 bulk creation may drop the error of the first.

 The package variables that the runtime package fills in are a `Runtime`; a function that
 was never filled in is `None`, and calling a missing validator panics.
 */
module CreateCheck {
  import opened Common
  import opened RowCodec
  import opened BulkChain

  datatype Runtime = Runtime(
    createdAt: Option<int>,
    updatedAt: Option<int>,
    credentials: Option<Json>,
    extra: Option<Json>,
    shareMode: string,
    shareStatus: string,
    concurrency: int,
    priority: int,
    rateMultiplier: real,
    status: string,
    autoPauseOnExpired: bool,
    schedulable: bool,
    validName: Option<string -> bool>,
    validPlatform: Option<string -> bool>,
    validType: Option<string -> bool>,
    validShareMode: Option<string -> bool>,
    validShareStatus: Option<string -> bool>,
    validStatus: Option<string -> bool>,
    validSessionWindowStatus: Option<string -> bool>)

  function OrElse<T>(a: Option<T>, b: Option<T>): Option<T> {
    if a.Some? then a else b
  }

  // ---------- defaults ----------

  /** The first column, in the order of defaults, that is unset and has no default to call. */
  function Unfillable(rt: Runtime, m: Mutation): Option<Column> {
    if OrElse(m.createdAt, rt.createdAt).None? then Some(CreatedAt)
    else if OrElse(m.updatedAt, rt.updatedAt).None? then Some(UpdatedAt)
    else if OrElse(m.credentials, rt.credentials).None? then Some(Credentials)
    else if OrElse(m.extra, rt.extra).None? then Some(Extra)
    else None
  }

  function BeforeStates(rt: Runtime, m: Mutation): Mutation {
    m.(shareMode := OrElse(m.shareMode, Some(rt.shareMode)), shareStatus := OrElse(m.shareStatus, Some(rt.shareStatus)),
       concurrency := OrElse(m.concurrency, Some(rt.concurrency)), priority := OrElse(m.priority, Some(rt.priority)))
  }

  function FilledStates(rt: Runtime, m: Mutation): Mutation {
    m.(rateMultiplier := OrElse(m.rateMultiplier, Some(rt.rateMultiplier)), status := OrElse(m.status, Some(rt.status)),
       autoPauseOnExpired := OrElse(m.autoPauseOnExpired, Some(rt.autoPauseOnExpired)),
       schedulable := OrElse(m.schedulable, Some(rt.schedulable)))
  }

  /** The fields whose default is a plain value. */
  function FilledConstants(rt: Runtime, m: Mutation): Mutation {
    FilledStates(rt, BeforeStates(rt, m))
  }

  /** The mutation that defaults leaves: filled up to the column it fails on, or all through. */
  function Filled(rt: Runtime, m: Mutation): Mutation {
    match Unfillable(rt, m)
    case Some(CreatedAt) => m
    case Some(UpdatedAt) => m.(createdAt := OrElse(m.createdAt, rt.createdAt))
    case Some(Credentials) =>
      m.(createdAt := OrElse(m.createdAt, rt.createdAt), updatedAt := OrElse(m.updatedAt, rt.updatedAt))
    case Some(_) =>
      m.(createdAt := OrElse(m.createdAt, rt.createdAt), updatedAt := OrElse(m.updatedAt, rt.updatedAt),
         credentials := OrElse(m.credentials, rt.credentials))
    case None =>
      FilledConstants(rt,
        m.(createdAt := OrElse(m.createdAt, rt.createdAt), updatedAt := OrElse(m.updatedAt, rt.updatedAt),
           credentials := OrElse(m.credentials, rt.credentials), extra := OrElse(m.extra, rt.extra)))
  }

  // ---------- defaults, column by column ----------

  /** The runtime's default of a column, as createSpec would store it. */
  function DefaultOf(rt: Runtime, c: Column): Option<FieldSpec> {
    match c
    case CreatedAt => if rt.createdAt.Some? then Some(FieldSpec(TypeTime, TimeValue(rt.createdAt.value))) else None
    case UpdatedAt => if rt.updatedAt.Some? then Some(FieldSpec(TypeTime, TimeValue(rt.updatedAt.value))) else None
    case Credentials =>
      if rt.credentials.Some? then Some(FieldSpec(TypeJSON, JsonValue(rt.credentials.value))) else None
    case Extra => if rt.extra.Some? then Some(FieldSpec(TypeJSON, JsonValue(rt.extra.value))) else None
    case ShareMode => Some(FieldSpec(TypeString, StringValue(rt.shareMode)))
    case ShareStatus => Some(FieldSpec(TypeString, StringValue(rt.shareStatus)))
    case Concurrency => Some(FieldSpec(TypeInt, IntValue(rt.concurrency)))
    case Priority => Some(FieldSpec(TypeInt, IntValue(rt.priority)))
    case RateMultiplier => Some(FieldSpec(TypeFloat64, FloatValue(rt.rateMultiplier)))
    case Status => Some(FieldSpec(TypeString, StringValue(rt.status)))
    case AutoPauseOnExpired => Some(FieldSpec(TypeBool, BoolValue(rt.autoPauseOnExpired)))
    case Schedulable => Some(FieldSpec(TypeBool, BoolValue(rt.schedulable)))
    case _ => None
  }

  const TURNS := 12

  /** The place of a column among those that have a default. */
  function Turn(c: Column): nat {
    match c
    case CreatedAt => 0
    case UpdatedAt => 1
    case Credentials => 2
    case Extra => 3
    case ShareMode => 4
    case ShareStatus => 5
    case Concurrency => 6
    case Priority => 7
    case RateMultiplier => 8
    case Status => 9
    case AutoPauseOnExpired => 10
    case Schedulable => 11
    case _ => TURNS
  }

  /** The columns before turn k that were unset hold their own default; all else is as before. */
  ghost predicate FilledTo(rt: Runtime, m: Mutation, m': Mutation, k: nat) {
    && (forall c :: SpecField(m', c) ==
                    if Turn(c) < k && SpecField(m, c).None? then DefaultOf(rt, c) else SpecField(m, c))
    && m'.groups == m.groups && m'.proxy == m.proxy && m'.owner == m.owner && m'.usageLogs == m.usageLogs
  }

  /** Where defaults stops: at the turn of the column that it reports, or after the last. */
  function FailsAt(err: Option<Column>): nat {
    if err.Some? then Turn(err.value) else TURNS
  }

  predicate FilledAt(rt: Runtime, m: Mutation, c: Column) {
    SpecField(Filled(rt, m), c) ==
    if Turn(c) < FailsAt(Unfillable(rt, m)) && SpecField(m, c).None? then DefaultOf(rt, c) else SpecField(m, c)
  }

  /** Column c is the first, in turn, that is unset and has no default; or there is none. */
  ghost predicate FirstLacking(rt: Runtime, m: Mutation, err: Option<Column>) {
    var end := if err.Some? then Turn(err.value) else TURNS;
    && (err.Some? ==> end < TURNS && SpecField(m, err.value).None? && DefaultOf(rt, err.value).None?)
    && forall c :: Turn(c) < end ==> SpecField(m, c).Some? || DefaultOf(rt, c).Some?
  }

  lemma FilledTimes(rt: Runtime, m: Mutation, c: Column)
    requires Turn(c) < 4
    ensures FilledAt(rt, m, c)
  {
    match c {
      case CreatedAt => case UpdatedAt => case Credentials => case Extra => case _ =>
    }
  }

  lemma FilledPlain(rt: Runtime, m: Mutation, c: Column)
    requires 4 <= Turn(c) < TURNS
    ensures FilledAt(rt, m, c)
  {
    match c {
      case ShareMode => case ShareStatus => case Concurrency => case Priority => case RateMultiplier => case Status =>
      case AutoPauseOnExpired => case Schedulable => case _ =>
    }
  }

  lemma FilledNever(rt: Runtime, m: Mutation, c: Column)
    requires Turn(c) == TURNS
    ensures FilledAt(rt, m, c)
  {
    match c {
      case ID => case DeletedAt => case Name => case Notes => case Platform => case Type => case OwnerUserID =>
      case SharePolicyID => case ProxyID => case LoadFactor => case ErrorMessage => case LastUsedAt =>
      case ExpiresAt => case RateLimitedAt => case RateLimitResetAt => case OverloadUntil =>
      case TempUnschedulableUntil => case TempUnschedulableReason => case SessionWindowStart =>
      case SessionWindowEnd => case SessionWindowStatus => case Other(_) => case _ =>
    }
  }

  lemma LackingColumn(rt: Runtime, m: Mutation)
    ensures FirstLacking(rt, m, Unfillable(rt, m))
  {
  }

  lemma EdgesUntouched(rt: Runtime, m: Mutation)
    ensures
      var m' := Filled(rt, m);
      m'.groups == m.groups && m'.proxy == m.proxy && m'.owner == m.owner && m'.usageLogs == m.usageLogs
  {
  }

  lemma FilledColumns(rt: Runtime, m: Mutation)
    ensures FilledTo(rt, m, Filled(rt, m), FailsAt(Unfillable(rt, m)))
  {
    hide Filled, Unfillable, SpecField, DefaultOf;
    EdgesUntouched(rt, m);
    forall c
      ensures
        SpecField(Filled(rt, m), c) ==
        if Turn(c) < FailsAt(Unfillable(rt, m)) && SpecField(m, c).None? then DefaultOf(rt, c) else SpecField(m, c)
    {
      if Turn(c) < 4 {
        FilledTimes(rt, m, c);
      } else if Turn(c) < TURNS {
        FilledPlain(rt, m, c);
      } else {
        FilledNever(rt, m, c);
      }
    }
  }

  /** The builder, as far as defaults and check use it. */
  class AccountCreate {
    var mutation: Mutation

    constructor (mutation: Mutation)
      ensures this.mutation == mutation
    {
      this.mutation := mutation;
    }

    /**
     Gives each unset column, in turn, its own default, and fails on the first that has none;
     columns after that one, set columns and edges are left alone.
     */
    method Defaults(rt: Runtime) returns (err: Option<Column>)
      modifies this
      ensures FirstLacking(rt, old(mutation), err)
      ensures FilledTo(rt, old(mutation), mutation, FailsAt(err))
      ensures err == Unfillable(rt, old(mutation)) && mutation == Filled(rt, old(mutation))
    {
      hide FirstLacking, FilledTo, FilledConstants;
      LackingColumn(rt, mutation);
      FilledColumns(rt, mutation);
      if mutation.createdAt.None? {
        if rt.createdAt.None? { return Some(CreatedAt); }
        mutation := mutation.(createdAt := rt.createdAt);
      }
      if mutation.updatedAt.None? {
        if rt.updatedAt.None? { return Some(UpdatedAt); }
        mutation := mutation.(updatedAt := rt.updatedAt);
      }
      if mutation.credentials.None? {
        if rt.credentials.None? { return Some(Credentials); }
        mutation := mutation.(credentials := rt.credentials);
      }
      if mutation.extra.None? {
        if rt.extra.None? { return Some(Extra); }
        mutation := mutation.(extra := rt.extra);
      }
      FillConstants(rt);
      return None;
    }

    /** The plain values, in the order of defaults. */
    method FillConstants(rt: Runtime)
      modifies this
      ensures mutation == FilledConstants(rt, old(mutation))
    {
      if mutation.shareMode.None? { mutation := mutation.(shareMode := Some(rt.shareMode)); }
      if mutation.shareStatus.None? { mutation := mutation.(shareStatus := Some(rt.shareStatus)); }
      if mutation.concurrency.None? { mutation := mutation.(concurrency := Some(rt.concurrency)); }
      if mutation.priority.None? { mutation := mutation.(priority := Some(rt.priority)); }
      FillStates(rt);
    }

    method FillStates(rt: Runtime)
      modifies this
      ensures mutation == FilledStates(rt, old(mutation))
    {
      if mutation.rateMultiplier.None? { mutation := mutation.(rateMultiplier := Some(rt.rateMultiplier)); }
      if mutation.status.None? { mutation := mutation.(status := Some(rt.status)); }
      if mutation.autoPauseOnExpired.None? {
        mutation := mutation.(autoPauseOnExpired := Some(rt.autoPauseOnExpired));
      }
      if mutation.schedulable.None? { mutation := mutation.(schedulable := Some(rt.schedulable)); }
    }
  }

  // ---------- check ----------

  datatype Checked = Passed | Missing(column: Column) | Invalid(column: Column) | Panics

  /** Goes on to `rest` if the value satisfies the validator. */
  function Validate(v: Option<string -> bool>, s: string, c: Column, rest: Checked): Checked {
    if v.None? then Panics else if !v.value(s) then Invalid(c) else rest
  }

  function Check(rt: Runtime, m: Mutation): Checked {
    if m.createdAt.None? then Missing(CreatedAt)
    else if m.updatedAt.None? then Missing(UpdatedAt)
    else if m.name.None? then Missing(Name)
    else Validate(rt.validName, m.name.value, Name,
      if m.platform.None? then Missing(Platform)
      else Validate(rt.validPlatform, m.platform.value, Platform,
        if m.typ.None? then Missing(Type)
        else Validate(rt.validType, m.typ.value, Type,
          if m.credentials.None? then Missing(Credentials)
          else if m.extra.None? then Missing(Extra)
          else if m.shareMode.None? then Missing(ShareMode)
          else Validate(rt.validShareMode, m.shareMode.value, ShareMode,
            if m.shareStatus.None? then Missing(ShareStatus)
            else Validate(rt.validShareStatus, m.shareStatus.value, ShareStatus,
              if m.concurrency.None? then Missing(Concurrency)
              else if m.priority.None? then Missing(Priority)
              else if m.rateMultiplier.None? then Missing(RateMultiplier)
              else if m.status.None? then Missing(Status)
              else Validate(rt.validStatus, m.status.value, Status,
                if m.autoPauseOnExpired.None? then Missing(AutoPauseOnExpired)
                else if m.schedulable.None? then Missing(Schedulable)
                else if m.sessionWindowStatus.None? then Passed
                else
                  Validate(rt.validSessionWindowStatus, m.sessionWindowStatus.value, SessionWindowStatus, Passed)))))))
  }

  /** A set string that its validator accepts. */
  predicate Accepts(v: Option<string -> bool>, s: Option<string>) {
    s.Some? && v.Some? && v.value(s.value)
  }

  /** Everything check asks for, in no order. */
  predicate Complete(rt: Runtime, m: Mutation) {
    && m.createdAt.Some? && m.updatedAt.Some? && m.credentials.Some? && m.extra.Some?
    && m.concurrency.Some? && m.priority.Some? && m.rateMultiplier.Some?
    && m.autoPauseOnExpired.Some? && m.schedulable.Some?
    && Accepts(rt.validName, m.name) && Accepts(rt.validPlatform, m.platform) && Accepts(rt.validType, m.typ)
    && Accepts(rt.validShareMode, m.shareMode) && Accepts(rt.validShareStatus, m.shareStatus)
    && Accepts(rt.validStatus, m.status)
    && (m.sessionWindowStatus.Some? ==> Accepts(rt.validSessionWindowStatus, m.sessionWindowStatus))
  }

  /** check passes exactly the complete mutations. */
  lemma CheckPasses(rt: Runtime, m: Mutation)
    ensures Check(rt, m).Passed? <==> Complete(rt, m)
  {
  }

  // ---------- check, column by column ----------

  /** The validator of a column that has one. */
  function Validator(rt: Runtime, c: Column): Option<Option<string -> bool>> {
    match c
    case Name => Some(rt.validName)
    case Platform => Some(rt.validPlatform)
    case Type => Some(rt.validType)
    case ShareMode => Some(rt.validShareMode)
    case ShareStatus => Some(rt.validShareStatus)
    case Status => Some(rt.validStatus)
    case SessionWindowStatus => Some(rt.validSessionWindowStatus)
    case _ => None
  }

  const PLACES := 16

  /** The place of a column among those that check looks at. */
  function Place(c: Column): nat {
    match c
    case CreatedAt => 0
    case UpdatedAt => 1
    case Name => 2
    case Platform => 3
    case Type => 4
    case Credentials => 5
    case Extra => 6
    case ShareMode => 7
    case ShareStatus => 8
    case Concurrency => 9
    case Priority => 10
    case RateMultiplier => 11
    case Status => 12
    case AutoPauseOnExpired => 13
    case Schedulable => 14
    case SessionWindowStatus => 15
    case _ => PLACES
  }

  /** What is wrong with one column by itself: every column but the last must be set, and a set one valid. */
  function Problem(rt: Runtime, m: Mutation, c: Column): Checked {
    if Place(c) == PLACES then Passed
    else
      match SpecField(m, c)
      case None => if c.SessionWindowStatus? then Passed else Missing(c)
      case Some(f) =>
        if Validator(rt, c).None? || !f.value.StringValue? then Passed
        else Validate(Validator(rt, c).value, f.value.s, c, Passed)
  }

  lemma FirstPassed(rt: Runtime, m: Mutation, k: nat)
    requires forall d :: Place(d) < k ==> Problem(rt, m, d).Passed?
    ensures k > 0 ==> m.createdAt.Some?
    ensures k > 1 ==> m.updatedAt.Some?
    ensures k > 2 ==> Accepts(rt.validName, m.name)
    ensures k > 3 ==> Accepts(rt.validPlatform, m.platform)
  {
    assert Place(CreatedAt) == 0;
    assert Place(UpdatedAt) == 1;
    assert Place(Name) == 2;
    assert Place(Platform) == 3;
  }

  lemma SecondPassed(rt: Runtime, m: Mutation, k: nat)
    requires forall d :: Place(d) < k ==> Problem(rt, m, d).Passed?
    ensures k > 4 ==> Accepts(rt.validType, m.typ)
    ensures k > 5 ==> m.credentials.Some?
    ensures k > 6 ==> m.extra.Some?
    ensures k > 7 ==> Accepts(rt.validShareMode, m.shareMode)
  {
    assert Place(Type) == 4;
    assert Place(Credentials) == 5;
    assert Place(Extra) == 6;
    assert Place(ShareMode) == 7;
  }

  lemma ThirdPassed(rt: Runtime, m: Mutation, k: nat)
    requires forall d :: Place(d) < k ==> Problem(rt, m, d).Passed?
    ensures k > 8 ==> Accepts(rt.validShareStatus, m.shareStatus)
    ensures k > 9 ==> m.concurrency.Some?
    ensures k > 10 ==> m.priority.Some?
    ensures k > 11 ==> m.rateMultiplier.Some?
  {
    assert Place(ShareStatus) == 8;
    assert Place(Concurrency) == 9;
    assert Place(Priority) == 10;
    assert Place(RateMultiplier) == 11;
  }

  lemma LastPassed(rt: Runtime, m: Mutation, k: nat)
    requires forall d :: Place(d) < k ==> Problem(rt, m, d).Passed?
    ensures k > 12 ==> Accepts(rt.validStatus, m.status)
    ensures k > 13 ==> m.autoPauseOnExpired.Some?
    ensures k > 14 ==> m.schedulable.Some?
    ensures k > 15 ==> (m.sessionWindowStatus.Some? ==> Accepts(rt.validSessionWindowStatus, m.sessionWindowStatus))
  {
    assert Place(Status) == 12;
    assert Place(AutoPauseOnExpired) == 13;
    assert Place(Schedulable) == 14;
    assert Place(SessionWindowStatus) == 15;
  }

  /** What the columns before place k say about the mutation. */
  lemma PassedBefore(rt: Runtime, m: Mutation, k: nat)
    requires forall d :: Place(d) < k ==> Problem(rt, m, d).Passed?
    ensures k > 0 ==> m.createdAt.Some?
    ensures k > 1 ==> m.updatedAt.Some?
    ensures k > 2 ==> Accepts(rt.validName, m.name)
    ensures k > 3 ==> Accepts(rt.validPlatform, m.platform)
    ensures k > 4 ==> Accepts(rt.validType, m.typ)
    ensures k > 5 ==> m.credentials.Some?
    ensures k > 6 ==> m.extra.Some?
    ensures k > 7 ==> Accepts(rt.validShareMode, m.shareMode)
    ensures k > 8 ==> Accepts(rt.validShareStatus, m.shareStatus)
    ensures k > 9 ==> m.concurrency.Some?
    ensures k > 10 ==> m.priority.Some?
    ensures k > 11 ==> m.rateMultiplier.Some?
    ensures k > 12 ==> Accepts(rt.validStatus, m.status)
    ensures k > 13 ==> m.autoPauseOnExpired.Some?
    ensures k > 14 ==> m.schedulable.Some?
    ensures k > 15 ==> (m.sessionWindowStatus.Some? ==> Accepts(rt.validSessionWindowStatus, m.sessionWindowStatus))
  {
    hide Problem, Place;
    FirstPassed(rt, m, k);
    SecondPassed(rt, m, k);
    ThirdPassed(rt, m, k);
    LastPassed(rt, m, k);
  }

  lemma EarlyProblem(rt: Runtime, m: Mutation, c: Column)
    requires !Problem(rt, m, c).Passed? && Place(c) < PLACES && Place(c) < 8
    requires forall d :: Place(d) < Place(c) ==> Problem(rt, m, d).Passed?
    ensures Check(rt, m) == Problem(rt, m, c)
  {
    PassedBefore(rt, m, Place(c));
    match c {
      case CreatedAt => case UpdatedAt => case Name => case Platform => case Type => case Credentials =>
      case Extra => case ShareMode =>
      case _ =>
    }
  }

  lemma LateProblem(rt: Runtime, m: Mutation, c: Column)
    requires !Problem(rt, m, c).Passed? && Place(c) < PLACES && Place(c) >= 8
    requires forall d :: Place(d) < Place(c) ==> Problem(rt, m, d).Passed?
    ensures Check(rt, m) == Problem(rt, m, c)
  {
    PassedBefore(rt, m, Place(c));
    match c {
      case ShareStatus => case Concurrency => case Priority => case RateMultiplier => case Status =>
      case AutoPauseOnExpired => case Schedulable => case SessionWindowStatus =>
      case _ =>
    }
  }

  lemma InPlace(rt: Runtime, m: Mutation, c: Column)
    requires !Problem(rt, m, c).Passed?
    ensures Place(c) < PLACES
  {
    hide SpecField, Validator;
  }

  /** check reports the first column, in its order, with which something is wrong. */
  lemma CheckReportsFirst(rt: Runtime, m: Mutation, c: Column)
    requires !Problem(rt, m, c).Passed? && forall d :: Place(d) < Place(c) ==> Problem(rt, m, d).Passed?
    ensures Check(rt, m) == Problem(rt, m, c)
  {
    hide Check, SpecField, Validator;
    InPlace(rt, m, c);
    if Place(c) < 8 {
      EarlyProblem(rt, m, c);
    } else {
      LateProblem(rt, m, c);
    }
  }

  /** With nothing wrong, it passes. */
  lemma CheckPassesAll(rt: Runtime, m: Mutation)
    requires forall c :: Problem(rt, m, c).Passed?
    ensures Check(rt, m).Passed?
  {
    hide Problem, Check;
    PassedBefore(rt, m, PLACES);
    CheckPasses(rt, m);
  }

  /** Whenever defaults fails, check does not pass on the mutation it left. */
  lemma FailedDefaultsFailCheck(rt: Runtime, m: Mutation)
    requires Unfillable(rt, m).Some?
    ensures !Check(rt, Filled(rt, m)).Passed?
  {
    CheckPasses(rt, Filled(rt, m));
  }

  /**
   When defaults succeeds, check passes exactly when the caller set the three fields that
   have no default, and the validators accept what was set or filled in.
   */
  lemma DefaultsThenCheck(rt: Runtime, m: Mutation)
    requires Unfillable(rt, m).None?
    ensures Check(rt, Filled(rt, m)).Passed? <==>
      && Accepts(rt.validName, m.name) && Accepts(rt.validPlatform, m.platform) && Accepts(rt.validType, m.typ)
      && Accepts(rt.validShareMode, OrElse(m.shareMode, Some(rt.shareMode)))
      && Accepts(rt.validShareStatus, OrElse(m.shareStatus, Some(rt.shareStatus)))
      && Accepts(rt.validStatus, OrElse(m.status, Some(rt.status)))
      && (m.sessionWindowStatus.Some? ==> Accepts(rt.validSessionWindowStatus, m.sessionWindowStatus))
  {
    CheckPasses(rt, Filled(rt, m));
  }

  lemma TimesKept(rt: Runtime, m: Mutation, c: Column)
    requires SpecField(m, c).Some?
    ensures SpecField(m.(createdAt := OrElse(m.createdAt, rt.createdAt)), c) == SpecField(m, c)
    ensures
      SpecField(
        m.(createdAt := OrElse(m.createdAt, rt.createdAt), updatedAt := OrElse(m.updatedAt, rt.updatedAt)), c) ==
      SpecField(m, c)
  {
    match c { case CreatedAt => case UpdatedAt => case _ => }
  }

  lemma JsonKept(rt: Runtime, m: Mutation, c: Column)
    requires SpecField(m, c).Some?
    ensures SpecField(m.(credentials := OrElse(m.credentials, rt.credentials)), c) == SpecField(m, c)
    ensures
      SpecField(m.(credentials := OrElse(m.credentials, rt.credentials), extra := OrElse(m.extra, rt.extra)), c) ==
      SpecField(m, c)
  {
    match c { case Credentials => case Extra => case _ => }
  }

  lemma ConstantsKept(rt: Runtime, m: Mutation, c: Column)
    requires SpecField(m, c).Some?
    ensures SpecField(BeforeStates(rt, m), c) == SpecField(m, c)
  {
    match c { case ShareMode => case ShareStatus => case Concurrency => case Priority => case _ => }
  }

  lemma StatesKept(rt: Runtime, m: Mutation, c: Column)
    requires SpecField(m, c).Some?
    ensures SpecField(FilledStates(rt, m), c) == SpecField(m, c)
  {
    match c { case RateMultiplier => case Status => case AutoPauseOnExpired => case Schedulable => case _ => }
  }

  /** defaults overwrites nothing that the caller set. */
  lemma DefaultsKeepSetFields(rt: Runtime, m: Mutation, c: Column)
    requires SpecField(m, c).Some?
    ensures SpecField(Filled(rt, m), c) == SpecField(m, c)
  {
    hide SpecField, BeforeStates, FilledStates;
    var m1 := m.(createdAt := OrElse(m.createdAt, rt.createdAt), updatedAt := OrElse(m.updatedAt, rt.updatedAt));
    var m2 := m1.(credentials := OrElse(m.credentials, rt.credentials));
    var m3 := m2.(extra := OrElse(m.extra, rt.extra));
    TimesKept(rt, m, c);
    JsonKept(rt, m1, c);
    ConstantsKept(rt, m3, c);
    StatesKept(rt, BeforeStates(rt, m3), c);
  }

  // ---------- bulk creation drops the error of defaults ----------

  /** The environment in which the bulk chain of accounts runs; a panic in check ends it like an error. */
  function AccountEnv(rt: Runtime, insert: seq<Option<Mutation>> -> Inserted): Env<Mutation, AccountRecord, Mutation> {
    Env((m: Mutation) => if Check(rt, m).Passed? then None else Some(CheckFailed("account")),
        CreateNode,
        (m: Mutation) => m,
        insert)
  }

  /** One of the four columns whose default is a function that may never have been filled in. */
  predicate LacksDefault(rt: Runtime, m: Mutation) {
    || (m.createdAt.None? && rt.createdAt.None?) || (m.updatedAt.None? && rt.updatedAt.None?)
    || (m.credentials.None? && rt.credentials.None?) || (m.extra.None? && rt.extra.None?)
  }

  /** The hook never sets one of those columns in place when it is unset. */
  ghost predicate FillsNothing(rt: Runtime, h: Hook<Mutation>) {
    forall m :: LacksDefault(rt, m) && h.before(m).Forward? ==> LacksDefault(rt, h.before(m).edited)
  }

  lemma LackingFails(rt: Runtime, m: Mutation)
    requires LacksDefault(rt, m)
    ensures !Check(rt, m).Passed?
  {
    CheckPasses(rt, m);
  }

  ghost predicate FillingNothing(rt: Runtime, m: Mutator<Mutation>) {
    m.Hooked? ==> FillsNothing(rt, m.hook) && FillingNothing(rt, m.next)
  }

  /** A builder that lacks a default is never ready, whatever mutation its hooks pass on. */
  lemma {:induction false} LackingNeverReady(
    rt: Runtime, env: Env<Mutation, AccountRecord, Mutation>, m: Mutator<Mutation>, own: Mutation,
    passed: Passed<Mutation>)
    requires forall f :: env.check(f).None? <==> Check(rt, f).Passed?
    requires LacksDefault(rt, own) && FillingNothing(rt, m)
    ensures Ready(env, m, own, passed).None?
    decreases m
  {
    match m
    case Link(_) => LackingFails(rt, own);
    case Hooked(_, hook, next) =>
      hide Check, LacksDefault;
      var d := hook.before(if passed.Own? then own else passed.fields);
      if d.Forward? && passed.Own? {
        LackingNeverReady(rt, env, next, d.edited, Own);
      } else if d.Forward? {
        LackingNeverReady(rt, env, next, own, Fresh(d.edited));
      } else if d.Replace? {
        LackingNeverReady(rt, env, next, own, Fresh(d.fields));
      }
  }

  lemma {:induction false} WrapFillingNothing(rt: Runtime, hooks: seq<Hook<Mutation>>, i: nat, h: nat)
    requires h <= |hooks| && forall k :: 0 <= k < |hooks| ==> FillsNothing(rt, hooks[k])
    ensures FillingNothing(rt, Wrap(hooks, i, h))
    decreases |hooks| - h
  {
    hide FillsNothing;
    if h == |hooks| {
    } else {
      WrapFillingNothing(rt, hooks, i, h + 1);
    }
  }

  lemma NotReady<F, N, S>(env: Env<F, N, S>, held: seq<Held<F>>, hooks: seq<seq<Hook<F>>>, j: nat)
    requires |held| == |hooks| && j < |held| && Ready(env, Wrap(hooks[j], j, 0), held[j].fields, Own).None?
    ensures !EveryBuilderReady(env, held, hooks)
  {
    assert Alone(env, held, hooks, j).None?;
  }

  /**
   Bulk creation drops the error of defaults, and still rejects the batch: if defaults
   fails for some builder, and the hooks are honest and do not fill in the missing field,
   then Save inserts nothing and returns an error.
   */
  lemma DroppedDefaultsErrorIsHarmless(
    rt: Runtime, insert: seq<Option<Mutation>> -> Inserted, mutations: seq<Mutation>,
    held: seq<Held<Mutation>>, hooks: seq<seq<Hook<Mutation>>>, j: nat)
    requires |mutations| == |held| == |hooks| && j < |held| && Unfillable(rt, mutations[j]).Some?
    requires forall i :: 0 <= i < |held| ==> held[i] == Held(Filled(rt, mutations[i]), None, false)
    requires HonestHooks(hooks)
    requires forall h :: 0 <= h < |hooks[j]| ==> FillsNothing(rt, hooks[j][h])
    ensures
      var (st, r) := BulkChain.Save(AccountEnv(rt, insert), held, hooks);
      r.Err? && st.batches == []
  {
    var env := AccountEnv(rt, insert);
    var own := held[j].fields;
    assert LacksDefault(rt, own);
    assert forall f :: env.check(f).None? <==> Check(rt, f).Passed? by {
      hide Check;
    }
    hide *;
    WrapFillingNothing(rt, hooks[j], j, 0);
    LackingNeverReady(rt, env, Wrap(hooks[j], j, 0), own, Own);
    NotReady(env, held, hooks, j);
    SaveAllOrNothing(env, held, hooks);
  }
}
