/**
 The columns of the join query of loadGroups (backend/ent/account_query.go) and what its
 callbacks read from them, with querySpec and scanValues of backend/ent/group_query.go and
 backend/ent/group.go.

 Each join predicate puts the account's column in front of the columns selected so far. The
 callbacks expect it in front once: the first value is the account, the second the group.
 */
module GroupScan {
  import opened Common
  import opened GroupJoin
  import opened RowCodec
  import opened Projection
  import opened QueryBuilder

  // ---------- the selected columns ----------

  const GROUP_ID := "id"

  const ACCOUNT_KEY := "account_id"

  /** group.Columns. */
  const GROUP_COLUMNS: seq<string> := [
    GROUP_ID, "created_at", "updated_at", "deleted_at", "name", "description", "rate_multiplier", "is_exclusive",
    "status", "owner_user_id", "scope", "platform", "subscription_type", "daily_limit_usd", "weekly_limit_usd",
    "monthly_limit_usd", "default_validity_days", "image_price_1k", "image_price_2k", "image_price_4k",
    "claude_code_only", "fallback_group_id", "fallback_group_id_on_invalid_request", "model_routing",
    "model_routing_enabled", "mcp_xml_inject", "supported_model_scopes", "sort_order", "allow_messages_dispatch",
    "require_oauth_only", "require_privacy_set", "default_mapped_model", "messages_dispatch_model_config", "rpm_limit"]

  /** The columns of a group query before its predicates run. */
  function GroupColumns(fields: seq<string>): seq<string> {
    if fields == [] then GROUP_COLUMNS else [GROUP_ID] + Without(fields, GROUP_ID)
  }

  /** What one predicate does to the selected columns; a caller's predicates leave them alone. */
  function Selecting(columns: seq<string>, p: Predicate): seq<string> {
    if p.JoinedTo? then [ACCOUNT_KEY] + columns else columns
  }

  function Selection(fields: seq<string>, ps: seq<Predicate>): seq<string> {
    if ps == [] then GroupColumns(fields) else Selecting(Selection(fields, ps[..|ps| - 1]), ps[|ps| - 1])
  }

  /** The selector of a group query: its columns, and then its predicates in order. */
  method SelectColumns(fields: seq<string>, ps: seq<Predicate>) returns (columns: seq<string>)
    ensures columns == Selection(fields, ps)
  {
    hide Selecting;
    columns := GROUP_COLUMNS;
    if |fields| > 0 {
      columns := IDFirst(fields, GROUP_ID);
    }
    for i := 0 to |ps|
      invariant columns == Selection(fields, ps[..i])
    {
      assert ps[..i + 1][..i] == ps[..i];
      columns := Selecting(columns, ps[i]);
    }
    assert ps[..|ps|] == ps;
  }

  // ---------- the callbacks ----------

  const BYTES_COLUMNS: set<string> := {"model_routing", "supported_model_scopes", "messages_dispatch_model_config"}

  const BOOL_COLUMNS: set<string> := {
    "is_exclusive", "claude_code_only", "model_routing_enabled", "mcp_xml_inject", "allow_messages_dispatch",
    "require_oauth_only", "require_privacy_set"}

  const FLOAT_COLUMNS: set<string> := {
    "rate_multiplier", "daily_limit_usd", "weekly_limit_usd", "monthly_limit_usd", "image_price_1k",
    "image_price_2k", "image_price_4k"}

  const INT_COLUMNS: set<string> := {
    GROUP_ID, "owner_user_id", "default_validity_days", "fallback_group_id", "fallback_group_id_on_invalid_request",
    "sort_order", "rpm_limit"}

  const STRING_COLUMNS: set<string> := {
    "name", "description", "status", "scope", "platform", "subscription_type", "default_mapped_model"}

  const TIME_COLUMNS: set<string> := {"created_at", "updated_at", "deleted_at"}

  /** Group.scanValues on one column. */
  function GroupSlot(column: string): Slot {
    if column in INT_COLUMNS then NullInt64(false, 0)
    else if column in BYTES_COLUMNS then RawBytes([])
    else if column in BOOL_COLUMNS then NullBool(false, false)
    else if column in FLOAT_COLUMNS then NullFloat64(false, 0.0)
    else if column in STRING_COLUMNS then NullString(false, "")
    else if column in TIME_COLUMNS then NullTime(false, 0)
    else UnknownType
  }

  /** The ScanValues callback: a destination for the account, and then those of the group. */
  function Destinations(columns: seq<string>): (slots: seq<Slot>)
    requires columns != []
    ensures |slots| == |columns|
  {
    [NullInt64(false, 0)] + Map(columns[1..], GroupSlot)
  }

  /** The Assign callback finds integers in its first two values. */
  predicate Aligned(columns: seq<string>) {
    |columns| >= 2 && Destinations(columns)[0].NullInt64? && Destinations(columns)[1].NullInt64?
  }

  /** The callbacks run on each row; a type assertion that fails is a panic. */
  method ScanJoin(columns: seq<string>, rows: seq<JoinRow>) returns (ok: bool)
    requires columns != []
    ensures ok <==> rows == [] || Aligned(columns)
  {
    hide GroupSlot;
    for i := 0 to |rows|
      invariant i > 0 ==> Aligned(columns)
    {
      var values := Destinations(columns);
      if |values| < 2 || !values[0].NullInt64? || !values[1].NullInt64? {
        return false;
      }
    }
    return true;
  }

  // ---------- how far the columns are shifted ----------

  /** How many join predicates there are. */
  function Joins(ps: seq<Predicate>): nat {
    if ps == [] then 0 else Joins(ps[..|ps| - 1]) + if ps[|ps| - 1].JoinedTo? then 1 else 0
  }

  lemma {:induction false} JoinsAppend(ps: seq<Predicate>, qs: seq<Predicate>)
    ensures Joins(ps + qs) == Joins(ps) + Joins(qs)
  {
    if qs == [] {
      assert ps + qs == ps;
    } else {
      JoinsAppend(ps, qs[..|qs| - 1]);
      assert (ps + qs)[..|ps + qs| - 1] == ps + qs[..|qs| - 1];
    }
  }

  lemma {:induction false} JoinsAll(ps: seq<Predicate>)
    requires forall p :: p in ps ==> p.JoinedTo?
    ensures Joins(ps) == |ps|
  {
    if ps == [] {
    } else {
      JoinsAll(ps[..|ps| - 1]);
    }
  }

  /** The account's column stands in front as often as there are joins, and then the id of the group. */
  lemma {:induction false} SelectionShape(fields: seq<string>, ps: seq<Predicate>)
    ensures |Selection(fields, ps)| > Joins(ps)
    ensures forall i :: 0 <= i < Joins(ps) ==> Selection(fields, ps)[i] == ACCOUNT_KEY
    ensures Selection(fields, ps)[Joins(ps)] == GROUP_ID
  {
    if ps == [] {
    } else {
      SelectionShape(fields, ps[..|ps| - 1]);
    }
  }

  lemma KeyIsUnknown()
    ensures GroupSlot(GROUP_ID).NullInt64? && !GroupSlot(ACCOUNT_KEY).NullInt64?
  {
  }

  /** The callbacks of a query with join predicates read what they expect exactly when there is one of them. */
  lemma AlignedIffOneJoin(fields: seq<string>, ps: seq<Predicate>)
    requires Joins(ps) > 0
    ensures Aligned(Selection(fields, ps)) <==> Joins(ps) == 1
  {
    SelectionShape(fields, ps);
    KeyIsUnknown();
    hide Selection, Joins, GroupSlot;
    var columns := Selection(fields, ps);
    assert Destinations(columns)[1] == GroupSlot(columns[1]);
  }
}
