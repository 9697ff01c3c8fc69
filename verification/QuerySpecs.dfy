/**
 What a builder asks the database for: querySpec and prepareQuery of
 backend/ent/account_query.go, and what IDs leaves behind.
 */
module QuerySpecs {
  import opened Common
  import opened RowCodec
  import opened Projection
  import opened QueryBuilder

  datatype QuerySpec = QuerySpec(
    columns: seq<Column>, unique: bool, predicates: seq<Predicate>, order: seq<string>, limit: nat, offset: nat,
    modifiers: seq<string>, from: Option<string>)

  // ---------- querySpec ----------

  function OrZero(n: Option<nat>): nat {
    if n.Some? then n.value else 0
  }

  function SpecOf(v: AccountView): QuerySpec {
    var b := v.base;
    QuerySpec(
      AccountColumns(b.ctx.fields, v.proxy.Some?, v.owner.Some?),
      if b.ctx.unique.Some? then b.ctx.unique.value else b.path.Some?,
      b.predicates, b.order, OrZero(b.ctx.limit), OrZero(b.ctx.offset), b.modifiers, b.sql)
  }

  /** querySpec, with the modifiers that sqlAll adds. */
  method BuildSpec(q: AccountQuery) returns (spec: QuerySpec)
    requires q.Valid()
    ensures spec == SpecOf(q.View())
  {
    hide AccountColumns, AccountGroupQuery.Valid, AccountGroupQuery.View;
    var ctx := q.base.ctx;
    var columns := QueryAccountColumns(ctx.fields, q.withProxy != null, q.withOwner != null);
    var unique, limit, offset := false, 0, 0;
    if ctx.unique.Some? {
      unique := ctx.unique.value;
    } else if q.base.path.Some? {
      unique := true;
    }
    if ctx.limit.Some? {
      limit := ctx.limit.value;
    }
    if ctx.offset.Some? {
      offset := ctx.offset.value;
    }
    spec := QuerySpec(
      columns, unique, q.base.predicates, q.base.order, limit, offset, q.base.modifiers, q.base.sql);
  }

  /** A clone runs the same query, but for the modifiers of its own level. */
  lemma CloneSpec(v: AccountView)
    ensures SpecOf(Plain(v)) == SpecOf(v).(modifiers := [])
    ensures SpecOf(Plain(v)) == SpecOf(v) <==> v.base.modifiers == []
  {
    hide AccountColumns;
  }

  // ---------- prepareQuery ----------

  function InvalidField(fields: seq<Column>): Option<Column> {
    if fields == [] then None
    else if fields[0] !in AllColumns() then Some(fields[0])
    else InvalidField(fields[1..])
  }

  /** All fields are columns of accounts, or the one given is the first that is none. */
  ghost predicate IsFirstUnknown(fields: seq<Column>, bad: Option<Column>) {
    match bad
    case None => forall i :: 0 <= i < |fields| ==> !fields[i].Other?
    case Some(c) =>
      c.Other? && exists i :: 0 <= i < |fields| && fields[i] == c && forall k :: 0 <= k < i ==> !fields[k].Other?
  }

  lemma {:induction false} InvalidIsUnknown(fields: seq<Column>)
    ensures IsFirstUnknown(fields, InvalidField(fields))
    decreases |fields|
  {
    AllAreListed();
    hide AllColumns;
    if fields == [] || fields[0].Other? {
    } else {
      InvalidIsUnknown(fields[1..]);
      if InvalidField(fields[1..]).Some? {
        var i :| 0 <= i < |fields[1..]| && fields[1..][i] == InvalidField(fields[1..]).value
                 && forall k :: 0 <= k < i ==> !fields[1..][k].Other?;
        assert fields[i + 1] == fields[1..][i];
        assert forall k :: 0 <= k < i + 1 ==> !fields[k].Other? by {
          forall k | 0 < k < i + 1 ensures !fields[k].Other? {
            assert fields[k] == fields[1..][k - 1];
          }
        }
      } else {
        forall i | 0 < i < |fields| ensures !fields[i].Other? {
          assert fields[i] == fields[1..][i - 1];
        }
      }
    }
  }

  /** The first selected field that is no column of accounts. */
  method FirstInvalid(fields: seq<Column>) returns (bad: Option<Column>)
    ensures bad == InvalidField(fields) && IsFirstUnknown(fields, bad)
  {
    hide AllColumns, IsFirstUnknown;
    InvalidIsUnknown(fields);
    for i := 0 to |fields|
      invariant InvalidField(fields) == InvalidField(fields[i..])
    {
      assert fields[i..][1..] == fields[i + 1..];
      if fields[i] !in AllColumns() {
        return Some(fields[i]);
      }
    }
    return None;
  }

  // ---------- IDs ----------

  function AfterIDs(v: AccountView): AccountView {
    var ctx := v.base.ctx;
    v.(base := v.base.(ctx := ctx.(
         unique := if ctx.unique.None? && v.base.path.Some? then Some(true) else ctx.unique,
         fields := ctx.fields + [ID])))
  }

  /** What IDs does to the builder before it scans. */
  method PrepareIDs(q: AccountQuery)
    requires q.Valid()
    modifies q.Repr
    ensures q.Valid() && fresh(q.Repr - old(q.Repr)) && q.View() == AfterIDs(old(q.View()))
  {
    q.Parts();
    hide AccountQuery.Valid, AccountQuery.View, AccountGroupQuery.Valid, AccountGroupQuery.View, EdgeView;
    if q.base.ctx.unique.None? && q.base.path.Some? {
      q.Apply(Own(Unique(true)));
    }
    q.Apply(Own(Select([ID])));
  }

  function IntOf(cell: Cell, zero: int): int {
    if cell.IntCell? then cell.i else zero
  }

  function WithLimit(v: AccountView, limit: Option<nat>): AccountView {
    v.(base := v.base.(ctx := v.base.ctx.(limit := limit)))
  }

  /** What FirstID (with limit 1), OnlyID (with limit 2) and Exist (which calls FirstID) do before they scan. */
  method PrepareLimitedIDs(q: AccountQuery, limit: nat)
    requires q.Valid()
    modifies q.Repr
    ensures q.Valid() && fresh(q.Repr - old(q.Repr)) && q.View() == AfterIDs(WithLimit(old(q.View()), Some(limit)))
  {
    q.Parts();
    hide AccountQuery.Valid, AccountQuery.View, AccountGroupQuery.Valid, AccountGroupQuery.View, EdgeView;
    q.Do(Limit(limit));
    PrepareIDs(q);
  }

  /** What an account is when only the id and the given keys have been scanned. */
  function KeysOnly(row: Row, proxy: bool, owner: bool): AccountRecord {
    ZERO_RECORD.(
      id := IntOf(row(ID), 0),
      proxyID := if proxy && row(ProxyID).IntCell? then Some(row(ProxyID).i) else None,
      ownerUserID := if owner && row(OwnerUserID).IntCell? then Some(row(OwnerUserID).i) else None)
  }

  predicate IntOrNull(cell: Cell) {
    cell.IntCell? || cell.Null?
  }

  lemma WithoutID(fields: seq<Column>)
    ensures Without(fields + [ID], ID) == Without(fields, ID)
    ensures Without([ID], ID) == []
  {
    assert (fields + [ID])[..|fields|] == fields;
  }

  /** IDs fixes the uniqueness that the query had already, if a caller or a traversal path gave it one. */
  lemma IDsFixUniqueness(v: AccountView)
    ensures
      var unique := AfterIDs(v).base.ctx.unique;
      && (unique.Some? <==> v.base.ctx.unique.Some? || v.base.path.Some?)
      && (unique.Some? ==> unique.value == SpecOf(v).unique)
  {
    hide AccountColumns;
  }

  /**
   IDs leaves its selection behind, and that changes what later queries ask for exactly when
   no field was selected before.
   */
  lemma IDsNarrowLaterQueries(v: AccountView)
    ensures SpecOf(AfterIDs(v)) == SpecOf(v) <==> v.base.ctx.fields != []
  {
    var fields := v.base.ctx.fields;
    var columns := AccountColumns(fields + [ID], v.proxy.Some?, v.owner.Some?);
    WithoutID(fields);
    if fields == [] {
      assert fields + [ID] == [ID];
      assert |columns| <= 3 && |AllColumns()| == 33;
      assert SpecOf(AfterIDs(v)).columns != SpecOf(v).columns;
    }
    hide AllColumns, Without;
  }

  /** The entity once the cell of a key column has been assigned. */
  function Keyed(r: AccountRecord, c: Column, row: Row): AccountRecord {
    match c
    case ID => r.(id := IntOf(row(ID), 0))
    case ProxyID => if row(ProxyID).IntCell? then r.(proxyID := Some(row(ProxyID).i)) else r
    case OwnerUserID => if row(OwnerUserID).IntCell? then r.(ownerUserID := Some(row(OwnerUserID).i)) else r
    case _ => r
  }

  function KeyedAll(r: AccountRecord, columns: seq<Column>, row: Row): AccountRecord
    decreases |columns|
  {
    if columns == [] then r else KeyedAll(Keyed(r, columns[0], row), columns[1..], row)
  }

  predicate IsKey(c: Column) {
    c == ID || c == ProxyID || c == OwnerUserID
  }

  lemma AssignKey(r: AccountRecord, c: Column, row: Row, json: JsonCodec)
    requires IsKey(c) && IntOrNull(row(c))
    ensures Scan(c, row(c)).Some? && Assign(r, c, Scan(c, row(c)).value, json) == Done(Keyed(r, c, row))
  {
    match c {
      case ID => case ProxyID => case OwnerUserID => case _ =>
    }
  }

  lemma {:induction false} AssignKeys(r: AccountRecord, columns: seq<Column>, row: Row, json: JsonCodec)
    requires forall c :: c in columns ==> IsKey(c) && IntOrNull(row(c))
    ensures Scannable(columns, row)
    ensures AssignAll(r, columns, ScanRow(columns, row), json) == Done(KeyedAll(r, columns, row))
    decreases |columns|
  {
    hide Assign, Scan, Keyed;
    forall i | 0 <= i < |columns| ensures Scan(columns[i], row(columns[i])).Some? {
      assert columns[i] in columns;
      AssignKey(r, columns[i], row, json);
    }
    if columns == [] {
    } else {
      AssignKey(r, columns[0], row, json);
      AssignKeys(Keyed(r, columns[0], row), columns[1..], row, json);
      assert ScanRow(columns, row)[1..] == ScanRow(columns[1..], row);
    }
  }

  lemma DecodeKeys(columns: seq<Column>, row: Row, json: JsonCodec, proxy: bool, owner: bool)
    requires IntOrNull(row(ID)) && IntOrNull(row(ProxyID)) && IntOrNull(row(OwnerUserID))
    requires columns == [ID] + (if proxy then [ProxyID] else []) + (if owner then [OwnerUserID] else [])
    ensures Scannable(columns, row)
    ensures DecodeRow(columns, row, json) == Done(KeysOnly(row, proxy, owner))
  {
    hide Scannable, ScanRow, AssignAll;
    AssignKeys(ZERO_RECORD, columns, row, json);
    assert columns[1..] == (if proxy then [ProxyID] else []) + (if owner then [OwnerUserID] else []);
    assert proxy ==> columns[1..][1..] == if owner then [OwnerUserID] else [];
    assert owner ==> [OwnerUserID][1..] == [];
    assert KeyedAll(ZERO_RECORD, columns, row) == KeyedAll(Keyed(ZERO_RECORD, ID, row), columns[1..], row);
    if proxy {
      var r := Keyed(Keyed(ZERO_RECORD, ID, row), ProxyID, row);
      assert KeyedAll(ZERO_RECORD, columns, row) == KeyedAll(r, columns[1..][1..], row);
    }
  }

  /** FirstID, OnlyID and Exist leave their limit behind as well. */
  lemma LimitedIDsNarrowLaterQueries(v: AccountView, limit: nat)
    requires limit > 0
    ensures
      SpecOf(AfterIDs(WithLimit(v, Some(limit)))) == SpecOf(v) <==>
      v.base.ctx.fields != [] && v.base.ctx.limit == Some(limit)
  {
    IDsNarrowLaterQueries(v);
    var w := AfterIDs(v);
    assert AfterIDs(WithLimit(v, Some(limit))) == WithLimit(w, Some(limit));
    assert SpecOf(WithLimit(w, Some(limit))) == SpecOf(w).(limit := limit);
    hide AccountColumns, AfterIDs;
  }

  /**
   After IDs on a query that selected no field, the id and the keys of its to-one edges are
   all that a later query scans, and every other field of the accounts it returns is zero.
   */
  lemma IDsLeaveOnlyKeys(v: AccountView, row: Row, json: JsonCodec)
    requires v.base.ctx.fields == []
    requires IntOrNull(row(ID)) && IntOrNull(row(ProxyID)) && IntOrNull(row(OwnerUserID))
    ensures
      var columns := SpecOf(AfterIDs(v)).columns;
      && columns == [ID] + (if v.proxy.Some? then [ProxyID] else []) + (if v.owner.Some? then [OwnerUserID] else [])
      && Scannable(columns, row)
      && DecodeRow(columns, row, json) == Done(KeysOnly(row, v.proxy.Some?, v.owner.Some?))
  {
    WithoutID([]);
    assert [] + [ID] == [ID];
    var columns := SpecOf(AfterIDs(v)).columns;
    assert columns == [ID] + (if v.proxy.Some? then [ProxyID] else []) + (if v.owner.Some? then [OwnerUserID] else []);
    hide AllColumns, Without, SpecOf;
    DecodeKeys(columns, row, json, v.proxy.Some?, v.owner.Some?);
  }
}
