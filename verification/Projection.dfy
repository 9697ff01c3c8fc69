/**
 The columns a query selects: querySpec of backend/ent/account_query.go,
 backend/ent/accountgroup_query.go, backend/ent/usagelog_query.go and
 backend/ent/identityadoptiondecision_query.go.
 */
module Projection {
  import opened RowCodec

  /** AddColumnOnce and AppendFieldOnce. */
  function AddOnce<C(==)>(columns: seq<C>, c: C): seq<C> {
    if c in columns then columns else columns + [c]
  }

  /** The fields of a query, without the id. */
  function Without<C(==)>(fields: seq<C>, id: C): seq<C> {
    if fields == [] then []
    else Without(fields[..|fields| - 1], id) + (var f := fields[|fields| - 1]; if f != id then [f] else [])
  }

  lemma {:induction false} WithoutContents<C>(fields: seq<C>, id: C, rest: seq<C>)
    requires rest == Without(fields, id)
    ensures id !in rest
    ensures forall c :: c in rest <==> c in fields && c != id
  {
    if fields == [] {
    } else {
      var init := fields[..|fields| - 1];
      WithoutContents(init, id, Without(init, id));
      assert fields == init + [fields[|fields| - 1]];
    }
  }

  /** The loop of querySpec that puts the id first and copies the other selected fields. */
  method IDFirst<C(==)>(fields: seq<C>, id: C) returns (columns: seq<C>)
    ensures columns == [id] + Without(fields, id)
  {
    columns := [id];
    for i := 0 to |fields|
      invariant columns == [id] + Without(fields[..i], id)
    {
      assert fields[..i + 1][..i] == fields[..i];
      if fields[i] != id {
        columns := columns + [fields[i]];
      }
    }
    assert fields[..|fields|] == fields;
  }

  /** account.Columns. */
  function AllColumns(): seq<Column> {
    [ ID, CreatedAt, UpdatedAt, DeletedAt, Name, Notes, Platform, Type, Credentials, Extra, OwnerUserID, ShareMode,
      ShareStatus, SharePolicyID, ProxyID, Concurrency, LoadFactor, Priority, RateMultiplier, Status, ErrorMessage,
      LastUsedAt, ExpiresAt, AutoPauseOnExpired, Schedulable, RateLimitedAt, RateLimitResetAt, OverloadUntil,
      TempUnschedulableUntil, TempUnschedulableReason, SessionWindowStart, SessionWindowEnd, SessionWindowStatus ]
  }

  lemma ColumnListed(c: Column)
    requires !c.Other?
    ensures c in AllColumns()
  {
    match c {
      case ID => assert AllColumns()[0] == c;
      case CreatedAt => assert AllColumns()[1] == c;
      case UpdatedAt => assert AllColumns()[2] == c;
      case DeletedAt => assert AllColumns()[3] == c;
      case Name => assert AllColumns()[4] == c;
      case Notes => assert AllColumns()[5] == c;
      case Platform => assert AllColumns()[6] == c;
      case Type => assert AllColumns()[7] == c;
      case Credentials => assert AllColumns()[8] == c;
      case Extra => assert AllColumns()[9] == c;
      case OwnerUserID => assert AllColumns()[10] == c;
      case ShareMode => assert AllColumns()[11] == c;
      case ShareStatus => assert AllColumns()[12] == c;
      case SharePolicyID => assert AllColumns()[13] == c;
      case ProxyID => assert AllColumns()[14] == c;
      case Concurrency => assert AllColumns()[15] == c;
      case LoadFactor => assert AllColumns()[16] == c;
      case Priority => assert AllColumns()[17] == c;
      case RateMultiplier => assert AllColumns()[18] == c;
      case Status => assert AllColumns()[19] == c;
      case ErrorMessage => assert AllColumns()[20] == c;
      case LastUsedAt => assert AllColumns()[21] == c;
      case ExpiresAt => assert AllColumns()[22] == c;
      case AutoPauseOnExpired => assert AllColumns()[23] == c;
      case Schedulable => assert AllColumns()[24] == c;
      case RateLimitedAt => assert AllColumns()[25] == c;
      case RateLimitResetAt => assert AllColumns()[26] == c;
      case OverloadUntil => assert AllColumns()[27] == c;
      case TempUnschedulableUntil => assert AllColumns()[28] == c;
      case TempUnschedulableReason => assert AllColumns()[29] == c;
      case SessionWindowStart => assert AllColumns()[30] == c;
      case SessionWindowEnd => assert AllColumns()[31] == c;
      case SessionWindowStatus => assert AllColumns()[32] == c;
    }
  }

  /** The columns of an account are listed, and nothing else is. */
  lemma AllAreListed()
    ensures forall c :: c in AllColumns() <==> !c.Other?
  {
    forall c: Column | !c.Other? ensures c in AllColumns() {
      ColumnListed(c);
    }
  }

  /** The columns of an account query, given its selected fields and its to-one edges. */
  function AccountColumns(fields: seq<Column>, withProxy: bool, withOwner: bool): seq<Column> {
    if fields == [] then AllColumns()
    else
      var c0 := [ID] + Without(fields, ID);
      var c1 := if withProxy then AddOnce(c0, ProxyID) else c0;
      if withOwner then AddOnce(c1, OwnerUserID) else c1
  }

  method QueryAccountColumns(fields: seq<Column>, withProxy: bool, withOwner: bool) returns (columns: seq<Column>)
    ensures columns == AccountColumns(fields, withProxy, withOwner)
    ensures fields == [] ==> forall c :: c in columns <==> !c.Other?
  {
    AllAreListed();
    hide AllColumns;
    columns := AllColumns();
    if |fields| > 0 {
      columns := IDFirst(fields, ID);
      if withProxy {
        columns := AddOnce(columns, ProxyID);
      }
      if withOwner {
        columns := AddOnce(columns, OwnerUserID);
      }
    }
  }

  /**
   Whatever fields are selected, and however often, the id comes first and only once, the
   key of every to-one edge that will be loaded is selected, and beyond the keys nothing is
   selected that was not asked for.
   */
  lemma AccountColumnsSound(fields: seq<Column>, withProxy: bool, withOwner: bool)
    ensures
      var columns := AccountColumns(fields, withProxy, withOwner);
      && columns != [] && columns[0] == ID
      && (forall i :: 0 < i < |columns| ==> columns[i] != ID)
      && (withProxy ==> ProxyID in columns)
      && (withOwner ==> OwnerUserID in columns)
      && (forall c :: c in fields ==> c in columns)
      && (fields != [] ==> forall c :: c in columns ==>
            c == ID || c in fields || (withProxy && c == ProxyID) || (withOwner && c == OwnerUserID))
  {
    var columns := AccountColumns(fields, withProxy, withOwner);
    if fields == [] {
      assert columns[14] == ProxyID && columns[10] == OwnerUserID;
    } else {
      WithoutContents(fields, ID, Without(fields, ID));
      hide Without, AllColumns;
      var c0 := [ID] + Without(fields, ID);
      forall i | 0 < i < |columns| ensures columns[i] != ID {
        assert i < |c0| ==> columns[i] == c0[i] == Without(fields, ID)[i - 1];
      }
    }
  }

  // ---------- the neighbours' columns ----------

  datatype LogColumn = LogID | LogAccountID | LogOther(name: string)

  datatype LinkColumn = LinkAccountID | LinkGroupID | LinkPriority | LinkCreatedAt

  datatype DecisionColumn = DecisionID | DecisionIdentityID | DecisionOther(name: string)

  /** AppendFieldOnce in a one-to-many loader: only a query that selects fields needs it. */
  function WithKey<C(==)>(fields: seq<C>, key: C): seq<C> {
    if fields == [] then [] else AddOnce(fields, key)
  }

  /** Whether the query of a one-to-many neighbour scans a column; no fields means all of them. */
  predicate Selects<C(==)>(fields: seq<C>, id: C, c: C) {
    fields == [] || c in [id] + Without(fields, id)
  }

  /** The columns of a query over account_groups, which has no id, given its selected fields and its edges. */
  function LinkColumns(fields: seq<LinkColumn>, withAccount: bool, withGroup: bool): seq<LinkColumn> {
    if fields == [] then [LinkAccountID, LinkGroupID, LinkPriority, LinkCreatedAt]
    else
      var c := if withAccount then AddOnce(fields, LinkAccountID) else fields;
      if withGroup then AddOnce(c, LinkGroupID) else c
  }

  /** The selected fields, or all of them when none is, and the keys of the edges that will be loaded. */
  lemma LinkColumnsSound(fields: seq<LinkColumn>, withAccount: bool, withGroup: bool)
    ensures forall c :: c in LinkColumns(fields, withAccount, withGroup) <==>
      fields == [] || c in fields || (withAccount && c == LinkAccountID) || (withGroup && c == LinkGroupID)
  {
    if fields == [] {
      var all := LinkColumns([], withAccount, withGroup);
      assert all[0] == LinkAccountID && all[1] == LinkGroupID && all[2] == LinkPriority && all[3] == LinkCreatedAt;
      forall c: LinkColumn ensures c in all {
        match c { case LinkAccountID => case LinkGroupID => case LinkPriority => case LinkCreatedAt => }
      }
    }
  }

  method QueryLinkColumns(fields: seq<LinkColumn>, withAccount: bool, withGroup: bool)
    returns (columns: seq<LinkColumn>)
    ensures columns == LinkColumns(fields, withAccount, withGroup)
  {
    columns := [LinkAccountID, LinkGroupID, LinkPriority, LinkCreatedAt];
    if |fields| > 0 {
      columns := [];
      for i := 0 to |fields|
        invariant columns == fields[..i]
      {
        columns := columns + [fields[i]];
      }
      if withAccount {
        columns := AddOnce(columns, LinkAccountID);
      }
      if withGroup {
        columns := AddOnce(columns, LinkGroupID);
      }
    }
  }

  lemma KeySelected<C>(fields: seq<C>, id: C, key: C)
    ensures Selects(WithKey(fields, key), id, key)
  {
    var fields' := WithKey(fields, key);
    WithoutContents(fields', id, Without(fields', id));
  }
}
