/**
 The entities that eager loading fills in: backend/ent/account.go,
 backend/ent/accountgroup.go and the neighbours of an account.
 */
module Entities {
  import opened Common
  import opened RowCodec

  /** A loaded Group, Proxy or User. */
  class Neighbor {
    const row: NodeRow

    constructor (row: NodeRow)
      ensures this.row == row
    {
      this.row := row;
    }
  }

  function NeighborRows(ns: seq<Neighbor>): seq<NodeRow> {
    Map(ns, (n: Neighbor) => n.row)
  }

  function RowOf(n: Neighbor?): Option<NodeRow> {
    if n == null then None else Some(n.row)
  }

  datatype LogRow = LogRow(id: int, accountID: int)

  class UsageLog {
    const row: LogRow

    constructor (row: LogRow)
      ensures this.row == row
    {
      this.row := row;
    }
  }

  datatype LinkRow = LinkRow(accountID: int, groupID: int)

  datatype EdgeResult<+T> = Value(value: T) | NotFound | NotLoaded

  /** A loaded row of account_groups; of the account it belongs to, the id and name are kept. */
  class AccountGroup {
    const row: LinkRow
    var account: Neighbor?
    var group: Neighbor?
    const accountRequested: bool
    const groupRequested: bool

    constructor (row: LinkRow, accountRequested: bool, groupRequested: bool)
      ensures this.row == row && account == null && group == null
      ensures this.accountRequested == accountRequested && this.groupRequested == groupRequested
    {
      this.row, account, group := row, null, null;
      this.accountRequested, this.groupRequested := accountRequested, groupRequested;
    }

    /** The foreign keys, which cannot be nil. */
    function AccountKey(): Option<int> {
      Some(row.accountID)
    }

    function GroupKey(): Option<int> {
      Some(row.groupID)
    }

    function AccountOrErr(): EdgeResult<Neighbor>
      reads this
    {
      if account != null then Value(account) else if accountRequested then NotFound else NotLoaded
    }

    function GroupOrErr(): EdgeResult<Neighbor>
      reads this
    {
      if group != null then Value(group) else if groupRequested then NotFound else NotLoaded
    }
  }

  /** Which edges a query asked for, in the order of AccountEdges.loadedTypes. */
  datatype LoadedTypes = LoadedTypes(groups: bool, proxy: bool, owner: bool, usageLogs: bool, accountGroups: bool)

  // ---------- values of unknown columns ----------

  /** The values kept aside once the given columns have been assigned. */
  function Unknowns(before: map<string, Slot>, columns: seq<Column>, values: seq<Slot>): map<string, Slot>
    requires |columns| <= |values|
    decreases |columns|
  {
    if columns == [] then before
    else
      var n := |columns| - 1;
      var m := Unknowns(before, columns[..n], values);
      if columns[n].Other? then m[columns[n].name := values[n]] else m
  }

  lemma UnknownsStart(before: map<string, Slot>, columns: seq<Column>, values: seq<Slot>)
    ensures Unknowns(before, columns[..0], values) == before
  {
  }

  lemma UnknownsStep(before: map<string, Slot>, columns: seq<Column>, values: seq<Slot>, i: int)
    requires 0 <= i < |columns| <= |values|
    ensures
      var m := Unknowns(before, columns[..i], values);
      Unknowns(before, columns[..i + 1], values) == if columns[i].Other? then m[columns[i].name := values[i]] else m
  {
    assert columns[..i + 1][..i] == columns[..i];
  }

  /** An unknown column keeps the value of its last place. */
  lemma {:induction false} UnknownsKeepTheLast(
    before: map<string, Slot>, columns: seq<Column>, values: seq<Slot>, i: int)
    requires |columns| <= |values| && LastAt(columns, i) && columns[i].Other?
    ensures
      var m := Unknowns(before, columns, values);
      columns[i].name in m && m[columns[i].name] == values[i]
    decreases |columns|
  {
    var n := |columns| - 1;
    if i == n {
    } else {
      assert columns[n] != columns[i];
      UnknownsKeepTheLast(before, columns[..n], values, i);
    }
  }

  /** Names that no column has are left alone. */
  lemma {:induction false} UnknownsKeepOthers(
    before: map<string, Slot>, columns: seq<Column>, values: seq<Slot>, name: string)
    requires |columns| <= |values| && Other(name) !in columns
    ensures
      var m := Unknowns(before, columns, values);
      (name in m <==> name in before) && (name in m ==> m[name] == before[name])
    decreases |columns|
  {
    if columns == [] {
    } else {
      var n := |columns| - 1;
      assert columns[n] in columns && columns[n] != Other(name);
      UnknownsKeepOthers(before, columns[..n], values, name);
    }
  }

  class Account {
    var rec: AccountRecord
    var selectValues: map<string, Slot>
    var groups: seq<Neighbor>
    var proxy: Neighbor?
    var owner: Neighbor?
    var usageLogs: seq<UsageLog>
    var accountGroups: seq<AccountGroup>
    const loadedTypes: LoadedTypes

    /** A node as the scan callback of sqlAll creates it. */
    constructor (loadedTypes: LoadedTypes)
      ensures rec == ZERO_RECORD && selectValues == map[]
      ensures groups == [] && proxy == null && owner == null && usageLogs == [] && accountGroups == []
      ensures this.loadedTypes == loadedTypes
    {
      rec, selectValues := ZERO_RECORD, map[];
      groups, proxy, owner, usageLogs, accountGroups := [], null, null, [], [];
      this.loadedTypes := loadedTypes;
    }

    /** Fills the entity from scanned values, column by column, until one fails. */
    method AssignValues(columns: seq<Column>, values: seq<Slot>, json: JsonCodec) returns (d: Decoded<()>)
      modifies this`rec, this`selectValues
      ensures AssignAll(old(rec), columns, values, json) ==
              match d {
                case Done(_) => Done(rec)
                case LengthMismatch => LengthMismatch
                case TypeMismatch(c) => TypeMismatch(c)
                case BadJson(c) => BadJson(c)
              }
      ensures d.Done? ==> |columns| <= |values| && selectValues == Unknowns(old(selectValues), columns, values)
    {
      hide Assign, Unknowns;
      UnknownsStart(selectValues, columns, values);
      if |values| < |columns| {
        return LengthMismatch;
      }
      for i := 0 to |columns|
        invariant AssignAll(old(rec), columns, values, json) == AssignAll(rec, columns[i..], values[i..], json)
        invariant selectValues == Unknowns(old(selectValues), columns[..i], values)
      {
        assert columns[i..][0] == columns[i] && values[i..][0] == values[i];
        assert columns[i..][1..] == columns[i + 1..] && values[i..][1..] == values[i + 1..];
        UnknownsStep(old(selectValues), columns, values, i);
        match Assign(rec, columns[i], values[i], json) {
          case Done(r) =>
            rec := r;
            if columns[i].Other? {
              selectValues := selectValues[columns[i].name := values[i]];
            }
          case LengthMismatch => return LengthMismatch;
          case TypeMismatch(c) => return TypeMismatch(c);
          case BadJson(c) => return BadJson(c);
        }
      }
      assert columns[..|columns|] == columns;
      return Done(());
    }

    function ProxyOrErr(): EdgeResult<Neighbor>
      reads this
    {
      if proxy != null then Value(proxy) else if loadedTypes.proxy then NotFound else NotLoaded
    }

    function OwnerOrErr(): EdgeResult<Neighbor>
      reads this
    {
      if owner != null then Value(owner) else if loadedTypes.owner then NotFound else NotLoaded
    }
  }
}
