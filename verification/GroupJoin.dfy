/**
 What the "groups" edge of an account holds, stated on the rows of the join query
 alone: no index, no de-duplication, no heap.
 */
module GroupJoin {
  import opened Common

  /** One row of the join of account_groups with groups. */
  datatype JoinRow = JoinRow(accountID: int, group: NodeRow)

  /** The nested-loop join: the groups of the rows that belong to one account, row by row. */
  function NestedLoop(rows: seq<JoinRow>, account: int): seq<NodeRow> {
    if rows == [] then []
    else NestedLoop(rows[..|rows| - 1], account) +
         (var r := rows[|rows| - 1]; if r.accountID == account then [r.group] else [])
  }

  ghost predicate Linked(rows: seq<JoinRow>, account: int, group: int) {
    exists i :: 0 <= i < |rows| && rows[i].accountID == account && rows[i].group.id == group
  }

  ghost predicate Seen(rows: seq<JoinRow>, group: int) {
    exists i :: 0 <= i < |rows| && rows[i].group.id == group
  }

  /** Row k is the first one, for any account, that carries its group. */
  ghost predicate FirstRow(rows: seq<JoinRow>, k: int) {
    0 <= k < |rows| && forall i :: 0 <= i < k ==> rows[i].group.id != rows[k].group.id
  }

  /** Group g first appears in the whole result before group h does. */
  ghost predicate AppearsBefore(rows: seq<JoinRow>, g: int, h: int) {
    exists i, j :: i < j && FirstRow(rows, i) && FirstRow(rows, j) && rows[i].group.id == g && rows[j].group.id == h
  }

  /** The group as the whole result first shows it. */
  ghost predicate FirstShown(rows: seq<JoinRow>, group: NodeRow) {
    exists k :: FirstRow(rows, k) && rows[k].group == group
  }

  ghost predicate IsIDEdge(rows: seq<JoinRow>, account: int, ids: seq<int>) {
    && (forall g :: g in ids <==> Linked(rows, account, g))
    && (forall i, j :: 0 <= i < j < |ids| ==> AppearsBefore(rows, ids[i], ids[j]))
  }

  /**
   The contents of one account's edge: the groups the account is linked to, each once, in
   the order of their first appearance in the whole result, as that result first shows them.
   */
  ghost predicate IsEdge(rows: seq<JoinRow>, account: int, edge: seq<NodeRow>) {
    IsIDEdge(rows, account, NodeIDs(edge)) && forall i :: 0 <= i < |edge| ==> FirstShown(rows, edge[i])
  }

  // ---------- first rows ----------

  /** The indices of the first rows, in order. */
  ghost function FirstRows(rows: seq<JoinRow>): (at: seq<int>)
    ensures forall j :: 0 <= j < |at| ==> FirstRow(rows, at[j])
    ensures forall i, j :: 0 <= i < j < |at| ==> at[i] < at[j]
  {
    if rows == [] then []
    else
      var n := |rows| - 1;
      var at := FirstRows(rows[..n]);
      assert forall k :: FirstRow(rows[..n], k) ==> FirstRow(rows, k);
      if FirstRow(rows, n) then at + [n] else at
  }

  lemma FirstRowsExtend(rows: seq<JoinRow>, row: JoinRow)
    ensures
      FirstRows(rows + [row]) ==
      FirstRows(rows) + if Seen(rows, row.group.id) then [] else [|rows|]
  {
    assert (rows + [row])[..|rows|] == rows;
  }

  /** Every group of the result has a first row. */
  lemma {:induction false} FirstRowsComplete(rows: seq<JoinRow>, k: int) returns (j: int)
    requires 0 <= k < |rows|
    ensures 0 <= j < |FirstRows(rows)| && rows[FirstRows(rows)[j]].group.id == rows[k].group.id
    decreases |rows|
  {
    var n := |rows| - 1;
    var init := rows[..n];
    if k < n {
      j := FirstRowsComplete(init, k);
    } else if FirstRow(rows, n) {
      j := |FirstRows(rows)| - 1;
    } else {
      var i :| 0 <= i < n && rows[i].group.id == rows[n].group.id;
      j := FirstRowsComplete(init, i);
    }
  }

  lemma FirstRowUnique(rows: seq<JoinRow>, i: int, j: int)
    requires FirstRow(rows, i) && FirstRow(rows, j) && rows[i].group.id == rows[j].group.id
    ensures i == j
  {
  }

  lemma AppearsBeforeStrict(rows: seq<JoinRow>, g: int, h: int)
    ensures !(AppearsBefore(rows, g, h) && AppearsBefore(rows, h, g))
    ensures AppearsBefore(rows, g, h) ==> g != h
  {
  }

  // ---------- the edge is the nested-loop join, each group once ----------

  /** Rows with one group id carry one group, as the rows of a table do. */
  ghost predicate Consistent(rows: seq<JoinRow>) {
    forall i, j :: 0 <= i < |rows| && 0 <= j < |rows| && rows[i].group.id == rows[j].group.id ==>
      rows[i].group == rows[j].group
  }

  lemma SameGroup(rows: seq<JoinRow>, account: int, edge: seq<NodeRow>, r: NodeRow)
    requires IsEdge(rows, account, edge) && Consistent(rows)
    ensures r in edge <==> JoinRow(account, r) in rows
  {
    hide AppearsBefore;
    if r in edge {
      var i :| 0 <= i < |edge| && edge[i] == r;
      assert NodeIDs(edge)[i] in NodeIDs(edge) && FirstShown(rows, edge[i]);
      var k :| 0 <= k < |rows| && rows[k].accountID == account && rows[k].group.id == r.id;
      assert rows[k] == JoinRow(account, r);
    }
    if JoinRow(account, r) in rows {
      var k :| 0 <= k < |rows| && rows[k] == JoinRow(account, r);
      assert Linked(rows, account, r.id) && r.id in NodeIDs(edge);
      var i :| 0 <= i < |edge| && NodeIDs(edge)[i] == r.id;
      assert FirstShown(rows, edge[i]);
    }
  }

  lemma {:induction false} NestedLoopContents(rows: seq<JoinRow>, account: int)
    ensures forall r :: r in NestedLoop(rows, account) <==> JoinRow(account, r) in rows
  {
    if rows == [] {
    } else {
      var init, last := rows[..|rows| - 1], rows[|rows| - 1];
      NestedLoopContents(init, account);
      assert rows == init + [last];
    }
  }

  /**
   An edge never repeats a group id, and has the ids of the nested-loop join. When equal ids
   mean equal groups, it holds the very groups of the nested-loop join.
   */
  lemma EdgeIsNestedLoop(rows: seq<JoinRow>, account: int, edge: seq<NodeRow>)
    requires IsEdge(rows, account, edge)
    ensures NoDuplicates(NodeIDs(edge))
    ensures forall g :: g in NodeIDs(edge) <==> exists r :: r in NestedLoop(rows, account) && r.id == g
    ensures Consistent(rows) ==> forall r :: r in edge <==> r in NestedLoop(rows, account)
  {
    var ids := NodeIDs(edge);
    forall i, j | 0 <= i < j < |ids| ensures ids[i] != ids[j] {
      AppearsBeforeStrict(rows, ids[i], ids[j]);
    }
    NestedLoopContents(rows, account);
    if Consistent(rows) {
      forall r ensures r in edge <==> r in NestedLoop(rows, account) {
        SameGroup(rows, account, edge, r);
      }
    }
  }

  // ---------- the rows determine the edge ----------

  lemma OneFirstShown(rows: seq<JoinRow>, a: NodeRow, b: NodeRow)
    requires FirstShown(rows, a) && FirstShown(rows, b) && a.id == b.id
    ensures a == b
  {
    var i :| FirstRow(rows, i) && rows[i].group == a;
    var j :| FirstRow(rows, j) && rows[j].group == b;
    FirstRowUnique(rows, i, j);
  }

  lemma NoMembers(a: seq<int>, b: seq<int>)
    requires a == [] && forall g :: g in a <==> g in b
    ensures b == []
  {
    var g := if b == [] then 0 else b[0];
    assert b != [] ==> g in b;
  }

  lemma TailMembers(rows: seq<JoinRow>, s: seq<int>, g: int)
    requires s != [] && forall i, j :: 0 <= i < j < |s| ==> AppearsBefore(rows, s[i], s[j])
    ensures g in s[1..] <==> g in s && g != s[0]
  {
    hide AppearsBefore;
    if g in s[1..] {
      var i :| 0 <= i < |s[1..]| && s[1..][i] == g;
      assert AppearsBefore(rows, s[0], s[i + 1]);
      AppearsBeforeStrict(rows, s[0], g);
    }
    assert s == [s[0]] + s[1..];
  }

  lemma {:induction false} SameOrder(rows: seq<JoinRow>, a: seq<int>, b: seq<int>)
    requires forall g :: g in a <==> g in b
    requires forall i, j :: 0 <= i < j < |a| ==> AppearsBefore(rows, a[i], a[j])
    requires forall i, j :: 0 <= i < j < |b| ==> AppearsBefore(rows, b[i], b[j])
    ensures a == b
  {
    hide AppearsBefore;
    if a == [] {
      NoMembers(a, b);
    } else {
      assert a[0] in a;
      var j :| 0 <= j < |b| && b[j] == a[0];
      assert b[0] in b;
      var i :| 0 <= i < |a| && a[i] == b[0];
      AppearsBeforeStrict(rows, a[0], b[0]);
      assert i == 0 || j == 0;
      forall g ensures g in a[1..] <==> g in b[1..] {
        TailMembers(rows, a, g);
        TailMembers(rows, b, g);
      }
      SameOrder(rows, a[1..], b[1..]);
      assert a == [a[0]] + a[1..] && b == [b[0]] + b[1..];
    }
  }

  /** Two lists that meet the specification are equal. */
  lemma EdgeUnique(rows: seq<JoinRow>, account: int, a: seq<NodeRow>, b: seq<NodeRow>)
    requires IsEdge(rows, account, a) && IsEdge(rows, account, b)
    ensures a == b
  {
    assert forall g :: g in NodeIDs(a) <==> g in NodeIDs(b);
    SameOrder(rows, NodeIDs(a), NodeIDs(b));
    assert |a| == |NodeIDs(a)| == |b|;
    forall i | 0 <= i < |a| ensures a[i] == b[i] {
      assert a[i].id == NodeIDs(a)[i] == b[i].id && FirstShown(rows, a[i]) && FirstShown(rows, b[i]);
      OneFirstShown(rows, a[i], b[i]);
    }
  }

  // ---------- the edge, computed ----------

  /** Row k belongs to a group that the account is linked to. */
  ghost function LinksTo(rows: seq<JoinRow>, account: int): int -> bool {
    k => 0 <= k < |rows| && Linked(rows, account, rows[k].group.id)
  }

  ghost function GroupsAt(rows: seq<JoinRow>, at: seq<int>): seq<NodeRow>
    requires forall k :: k in at ==> 0 <= k < |rows|
  {
    seq(|at|, j requires 0 <= j < |at| => assert at[j] in at; rows[at[j]].group)
  }

  ghost function EdgeOf(rows: seq<JoinRow>, account: int): seq<NodeRow> {
    var at := Filter(FirstRows(rows), LinksTo(rows, account));
    FilterContents(FirstRows(rows), LinksTo(rows, account), at);
    GroupsAt(rows, at)
  }

  /** The rows whose groups make up the edge. */
  lemma EdgeRows(rows: seq<JoinRow>, account: int) returns (at: seq<int>)
    ensures forall k :: k in at <==> k in FirstRows(rows) && LinksTo(rows, account)(k)
    ensures forall i, j :: 0 <= i < j < |at| ==> at[i] < at[j]
    ensures forall j :: 0 <= j < |at| ==> 0 <= at[j] < |rows| && FirstRow(rows, at[j])
    ensures |EdgeOf(rows, account)| == |at|
    ensures forall j :: 0 <= j < |at| ==> EdgeOf(rows, account)[j] == rows[at[j]].group
  {
    var all, p := FirstRows(rows), LinksTo(rows, account);
    at := Filter(all, p);
    FilterContents(all, p, at);
    FilterOrdered(all, p, (i, j) => i < j, at);
    hide Filter, FirstRows, Linked;
    forall j | 0 <= j < |at| ensures FirstRow(rows, at[j]) {
      assert at[j] in at;
      var i :| 0 <= i < |all| && all[i] == at[j];
    }
    hide FirstRow;
  }

  lemma FirstOfGroup(rows: seq<JoinRow>, account: int, g: int) returns (first: int)
    requires Linked(rows, account, g)
    ensures first in FirstRows(rows) && 0 <= first < |rows| && rows[first].group.id == g
  {
    var k :| 0 <= k < |rows| && rows[k].accountID == account && rows[k].group.id == g;
    var i := FirstRowsComplete(rows, k);
    first := FirstRows(rows)[i];
    assert FirstRow(rows, first);
    hide FirstRows;
  }

  lemma EdgeOfLinked(rows: seq<JoinRow>, account: int, at: seq<int>, edge: seq<NodeRow>, g: int)
    requires forall k :: k in at <==> k in FirstRows(rows) && LinksTo(rows, account)(k)
    requires |edge| == |at| && forall j :: 0 <= j < |at| ==> 0 <= at[j] < |rows| && edge[j] == rows[at[j]].group
    ensures g in NodeIDs(edge) <==> Linked(rows, account, g)
  {
    hide FirstRows, Linked;
    var ids := NodeIDs(edge);
    if g in ids {
      var j :| 0 <= j < |ids| && ids[j] == g;
      assert at[j] in at;
    }
    if Linked(rows, account, g) {
      var first := FirstOfGroup(rows, account, g);
      var j :| 0 <= j < |at| && at[j] == first;
      assert ids[j] == g;
    }
  }

  /** The computed edge meets the specification, so it is the one list that does. */
  lemma EdgeOfIsEdge(rows: seq<JoinRow>, account: int)
    ensures IsEdge(rows, account, EdgeOf(rows, account))
  {
    var at := EdgeRows(rows, account);
    var edge := EdgeOf(rows, account);
    hide EdgeOf, Linked, FirstRows, FirstRow;
    forall g ensures g in NodeIDs(edge) <==> Linked(rows, account, g) {
      EdgeOfLinked(rows, account, at, edge, g);
    }
    forall i, j | 0 <= i < j < |edge| ensures AppearsBefore(rows, edge[i].id, edge[j].id) {
      assert at[i] < at[j] && FirstRow(rows, at[i]) && FirstRow(rows, at[j]);
    }
    hide AppearsBefore;
    assert forall i :: 0 <= i < |edge| ==> FirstRow(rows, at[i]) && rows[at[i]].group == edge[i];
  }

  /**
   The order is that of the whole result, not of the account's own rows: here account 1
   has rows for groups 10 and then 20, and its edge is 20, 10.
   */
  lemma OrderIsOfTheWholeResult()
    ensures
      var a, b := NodeRow(10, "a"), NodeRow(20, "b");
      var rows := [JoinRow(2, b), JoinRow(1, a), JoinRow(1, b)];
      NestedLoop(rows, 1) == [a, b] && IsEdge(rows, 1, [b, a])
  {
    var a, b := NodeRow(10, "a"), NodeRow(20, "b");
    var rows := [JoinRow(2, b), JoinRow(1, a), JoinRow(1, b)];
    assert rows[..2] == [rows[0], rows[1]] && rows[..2][..1] == [rows[0]] && rows[..2][..1][..0] == [];
    assert NestedLoop(rows[..2][..1], 1) == [];
    assert NestedLoop(rows[..2], 1) == [a];
    assert FirstRow(rows, 0) && FirstRow(rows, 1);
    assert rows[1].group.id == 10 && rows[2].group.id == 20;
    assert AppearsBefore(rows, 20, 10);
    assert Linked(rows, 1, 10) && Linked(rows, 1, 20);
    assert FirstShown(rows, a) && FirstShown(rows, b);
    assert NodeIDs([b, a]) == [20, 10];
  }
}
