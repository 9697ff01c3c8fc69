/**
 The index from id to node, and loadGroups of backend/ent/account_query.go.

 A neighbour query is a function from the requested ids to the rows it returns, so that
 its own predicates, order and limit, and the table behind it, are arbitrary.
 */
module EagerLoading {
  import opened Common
  import opened GroupJoin
  import opened Entities

  datatype LoadStatus =
    | Loaded
    | UnexpectedNode(id: int)
    | UnexpectedForeignKey(key: int)
    | NilDereference

  /** The ids of the nodes, in order. */
  ghost function IDs(nodes: seq<Account>): (ids: seq<int>)
    reads nodes`rec
    ensures |ids| == |nodes| && forall i :: 0 <= i < |nodes| ==> ids[i] == nodes[i].rec.id
  {
    if nodes == [] then [] else IDs(nodes[..|nodes| - 1]) + [nodes[|nodes| - 1].rec.id]
  }

  lemma IDsExtend(nodes: seq<Account>, last: Account)
    ensures IDs(nodes + [last]) == IDs(nodes) + [last.rec.id]
  {
    assert (nodes + [last])[..|nodes|] == nodes;
  }

  /** Node `a` is the one a map from id to node ends up with, when filled in order. */
  ghost predicate Indexed(nodes: seq<Account>, a: Account)
    reads nodes`rec
  {
    exists i :: LastAt(IDs(nodes), i) && nodes[i] == a
  }

  /** What IndexByID establishes. */
  ghost predicate IsIndex(nodes: seq<Account>, ids: seq<int>, byID: map<int, Account>)
    reads nodes`rec
  {
    && (forall id :: id in byID <==> id in ids)
    && (forall id :: id in byID ==> byID[id] in nodes && byID[id].rec.id == id && Indexed(nodes, byID[id]))
    && (forall a :: a in nodes && Indexed(nodes, a) ==> a.rec.id in byID && byID[a.rec.id] == a)
  }

  lemma DistinctAllIndexed(nodes: seq<Account>)
    requires NoDuplicates(IDs(nodes))
    ensures forall a :: a in nodes ==> Indexed(nodes, a)
  {
    NoDuplicatesLastAt(IDs(nodes));
    forall a | a in nodes ensures Indexed(nodes, a) {
      var i :| 0 <= i < |nodes| && nodes[i] == a;
    }
  }

  lemma NoIndex(nodes: seq<Account>)
    requires nodes == []
    ensures IDs(nodes) == [] && IsIndex(nodes, [], map[])
  {
  }

  /** Of the nodes with the id of the last node, only the last node is indexed. */
  lemma LastIndexed(nodes: seq<Account>, last: Account)
    ensures Indexed(nodes + [last], last)
    ensures forall a :: Indexed(nodes + [last], a) && a.rec.id == last.rec.id ==> a == last
  {
    IDsExtend(nodes, last);
    assert (nodes + [last])[|nodes|] == last;
    hide IDs;
    assert LastAt(IDs(nodes) + [last.rec.id], |nodes|);
  }

  lemma IndexedExtend(nodes: seq<Account>, last: Account, a: Account)
    requires a.rec.id != last.rec.id
    ensures Indexed(nodes, a) <==> Indexed(nodes + [last], a)
  {
    var after, ids := nodes + [last], IDs(nodes);
    IDsExtend(nodes, last);
    hide IDs;
    if Indexed(nodes, a) {
      var i :| LastAt(ids, i) && nodes[i] == a;
      assert LastAt(ids + [last.rec.id], i) && after[i] == a;
    }
    if Indexed(after, a) {
      var i :| LastAt(ids + [last.rec.id], i) && after[i] == a;
      assert (ids + [last.rec.id])[i] == a.rec.id;
      assert forall j :: i < j < |ids| ==> (ids + [last.rec.id])[j] == ids[j];
      assert LastAt(ids, i) && nodes[i] == a;
    }
  }

  lemma IndexExtend(nodes: seq<Account>, ids: seq<int>, byID: map<int, Account>, last: Account)
    requires IsIndex(nodes, ids, byID)
    ensures IsIndex(nodes + [last], ids + [last.rec.id], byID[last.rec.id := last])
  {
    var after := nodes + [last];
    forall a: Account | a.rec.id != last.rec.id
      ensures Indexed(nodes, a) <==> Indexed(after, a)
    {
      IndexedExtend(nodes, last, a);
    }
    LastIndexed(nodes, last);
    hide Indexed;
    var byID' := byID[last.rec.id := last];
    forall id | id in byID' ensures byID'[id] in after && byID'[id].rec.id == id && Indexed(after, byID'[id]) {
    }
  }

  /** The index from id to node that the loaders build; a repeated id keeps its last node. */
  method IndexByID(nodes: seq<Account>) returns (ids: seq<int>, byID: map<int, Account>)
    ensures ids == IDs(nodes) && IsIndex(nodes, ids, byID)
  {
    hide *;
    ids, byID := [], map[];
    NoIndex(nodes[..0]);
    for i := 0 to |nodes|
      invariant ids == IDs(nodes[..i]) && IsIndex(nodes[..i], ids, byID)
    {
      assert nodes[..i + 1] == nodes[..i] + [nodes[i]];
      IndexExtend(nodes[..i], ids, byID, nodes[i]);
      IDsExtend(nodes[..i], nodes[i]);
      ids := ids + [nodes[i].rec.id];
      byID := byID[nodes[i].rec.id := nodes[i]];
    }
    assert nodes[..|nodes|] == nodes;
  }

  lemma IndexFacts(nodes: seq<Account>, ids: seq<int>, byID: map<int, Account>, k: int)
    requires IsIndex(nodes, ids, byID)
    ensures k in byID <==> k in ids
    ensures k in byID ==>
      var node := byID[k];
      && node in nodes && node.rec.id == k && Indexed(nodes, node)
      && forall a :: a in nodes && Indexed(nodes, a) ==> (a.rec.id == k <==> a == node)
  {
  }

  // ---------- handing out rows ----------

  /** The status of handing out rows in order: the first one that was not asked for stops it. */
  function Handout(ids: seq<int>, asked: seq<int>): LoadStatus {
    if ids == [] then Loaded
    else
      var before, last := Handout(ids[..|ids| - 1], asked), ids[|ids| - 1];
      if !before.Loaded? || last in asked then before else UnexpectedForeignKey(last)
  }

  ghost predicate IsFirstStray(ids: seq<int>, asked: seq<int>, i: int) {
    0 <= i < |ids| && ids[i] !in asked && forall j :: 0 <= j < i ==> ids[j] in asked
  }

  /** It is Loaded exactly when all were asked for, and otherwise names the first that was not. */
  lemma {:induction false} HandoutMeans(ids: seq<int>, asked: seq<int>)
    ensures Handout(ids, asked).Loaded? <==> forall i :: 0 <= i < |ids| ==> ids[i] in asked
    ensures !Handout(ids, asked).Loaded? ==>
      exists i :: IsFirstStray(ids, asked, i) && Handout(ids, asked) == UnexpectedForeignKey(ids[i])
  {
    if ids == [] {
    } else {
      var n := |ids| - 1;
      HandoutMeans(ids[..n], asked);
      assert forall i :: 0 <= i < n ==> ids[..n][i] == ids[i];
      if !Handout(ids[..n], asked).Loaded? {
        var i :| IsFirstStray(ids[..n], asked, i) && Handout(ids[..n], asked) == UnexpectedForeignKey(ids[..n][i]);
        assert IsFirstStray(ids, asked, i);
      } else if ids[n] !in asked {
        assert IsFirstStray(ids, asked, n);
      }
    }
  }

  lemma {:induction false} HandoutStops(ids: seq<int>, asked: seq<int>, j: int)
    requires 0 <= j <= |ids| && !Handout(ids[..j], asked).Loaded?
    ensures Handout(ids, asked) == Handout(ids[..j], asked)
  {
    if j == |ids| {
      assert ids[..j] == ids;
    } else {
      var n := |ids| - 1;
      assert ids[..n][..j] == ids[..j];
      HandoutStops(ids[..n], asked, j);
    }
  }

  /** One more row: it is handed out, or it decides the status. */
  lemma HandoutStep(ids: seq<int>, asked: seq<int>, j: int)
    requires 0 <= j < |ids| && Handout(ids[..j], asked).Loaded?
    ensures ids[j] in asked ==> Handout(ids[..j + 1], asked).Loaded?
    ensures ids[j] !in asked ==> Handout(ids, asked) == UnexpectedForeignKey(ids[j])
  {
    assert ids[..j + 1][..j] == ids[..j];
    if ids[j] !in asked {
      HandoutStops(ids, asked, j + 1);
    }
  }

  // ---------- loadGroups: many to many ----------

  /** The node that a join row is filed under: the nil pointer when its account was not asked for. */
  function Lookup(byID: map<int, Account>, id: int): Account? {
    if id in byID then byID[id] else null
  }

  /** `nids` files exactly the scanned rows: each group id with the nodes its rows belong to. */
  ghost predicate Files(nids: map<int, set<Account?>>, rows: seq<JoinRow>, byID: map<int, Account>) {
    && (forall i :: 0 <= i < |rows| ==>
          rows[i].group.id in nids && Lookup(byID, rows[i].accountID) in nids[rows[i].group.id])
    && (forall g, a :: g in nids && a in nids[g] ==>
          exists i :: 0 <= i < |rows| && rows[i].group.id == g && Lookup(byID, rows[i].accountID) == a)
    && (forall g :: g in nids ==> exists i :: 0 <= i < |rows| && rows[i].group.id == g)
  }

  /** Every scanned group is filed, and under nodes only. */
  ghost predicate AllKnown(neighbors: seq<Neighbor>, nids: map<int, set<Account?>>) {
    forall n :: n in neighbors ==> n.row.id in nids && null !in nids[n.row.id]
  }

  /** What the added predicate promises: every row belongs to a requested account. */
  ghost predicate Requested(rows: seq<JoinRow>, ids: seq<int>) {
    forall r :: r in rows ==> r.accountID in ids
  }

  /** The scanned groups: those of the first rows, in order. */
  ghost predicate Scanned(neighbors: seq<Neighbor>, rows: seq<JoinRow>) {
    && |neighbors| == |FirstRows(rows)|
    && forall j :: 0 <= j < |neighbors| ==> neighbors[j].row == rows[FirstRows(rows)[j]].group
  }

  /** What the second loop appends to node `a`. */
  ghost function Picked(neighbors: seq<Neighbor>, nids: map<int, set<Account?>>, a: Account): seq<Neighbor> {
    if neighbors == [] then []
    else
      var n := neighbors[|neighbors| - 1];
      Picked(neighbors[..|neighbors| - 1], nids, a) +
      (if n.row.id in nids && a in nids[n.row.id] then [n] else [])
  }

  lemma ScannedExtend(neighbors: seq<Neighbor>, rows: seq<JoinRow>, row: JoinRow, n: Neighbor)
    requires Scanned(neighbors, rows) && !Seen(rows, row.group.id) && n.row == row.group
    ensures Scanned(neighbors + [n], rows + [row])
  {
    FirstRowsExtend(rows, row);
    hide Seen, FirstRows;
  }

  lemma ScannedSeen(neighbors: seq<Neighbor>, rows: seq<JoinRow>, row: JoinRow)
    requires Scanned(neighbors, rows) && Seen(rows, row.group.id)
    ensures Scanned(neighbors, rows + [row])
  {
    FirstRowsExtend(rows, row);
    hide Seen, FirstRows;
  }

  lemma FilesExtend(nids: map<int, set<Account?>>, rows: seq<JoinRow>, row: JoinRow, byID: map<int, Account>)
    requires Files(nids, rows, byID)
    ensures
      var g, a := row.group.id, Lookup(byID, row.accountID);
      Files(nids[g := (if g in nids then nids[g] else {}) + {a}], rows + [row], byID)
  {
    var all := rows + [row];
    var g, a := row.group.id, Lookup(byID, row.accountID);
    var nids' := nids[g := (if g in nids then nids[g] else {}) + {a}];
    assert all[|rows|] == row;
    forall h, b | h in nids' && b in nids'[h]
      ensures exists i :: 0 <= i < |all| && all[i].group.id == h && Lookup(byID, all[i].accountID) == b
    {
      if h in nids && b in nids[h] {
        var i :| 0 <= i < |rows| && rows[i].group.id == h && Lookup(byID, rows[i].accountID) == b;
        assert all[i] == rows[i];
      }
    }
    forall h | h in nids' ensures exists i :: 0 <= i < |all| && all[i].group.id == h {
      if h in nids {
        var i :| 0 <= i < |rows| && rows[i].group.id == h;
        assert all[i] == rows[i];
      }
    }
  }

  lemma FiledGroups(nids: map<int, set<Account?>>, rows: seq<JoinRow>, byID: map<int, Account>, g: int)
    requires Files(nids, rows, byID)
    ensures g in nids <==> Seen(rows, g)
  {
  }

  /** The scan callback: files each row, and keeps the first row of each group as a node. */
  method ScanGroups(rows: seq<JoinRow>, byID: map<int, Account>)
    returns (nids: map<int, set<Account?>>, neighbors: seq<Neighbor>)
    ensures Files(nids, rows, byID)
    ensures Scanned(neighbors, rows)
    ensures forall n :: n in neighbors ==> fresh(n)
  {
    nids, neighbors := map[], [];
    assert Files(nids, rows[..0], byID) && Scanned(neighbors, rows[..0]);
    hide *;
    for k := 0 to |rows|
      invariant Files(nids, rows[..k], byID)
      invariant Scanned(neighbors, rows[..k])
      invariant forall n :: n in neighbors ==> fresh(n)
    {
      var row := rows[k];
      var g, node := row.group.id, Lookup(byID, row.accountID);
      assert rows[..k + 1] == rows[..k] + [row];
      FilesExtend(nids, rows[..k], row, byID);
      FiledGroups(nids, rows[..k], byID, g);
      if g !in nids {
        nids := nids[g := {} + {node}];
        var n := new Neighbor(row.group);
        ScannedExtend(neighbors, rows[..k], row, n);
        neighbors := neighbors + [n];
      } else {
        ScannedSeen(neighbors, rows[..k], row);
        nids := nids[g := nids[g] + {node}];
      }
    }
    assert rows[..|rows|] == rows;
  }

  /** The groups picked for a node are neighbours filed under it, in neighbour order. */
  lemma {:induction false} PickedContents(
    neighbors: seq<Neighbor>, nids: map<int, set<Account?>>, a: Account, rows: seq<JoinRow>, p: seq<Neighbor>)
    requires forall i, j :: 0 <= i < j < |neighbors| ==> AppearsBefore(rows, neighbors[i].row.id, neighbors[j].row.id)
    requires p == Picked(neighbors, nids, a)
    ensures forall i :: 0 <= i < |p| ==> p[i] in neighbors && p[i].row.id in nids && a in nids[p[i].row.id]
    ensures forall n :: n in neighbors && n.row.id in nids && a in nids[n.row.id] ==> n in p
    ensures
      forall i, j :: 0 <= i < j < |p| ==> AppearsBefore(rows, p[i].row.id, p[j].row.id)
  {
    hide AppearsBefore;
    if neighbors == [] {
    } else {
      var init, last := neighbors[..|neighbors| - 1], neighbors[|neighbors| - 1];
      var q := Picked(init, nids, a);
      PickedContents(init, nids, a, rows, q);
      assert neighbors == init + [last];
      forall i | 0 <= i < |q| ensures AppearsBefore(rows, q[i].row.id, last.row.id) {
        var n := q[i];
        assert n in init;
        var k :| 0 <= k < |init| && init[k] == n;
        assert AppearsBefore(rows, neighbors[k].row.id, neighbors[|neighbors| - 1].row.id);
      }
    }
  }

  lemma ScannedOrder(neighbors: seq<Neighbor>, rows: seq<JoinRow>)
    requires Scanned(neighbors, rows)
    ensures forall i, j :: 0 <= i < j < |neighbors| ==> AppearsBefore(rows, neighbors[i].row.id, neighbors[j].row.id)
  {
    var at := FirstRows(rows);
    forall i, j | 0 <= i < j < |neighbors| ensures AppearsBefore(rows, neighbors[i].row.id, neighbors[j].row.id) {
      assert at[i] < at[j] && FirstRow(rows, at[i]) && FirstRow(rows, at[j]);
    }
  }

  lemma ScannedDistinct(neighbors: seq<Neighbor>, rows: seq<JoinRow>)
    requires Scanned(neighbors, rows)
    ensures forall i, j :: 0 <= i < j < |neighbors| ==> neighbors[i].row.id != neighbors[j].row.id
  {
    ScannedOrder(neighbors, rows);
    forall i, j | 0 <= i < j < |neighbors| ensures neighbors[i].row.id != neighbors[j].row.id {
      AppearsBeforeStrict(rows, neighbors[i].row.id, neighbors[j].row.id);
    }
  }

  /** Some scanned group has a given id exactly when some row does. */
  lemma ScannedGroups(neighbors: seq<Neighbor>, rows: seq<JoinRow>, g: int)
    requires Scanned(neighbors, rows)
    ensures Seen(rows, g) <==> exists n :: n in neighbors && n.row.id == g
  {
    var at := FirstRows(rows);
    if Seen(rows, g) {
      var k :| 0 <= k < |rows| && rows[k].group.id == g;
      var j := FirstRowsComplete(rows, k);
      assert neighbors[j] in neighbors;
    }
    if n :| n in neighbors && n.row.id == g {
      var j :| 0 <= j < |neighbors| && neighbors[j] == n;
      assert FirstRow(rows, at[j]) && rows[at[j]].group.id == g;
    }
  }

  /** A scanned neighbour is a group as the result first shows it. */
  lemma ScannedShown(neighbors: seq<Neighbor>, rows: seq<JoinRow>, n: Neighbor)
    requires Scanned(neighbors, rows) && n in neighbors
    ensures FirstShown(rows, n.row)
  {
    var j :| 0 <= j < |neighbors| && neighbors[j] == n;
    assert FirstRow(rows, FirstRows(rows)[j]);
    hide FirstRows;
  }

  /** A group is filed under a node exactly when the node's account is linked to it, and is then scanned. */
  lemma FiledLinked(
    neighbors: seq<Neighbor>, nids: map<int, set<Account?>>, rows: seq<JoinRow>, byID: map<int, Account>, a: Account,
    id: int, g: int)
    requires Scanned(neighbors, rows) && Files(nids, rows, byID)
    requires forall x :: Lookup(byID, x) == a <==> x == id
    ensures g in nids && a in nids[g] <==> Linked(rows, id, g)
    ensures Linked(rows, id, g) ==> exists n :: n in neighbors && n.row.id == g
  {
    ScannedGroups(neighbors, rows, g);
    hide Scanned, Lookup;
    if g in nids && a in nids[g] {
      var i :| 0 <= i < |rows| && rows[i].group.id == g && Lookup(byID, rows[i].accountID) == a;
      assert rows[i].accountID == id;
    }
    if Linked(rows, id, g) {
      var i :| 0 <= i < |rows| && rows[i].accountID == id && rows[i].group.id == g;
      assert Lookup(byID, rows[i].accountID) in nids[rows[i].group.id];
    }
  }

  /** What the loader leaves in a node is the edge that the rows determine. */
  lemma PickedIsEdge(
    neighbors: seq<Neighbor>, nids: map<int, set<Account?>>, rows: seq<JoinRow>, byID: map<int, Account>,
    a: Account, id: int)
    requires Scanned(neighbors, rows) && Files(nids, rows, byID)
    requires forall x :: Lookup(byID, x) == a <==> x == id
    ensures IsEdge(rows, id, NeighborRows(Picked(neighbors, nids, a)))
  {
    hide Scanned, Files, Picked, AppearsBefore, Linked, Lookup, FirstShown;
    ScannedOrder(neighbors, rows);
    var p := Picked(neighbors, nids, a);
    PickedContents(neighbors, nids, a, rows, p);
    var edge := NeighborRows(p);
    var ids := NodeIDs(edge);
    forall g ensures g in ids <==> Linked(rows, id, g) {
      FiledLinked(neighbors, nids, rows, byID, a, id, g);
      if g in ids {
        var i :| 0 <= i < |ids| && ids[i] == g;
        assert p[i].row.id == g;
      }
      if Linked(rows, id, g) {
        var n :| n in neighbors && n.row.id == g;
        var j :| 0 <= j < |p| && p[j] == n;
        assert ids[j] == g;
      }
    }
    forall i | 0 <= i < |edge| ensures FirstShown(rows, edge[i]) {
      ScannedShown(neighbors, rows, p[i]);
    }
  }

  /** A node that the index does not hold is given nothing. */
  lemma PickedNothing(neighbors: seq<Neighbor>, nids: map<int, set<Account?>>, a: Account)
    requires forall g :: g in nids ==> a !in nids[g]
    ensures Picked(neighbors, nids, a) == []
  {
  }

  /** Gives one group to the nodes filed under it, in whatever order Go visits the inner map. */
  method AssignGroup(nodes: seq<Account>, n: Neighbor, filed: set<Account?>) returns (ok: bool)
    requires forall a :: a in filed && a != null ==> a in nodes
    modifies nodes`groups
    ensures ok <==> null !in filed
    ensures ok ==> forall a :: a in nodes ==> a.groups == old(a.groups) + if a in filed then [n] else []
  {
    var todo := filed;
    while todo != {}
      invariant todo <= filed
      invariant null in filed ==> null in todo
      invariant forall a :: a in nodes ==> a.groups == old(a.groups) + if a in filed - todo then [n] else []
    {
      var kn :| kn in todo;
      if kn == null {
        return false;
      }
      kn.groups := kn.groups + [n];
      todo := todo - {kn};
    }
    return true;
  }

  /** The second loop of loadGroups. */
  method Distribute(nodes: seq<Account>, neighbors: seq<Neighbor>, nids: map<int, set<Account?>>)
    returns (status: LoadStatus)
    requires forall g, a :: g in nids && a in nids[g] && a != null ==> a in nodes
    requires forall a :: a in nodes ==> a.groups == []
    modifies nodes`groups
    ensures status.Loaded? <==> AllKnown(neighbors, nids)
    ensures !status.UnexpectedForeignKey?
    ensures status.UnexpectedNode? ==> exists n :: n in neighbors && n.row.id !in nids
    ensures status.Loaded? ==> forall a :: a in nodes ==> a.groups == Picked(neighbors, nids, a)
  {
    for j := 0 to |neighbors|
      invariant forall i :: 0 <= i < j ==> neighbors[i].row.id in nids && null !in nids[neighbors[i].row.id]
      invariant forall a :: a in nodes ==> a.groups == Picked(neighbors[..j], nids, a)
    {
      var n := neighbors[j];
      assert neighbors[..j + 1][..j] == neighbors[..j];
      if n.row.id !in nids {
        return UnexpectedNode(n.row.id);
      }
      var ok := AssignGroup(nodes, n, nids[n.row.id]);
      if !ok {
        return NilDereference;
      }
    }
    assert neighbors[..|neighbors|] == neighbors;
    return Loaded;
  }

  method ClearGroups(nodes: seq<Account>)
    modifies nodes`groups
    ensures forall a :: a in nodes ==> a.groups == []
  {
    for i := 0 to |nodes|
      invariant forall k :: 0 <= k < i ==> nodes[k].groups == []
    {
      nodes[i].groups := [];
    }
  }

  /** Every node holds the edge the rows determine, of the shared neighbours. */
  ghost predicate HoldEdges(nodes: seq<Account>, rows: seq<JoinRow>, neighbors: seq<Neighbor>)
    reads nodes`rec, nodes`groups
  {
    && (forall a :: a in nodes ==>
          NeighborRows(a.groups) == if Indexed(nodes, a) then EdgeOf(rows, a.rec.id) else [])
    && (forall a, i :: a in nodes && 0 <= i < |a.groups| ==> a.groups[i] in neighbors)
  }

  lemma FiledNodes(nids: map<int, set<Account?>>, rows: seq<JoinRow>, byID: map<int, Account>, nodes: seq<Account>)
    requires Files(nids, rows, byID) && forall id :: id in byID ==> byID[id] in nodes
    ensures forall g, a :: g in nids && a in nids[g] && a != null ==> a in nodes
  {
  }

  lemma FiledUnder(nids: map<int, set<Account?>>, rows: seq<JoinRow>, byID: map<int, Account>, a: Account)
    requires Files(nids, rows, byID)
    ensures (forall id :: Lookup(byID, id) != a) ==> forall g :: g in nids ==> a !in nids[g]
  {
  }

  lemma PickedIsRight(
    nodes: seq<Account>, neighbors: seq<Neighbor>, nids: map<int, set<Account?>>, rows: seq<JoinRow>,
    byID: map<int, Account>, a: Account, p: seq<Neighbor>)
    requires Scanned(neighbors, rows) && Files(nids, rows, byID) && a in nodes && p == Picked(neighbors, nids, a)
    requires forall id :: id in byID ==> byID[id].rec.id == id && Indexed(nodes, byID[id])
    requires a in nodes && Indexed(nodes, a) ==> a.rec.id in byID && byID[a.rec.id] == a
    ensures NeighborRows(p) == if Indexed(nodes, a) then EdgeOf(rows, a.rec.id) else []
    ensures forall i :: 0 <= i < |p| ==> p[i] in neighbors
  {
    hide Scanned, Files, IsEdge, EdgeOf;
    ScannedOrder(neighbors, rows);
    PickedContents(neighbors, nids, a, rows, p);
    if Indexed(nodes, a) {
      PickedIsEdge(neighbors, nids, rows, byID, a, a.rec.id);
      EdgeOfIsEdge(rows, a.rec.id);
      EdgeUnique(rows, a.rec.id, NeighborRows(p), EdgeOf(rows, a.rec.id));
    } else {
      FiledUnder(nids, rows, byID, a);
      PickedNothing(neighbors, nids, a);
    }
  }

  lemma AllFiled(
    neighbors: seq<Neighbor>, nids: map<int, set<Account?>>, rows: seq<JoinRow>, byID: map<int, Account>, ids: seq<int>)
    requires Scanned(neighbors, rows) && Files(nids, rows, byID) && forall id :: id in byID <==> id in ids
    ensures forall n :: n in neighbors ==> n.row.id in nids
    ensures
      AllKnown(neighbors, nids) <==> Requested(rows, ids)
  {
    hide Scanned, FirstRows;
    forall n | n in neighbors ensures n.row.id in nids && Seen(rows, n.row.id) {
      ScannedGroups(neighbors, rows, n.row.id);
    }
    forall i | 0 <= i < |rows| ensures exists n :: n in neighbors && n.row.id == rows[i].group.id {
      ScannedGroups(neighbors, rows, rows[i].group.id);
    }
  }

  lemma EdgesRight(
    nodes: seq<Account>, neighbors: seq<Neighbor>, nids: map<int, set<Account?>>, rows: seq<JoinRow>,
    ids: seq<int>, byID: map<int, Account>)
    requires Scanned(neighbors, rows) && Files(nids, rows, byID) && IsIndex(nodes, ids, byID)
    requires forall a :: a in nodes ==> a.groups == Picked(neighbors, nids, a)
    ensures HoldEdges(nodes, rows, neighbors)
  {
    hide Scanned, Files, EdgeOf, Indexed, Picked;
    forall a | a in nodes
      ensures NeighborRows(a.groups) == if Indexed(nodes, a) then EdgeOf(rows, a.rec.id) else []
      ensures forall i :: 0 <= i < |a.groups| ==> a.groups[i] in neighbors
    {
      PickedIsRight(nodes, neighbors, nids, rows, byID, a, a.groups);
    }
  }

  method FillGroups(
    nodes: seq<Account>, neighbors: seq<Neighbor>, nids: map<int, set<Account?>>, rows: seq<JoinRow>,
    ids: seq<int>, byID: map<int, Account>) returns (status: LoadStatus)
    requires Scanned(neighbors, rows) && Files(nids, rows, byID) && IsIndex(nodes, ids, byID)
    requires forall a :: a in nodes ==> a.groups == []
    modifies nodes`groups
    ensures status == Loaded || status == NilDereference
    ensures status.Loaded? <==> Requested(rows, ids)
    ensures status.Loaded? ==> HoldEdges(nodes, rows, neighbors)
  {
    FiledNodes(nids, rows, byID, nodes);
    AllFiled(neighbors, nids, rows, byID, ids);
    hide Scanned, Files, Indexed, Requested;
    status := Distribute(nodes, neighbors, nids);
    if status.Loaded? {
      EdgesRight(nodes, neighbors, nids, rows, ids, byID);
    }
  }

  /**
   Loads the "groups" edge with one query. It succeeds exactly when every returned row
   belongs to a requested account, and then every node holds the edge that a nested-loop
   join over the rows gives it, group row for group row, whatever order the inner map is visited in. Of several
   nodes with one id, the last takes the edge and the others stay empty.
   */
  method LoadGroups(nodes: seq<Account>, query: seq<int> -> seq<JoinRow>)
    returns (status: LoadStatus, neighbors: seq<Neighbor>)
    modifies nodes`groups
    ensures status == Loaded || status == NilDereference
    ensures status.Loaded? <==> Requested(query(IDs(nodes)), IDs(nodes))
    ensures Scanned(neighbors, query(IDs(nodes)))
    ensures forall i, j :: 0 <= i < j < |neighbors| ==> neighbors[i].row.id != neighbors[j].row.id
    ensures status.Loaded? ==> HoldEdges(nodes, query(IDs(nodes)), neighbors)
  {
    hide *;
    var ids, byID := IndexByID(nodes);
    ClearGroups(nodes);
    var rows := query(ids);
    var nids;
    nids, neighbors := ScanGroups(rows, byID);
    ScannedDistinct(neighbors, rows);
    status := FillGroups(nodes, neighbors, nids, rows, ids, byID);
  }
}
