/**
 A loader of an edge to many neighbours over a foreign key that may be nil:
 loadAdoptionDecisions of backend/ent/authidentity_query.go.
 */
module AuthIdentityLoading {
  import opened Common
  import opened Projection

  datatype DecisionRow = DecisionRow(id: int, identityID: Option<int>)

  class IdentityAdoptionDecision {
    const row: DecisionRow

    constructor (row: DecisionRow)
      ensures this.row == row
    {
      this.row := row;
    }
  }

  class AuthIdentity {
    const id: int
    var adoptionDecisions: seq<IdentityAdoptionDecision>

    constructor (id: int)
      ensures this.id == id && adoptionDecisions == []
    {
      this.id, adoptionDecisions := id, [];
    }
  }

  /** The neighbour query: its selected fields, and the rows it returns for the requested ids. */
  datatype DecisionPlan = DecisionPlan(fields: seq<DecisionColumn>, run: seq<int> -> seq<DecisionRow>)

  datatype DecisionStatus = Loaded | NilForeignKey(node: int) | UnexpectedForeignKey(key: int, node: int)

  // ---------- the specification ----------

  function IdentityIDs(nodes: seq<AuthIdentity>): (ids: seq<int>)
    ensures |ids| == |nodes| && forall i :: 0 <= i < |ids| ==> ids[i] == nodes[i].id
  {
    Map(nodes, (a: AuthIdentity) => a.id)
  }

  /** The row belongs to an identity that was asked for. */
  predicate Belongs(row: DecisionRow, ids: seq<int>) {
    row.identityID.Some? && row.identityID.value in ids
  }

  ghost predicate AllBelong(rows: seq<DecisionRow>, ids: seq<int>) {
    forall i :: 0 <= i < |rows| ==> Belongs(rows[i], ids)
  }

  /** Row i is the first that does not belong. */
  ghost predicate FirstStray(rows: seq<DecisionRow>, ids: seq<int>, i: int) {
    0 <= i < |rows| && AllBelong(rows[..i], ids) && !Belongs(rows[i], ids)
  }

  function StrayError(row: DecisionRow): DecisionStatus {
    match row.identityID
    case None => NilForeignKey(row.id)
    case Some(k) => UnexpectedForeignKey(k, row.id)
  }

  function DecisionBelongsTo(identity: int): DecisionRow -> bool {
    (r: DecisionRow) => r.identityID == Some(identity)
  }

  /** The rows of one identity, in the order returned. */
  function DecisionsOf(rows: seq<DecisionRow>, identity: int): seq<DecisionRow> {
    Filter(rows, DecisionBelongsTo(identity))
  }

  function DecisionRows(ds: seq<IdentityAdoptionDecision>): (rows: seq<DecisionRow>)
    ensures |rows| == |ds| && forall i :: 0 <= i < |rows| ==> rows[i] == ds[i].row
  {
    Map(ds, (d: IdentityAdoptionDecision) => d.row)
  }

  /** What node `a` should hold: its own rows, if it is the last node with its id. */
  ghost function Due(nodes: seq<AuthIdentity>, rows: seq<DecisionRow>, a: AuthIdentity): seq<DecisionRow> {
    if exists i :: LastAt(IdentityIDs(nodes), i) && nodes[i] == a then DecisionsOf(rows, a.id) else []
  }

  ghost predicate HoldDecisions(nodes: seq<AuthIdentity>, rows: seq<DecisionRow>)
    reads nodes`adoptionDecisions
  {
    forall a :: a in nodes ==> DecisionRows(a.adoptionDecisions) == Due(nodes, rows, a)
  }

  // ---------- the loader ----------

  ghost predicate IsIdentityIndex(nodes: seq<AuthIdentity>, nodeids: map<int, AuthIdentity>) {
    && (forall k :: k in nodeids <==> k in IdentityIDs(nodes))
    && (forall k :: k in nodeids ==>
          exists i :: LastAt(IdentityIDs(nodes), i) && nodes[i].id == k && nodes[i] == nodeids[k])
  }

  lemma IdentityIndexExtend(nodes: seq<AuthIdentity>, nodeids: map<int, AuthIdentity>, last: AuthIdentity)
    requires IsIdentityIndex(nodes, nodeids)
    ensures IsIdentityIndex(nodes + [last], nodeids[last.id := last])
  {
    var after, nodeids' := nodes + [last], nodeids[last.id := last];
    assert IdentityIDs(after) == IdentityIDs(nodes) + [last.id];
    assert LastAt(IdentityIDs(after), |nodes|);
    forall k | k in nodeids'
      ensures exists i :: LastAt(IdentityIDs(after), i) && after[i].id == k && after[i] == nodeids'[k]
    {
      if k != last.id {
        var i :| LastAt(IdentityIDs(nodes), i) && nodes[i].id == k && nodes[i] == nodeids[k];
        assert LastAt(IdentityIDs(after), i);
      }
    }
  }

  method IndexIdentities(nodes: seq<AuthIdentity>) returns (fks: seq<int>, nodeids: map<int, AuthIdentity>)
    modifies nodes`adoptionDecisions
    ensures fks == IdentityIDs(nodes) && IsIdentityIndex(nodes, nodeids)
    ensures forall a :: a in nodes ==> a.adoptionDecisions == []
  {
    fks, nodeids := [], map[];
    for i := 0 to |nodes|
      invariant fks == IdentityIDs(nodes[..i]) && IsIdentityIndex(nodes[..i], nodeids)
      invariant forall k :: 0 <= k < i ==> nodes[k].adoptionDecisions == []
    {
      IdentityIndexExtend(nodes[..i], nodeids, nodes[i]);
      assert nodes[..i + 1] == nodes[..i] + [nodes[i]];
      hide IsIdentityIndex;
      fks := fks + [nodes[i].id];
      nodeids := nodeids[nodes[i].id := nodes[i]];
      nodes[i].adoptionDecisions := [];
    }
    assert nodes[..|nodes|] == nodes;
  }

  /** A row as scanned: its foreign key is nil unless that column is selected. */
  function ScanDecision(row: DecisionRow, keyed: bool): DecisionRow {
    DecisionRow(row.id, if keyed then row.identityID else None)
  }

  /** query.All, under the columns the query selects. */
  method MaterializeDecisions(rows: seq<DecisionRow>, fields: seq<DecisionColumn>)
    returns (ds: seq<IdentityAdoptionDecision>)
    ensures |ds| == |rows|
    ensures forall i :: 0 <= i < |rows| ==>
      ds[i].row == ScanDecision(rows[i], Selects(fields, DecisionID, DecisionIdentityID))
  {
    ds := [];
    var keyed := Selects(fields, DecisionID, DecisionIdentityID);
    for i := 0 to |rows|
      invariant |ds| == i && forall k :: 0 <= k < i ==> ds[k].row == ScanDecision(rows[k], keyed)
    {
      var d := new IdentityAdoptionDecision(ScanDecision(rows[i], keyed));
      ds := ds + [d];
    }
  }

  lemma ScannedWhole(neighbors: seq<IdentityAdoptionDecision>, rows: seq<DecisionRow>)
    requires |neighbors| == |rows| && forall i :: 0 <= i < |rows| ==> neighbors[i].row == ScanDecision(rows[i], true)
    ensures DecisionRows(neighbors) == rows
  {
  }

  lemma BelongStep(rows: seq<DecisionRow>, ids: seq<int>, j: nat)
    requires j < |rows| && AllBelong(rows[..j], ids)
    ensures Belongs(rows[j], ids) ==> AllBelong(rows[..j + 1], ids)
    ensures !Belongs(rows[j], ids) ==> FirstStray(rows, ids, j) && !AllBelong(rows, ids)
  {
  }

  lemma DueStep(nodes: seq<AuthIdentity>, rows: seq<DecisionRow>, j: nat, node: AuthIdentity, a: AuthIdentity)
    requires j < |rows| && rows[j].identityID == Some(node.id) && a in nodes
    requires exists i :: LastAt(IdentityIDs(nodes), i) && nodes[i] == node
    ensures Due(nodes, rows[..j + 1], a) == Due(nodes, rows[..j], a) + if a == node then [rows[j]] else []
  {
    assert rows[..j + 1] == rows[..j] + [rows[j]];
    FilterExtend(rows[..j], rows[j], DecisionBelongsTo(a.id));
    hide Filter;
  }

  method AppendDecision(
    nodes: seq<AuthIdentity>, node: AuthIdentity, n: IdentityAdoptionDecision, ghost rows: seq<DecisionRow>,
    ghost j: nat)
    requires j < |rows| && rows[j] == n.row && n.row.identityID == Some(node.id)
    requires exists i :: LastAt(IdentityIDs(nodes), i) && nodes[i] == node
    requires HoldDecisions(nodes, rows[..j])
    modifies node`adoptionDecisions
    ensures HoldDecisions(nodes, rows[..j + 1])
  {
    forall a | a in nodes
      ensures Due(nodes, rows[..j + 1], a) == Due(nodes, rows[..j], a) + if a == node then [rows[j]] else []
    {
      DueStep(nodes, rows, j, node, a);
    }
    hide Due;
    node.adoptionDecisions := node.adoptionDecisions + [n];
    assert forall a :: a in nodes && a != node ==>
      DecisionRows(a.adoptionDecisions) == DecisionRows(old(a.adoptionDecisions));
    assert DecisionRows(node.adoptionDecisions) == DecisionRows(old(node.adoptionDecisions)) + [n.row];
  }

  method DistributeDecisions(
    nodes: seq<AuthIdentity>, neighbors: seq<IdentityAdoptionDecision>, ghost rows: seq<DecisionRow>,
    nodeids: map<int, AuthIdentity>)
    returns (status: DecisionStatus)
    requires IsIdentityIndex(nodes, nodeids) && DecisionRows(neighbors) == rows
    requires forall a :: a in nodes ==> a.adoptionDecisions == []
    modifies nodes`adoptionDecisions
    ensures status.Loaded? <==> AllBelong(rows, IdentityIDs(nodes))
    ensures status.Loaded? ==> HoldDecisions(nodes, rows)
    ensures !status.Loaded? ==>
      exists i :: FirstStray(rows, IdentityIDs(nodes), i) && status == StrayError(rows[i])
  {
    ghost var ids := IdentityIDs(nodes);
    assert HoldDecisions(nodes, rows[..0]) && AllBelong(rows[..0], ids);
    hide HoldDecisions, AllBelong, FirstStray, DecisionsOf, Due;
    for j := 0 to |neighbors|
      invariant AllBelong(rows[..j], ids)
      invariant HoldDecisions(nodes, rows[..j])
    {
      var n := neighbors[j];
      BelongStep(rows, ids, j);
      if n.row.identityID.None? {
        return NilForeignKey(n.row.id);
      }
      var fk := n.row.identityID.value;
      if fk !in nodeids {
        return UnexpectedForeignKey(fk, n.row.id);
      }
      AppendDecision(nodes, nodeids[fk], n, rows, j);
    }
    assert rows[..|rows|] == rows;
    return Loaded;
  }

  /**
   Loads the edge. It succeeds exactly when every returned row has a foreign key that was
   asked for, however the query selects its fields; it then leaves each node with its own
   rows in the order returned (of nodes with one id, only the last). Otherwise it reports
   the first row that does not belong: a nil key, or one that was not asked for.
   */
  method LoadAdoptionDecisions(nodes: seq<AuthIdentity>, plan: DecisionPlan) returns (status: DecisionStatus)
    modifies nodes`adoptionDecisions
    ensures
      var rows, ids := plan.run(IdentityIDs(nodes)), IdentityIDs(nodes);
      && (status.Loaded? <==> AllBelong(rows, ids))
      && (status.Loaded? ==> HoldDecisions(nodes, rows))
      && (!status.Loaded? ==> exists i :: FirstStray(rows, ids, i) && status == StrayError(rows[i]))
  {
    hide *;
    var fks, nodeids := IndexIdentities(nodes);
    KeySelected(plan.fields, DecisionID, DecisionIdentityID);
    var rows := plan.run(fks);
    var neighbors := MaterializeDecisions(rows, WithKey(plan.fields, DecisionIdentityID));
    ScannedWhole(neighbors, rows);
    status := DistributeDecisions(nodes, neighbors, rows, nodeids);
  }

  // ---------- what the edge holds ----------

  lemma DecisionsOfContents(rows: seq<DecisionRow>, identity: int)
    ensures forall r :: r in DecisionsOf(rows, identity) <==> r in rows && r.identityID == Some(identity)
    ensures exists at :: Picks(rows, DecisionBelongsTo(identity), DecisionsOf(rows, identity), at)
  {
    FilterContents(rows, DecisionBelongsTo(identity), DecisionsOf(rows, identity));
    var at := FilterPicks(rows, DecisionBelongsTo(identity));
    hide Filter;
  }

  predicate HasRow(a: AuthIdentity, r: DecisionRow)
    reads a
  {
    r in DecisionRows(a.adoptionDecisions)
  }

  /** Loaded on nodes with distinct ids, the edges share out the rows: each row is at exactly one node. */
  lemma RowsAreSharedOut(nodes: seq<AuthIdentity>, rows: seq<DecisionRow>, r: DecisionRow)
    requires NoDuplicates(IdentityIDs(nodes)) && AllBelong(rows, IdentityIDs(nodes)) && HoldDecisions(nodes, rows)
    requires r in rows
    ensures exists i ::
      0 <= i < |nodes| && HasRow(nodes[i], r) && forall j :: 0 <= j < |nodes| && j != i ==> !HasRow(nodes[j], r)
  {
    var k :| 0 <= k < |rows| && rows[k] == r;
    assert Belongs(rows[k], IdentityIDs(nodes));
    var i :| 0 <= i < |nodes| && IdentityIDs(nodes)[i] == r.identityID.value;
    NoDuplicatesLastAt(IdentityIDs(nodes));
    forall j | 0 <= j < |nodes| ensures HasRow(nodes[j], r) <==> j == i {
      assert i != j ==> IdentityIDs(nodes)[i] != IdentityIDs(nodes)[j];
      assert LastAt(IdentityIDs(nodes), j) && nodes[j] in nodes;
      DecisionsOfContents(rows, nodes[j].id);
    }
  }
}
