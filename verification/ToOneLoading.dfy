/**
 Loaders of an edge to one neighbour, over a foreign key that may be nil: loadProxy and
 loadOwner of backend/ent/account_query.go, loadAccount and loadGroup of
 backend/ent/accountgroup_query.go.
 */
module ToOneLoading {
  import opened Common
  import opened Entities
  import opened EagerLoading

  // ---------- the index from foreign key to nodes ----------

  /** The foreign keys that are set, each once, in order of first appearance. */
  function DistinctKeys(keys: seq<Option<int>>): seq<int> {
    if keys == [] then []
    else
      var ids, last := DistinctKeys(keys[..|keys| - 1]), keys[|keys| - 1];
      if last.Some? && last.value !in ids then ids + [last.value] else ids
  }

  lemma {:induction false} DistinctKeysContents(keys: seq<Option<int>>, ids: seq<int>)
    requires ids == DistinctKeys(keys)
    ensures forall k :: k in ids <==> Some(k) in keys
    ensures NoDuplicates(ids)
  {
    if keys == [] {
    } else {
      var init := keys[..|keys| - 1];
      DistinctKeysContents(init, DistinctKeys(init));
      assert keys == init + [keys[|keys| - 1]];
    }
  }

  /** The nodes whose foreign key is `k`, in order. */
  function Grouped<P>(nodes: seq<P>, keys: seq<Option<int>>, k: int): seq<P>
    requires |nodes| == |keys|
  {
    if nodes == [] then []
    else
      var n := |nodes| - 1;
      Grouped(nodes[..n], keys[..n], k) + if keys[n] == Some(k) then [nodes[n]] else []
  }

  lemma {:induction false} GroupedSource<P>(nodes: seq<P>, keys: seq<Option<int>>, k: int, x: P)
    requires |nodes| == |keys| && x in Grouped(nodes, keys, k)
    ensures exists i :: 0 <= i < |nodes| && nodes[i] == x && keys[i] == Some(k)
  {
    var n := |nodes| - 1;
    if keys[n] == Some(k) && nodes[n] == x {
    } else {
      GroupedSource(nodes[..n], keys[..n], k, x);
      var i :| 0 <= i < n && nodes[..n][i] == x && keys[..n][i] == Some(k);
      assert nodes[i] == x && keys[i] == Some(k);
    }
  }

  lemma {:induction false} GroupedComplete<P>(nodes: seq<P>, keys: seq<Option<int>>, k: int, i: int)
    requires |nodes| == |keys| && 0 <= i < |nodes| && keys[i] == Some(k)
    ensures nodes[i] in Grouped(nodes, keys, k)
  {
    var n := |nodes| - 1;
    if i == n {
    } else {
      GroupedComplete(nodes[..n], keys[..n], k, i);
    }
  }

  lemma {:induction false} GroupedMembers<P>(nodes: seq<P>, keys: seq<Option<int>>, k: int)
    requires |nodes| == |keys|
    requires forall i, j :: 0 <= i < |nodes| && 0 <= j < |nodes| && nodes[i] == nodes[j] ==> keys[i] == keys[j]
    ensures forall i :: 0 <= i < |nodes| ==> (nodes[i] in Grouped(nodes, keys, k) <==> keys[i] == Some(k))
  {
    forall x | x in Grouped(nodes, keys, k)
      ensures exists i :: 0 <= i < |nodes| && nodes[i] == x && keys[i] == Some(k)
    {
      GroupedSource(nodes, keys, k, x);
    }
    forall i | 0 <= i < |nodes| && keys[i] == Some(k) ensures nodes[i] in Grouped(nodes, keys, k) {
      GroupedComplete(nodes, keys, k, i);
    }
  }

  /** The index of the first `keys`: ids in order, and the nodes of each id. */
  ghost predicate IsKeyIndex<P>(nodes: seq<P>, keys: seq<Option<int>>, ids: seq<int>, nodeids: map<int, seq<P>>)
    requires |nodes| == |keys|
  {
    && ids == DistinctKeys(keys)
    && (forall k :: k in nodeids <==> k in ids)
    && (forall k :: Grouped(nodes, keys, k) == if k in nodeids then nodeids[k] else [])
  }

  lemma NoKeyIndex<P>(nodes: seq<P>, keys: seq<Option<int>>)
    requires nodes == [] && keys == []
    ensures IsKeyIndex(nodes, keys, [], map[])
  {
  }

  lemma GroupedExtend<P>(nodes: seq<P>, keys: seq<Option<int>>, x: P, key: Option<int>, k: int)
    requires |nodes| == |keys|
    ensures
      Grouped(nodes + [x], keys + [key], k) == Grouped(nodes, keys, k) + if key == Some(k) then [x] else []
  {
    assert (nodes + [x])[..|nodes|] == nodes && (keys + [key])[..|keys|] == keys;
  }

  lemma DistinctExtend(keys: seq<Option<int>>, key: Option<int>)
    ensures
      var ids := DistinctKeys(keys);
      DistinctKeys(keys + [key]) == if key.Some? && key.value !in ids then ids + [key.value] else ids
  {
    assert (keys + [key])[..|keys|] == keys;
  }

  lemma KeyIndexExtend<P>(
    nodes: seq<P>, keys: seq<Option<int>>, ids: seq<int>, nodeids: map<int, seq<P>>, x: P, key: Option<int>)
    requires |nodes| == |keys| && IsKeyIndex(nodes, keys, ids, nodeids)
    ensures key.None? ==> IsKeyIndex(nodes + [x], keys + [key], ids, nodeids)
    ensures key.Some? ==>
      var fk := key.value;
      var ids' := if fk in nodeids then ids else ids + [fk];
      var old' := if fk in nodeids then nodeids[fk] else [];
      IsKeyIndex(nodes + [x], keys + [key], ids', nodeids[fk := old' + [x]])
  {
    DistinctExtend(keys, key);
    hide Grouped, DistinctKeys;
    forall k ensures
      Grouped(nodes + [x], keys + [key], k) == Grouped(nodes, keys, k) + if key == Some(k) then [x] else []
    {
      GroupedExtend(nodes, keys, x, key, k);
    }
  }

  /** The first loop of a to-one loader; nodes with a nil key are skipped. */
  method IndexByKey<P>(nodes: seq<P>, keys: seq<Option<int>>) returns (ids: seq<int>, nodeids: map<int, seq<P>>)
    requires |nodes| == |keys|
    ensures IsKeyIndex(nodes, keys, ids, nodeids)
  {
    hide *;
    ids, nodeids := [], map[];
    NoKeyIndex(nodes[..0], keys[..0]);
    for i := 0 to |nodes|
      invariant IsKeyIndex(nodes[..i], keys[..i], ids, nodeids)
    {
      KeyIndexExtend(nodes[..i], keys[..i], ids, nodeids, nodes[i], keys[i]);
      assert nodes[..i + 1] == nodes[..i] + [nodes[i]] && keys[..i + 1] == keys[..i] + [keys[i]];
      if keys[i].Some? {
        var fk := keys[i].value;
        if fk !in nodeids {
          ids := ids + [fk];
          nodeids := nodeids[fk := [] + [nodes[i]]];
        } else {
          nodeids := nodeids[fk := nodeids[fk] + [nodes[i]]];
        }
      }
    }
    assert keys[..|keys|] == keys && nodes[..|nodes|] == nodes;
  }

  // ---------- what the edge is set to ----------

  /** The returned row with the given id; of several, the last. */
  function LastMatch(rows: seq<NodeRow>, key: Option<int>): Option<NodeRow> {
    if key.None? || rows == [] then None
    else if rows[|rows| - 1].id == key.value then Some(rows[|rows| - 1])
    else LastMatch(rows[..|rows| - 1], key)
  }

  /** The row has the id, and no later row does. */
  ghost predicate IsLastMatch(rows: seq<NodeRow>, id: int, i: int) {
    0 <= i < |rows| && rows[i].id == id && forall j :: i < j < |rows| ==> rows[j].id != id
  }

  /** A match is found exactly when the key is set and some row has it, and it is the last such row. */
  lemma {:induction false} LastMatchFound(rows: seq<NodeRow>, key: Option<int>)
    ensures LastMatch(rows, key).Some? <==> key.Some? && exists r :: r in rows && r.id == key.value
    ensures LastMatch(rows, key).Some? ==>
      LastMatch(rows, key).value in rows && LastMatch(rows, key).value.id == key.value
    ensures LastMatch(rows, key).Some? ==>
      exists i :: IsLastMatch(rows, key.value, i) && LastMatch(rows, key) == Some(rows[i])
  {
    if rows == [] {
    } else {
      var n := |rows| - 1;
      LastMatchFound(rows[..n], key);
      assert rows == rows[..n] + [rows[n]];
      if key == Some(rows[n].id) {
        assert IsLastMatch(rows, key.value, n);
      } else if LastMatch(rows, key).Some? {
        var i :| IsLastMatch(rows[..n], key.value, i) && LastMatch(rows[..n], key) == Some(rows[..n][i]);
        assert IsLastMatch(rows, key.value, i);
      }
    }
  }

  /** The edge after the neighbours have been assigned in turn over what was there `before`. */
  ghost function Resolve(neighbors: seq<Neighbor>, key: Option<int>, before: Neighbor?): Neighbor? {
    if key.None? || neighbors == [] then before
    else if neighbors[|neighbors| - 1].row.id == key.value then neighbors[|neighbors| - 1]
    else Resolve(neighbors[..|neighbors| - 1], key, before)
  }

  lemma ResolveNothing(neighbors: seq<Neighbor>)
    ensures forall key, before :: Resolve(neighbors[..0], key, before) == before
  {
  }

  lemma ResolveExtend(neighbors: seq<Neighbor>, j: int)
    requires 0 <= j < |neighbors|
    ensures forall key, before ::
      Resolve(neighbors[..j + 1], key, before) ==
      if key == Some(neighbors[j].row.id) then neighbors[j] else Resolve(neighbors[..j], key, before)
  {
    var upTo := neighbors[..j + 1];
    assert upTo[..j] == neighbors[..j] && upTo[j] == neighbors[j];
    forall key, before ensures
      Resolve(upTo, key, before) ==
      if key == Some(neighbors[j].row.id) then neighbors[j] else Resolve(neighbors[..j], key, before)
    {
      if key.Some? && neighbors[j].row.id != key.value {
        assert Resolve(upTo, key, before) == Resolve(upTo[..j], key, before);
      }
    }
  }

  lemma ResolveRow(neighbors: seq<Neighbor>, rows: seq<NodeRow>, key: Option<int>, before: Neighbor?)
    requires NeighborRows(neighbors) == rows
    ensures RowOf(Resolve(neighbors, key, before)) ==
            if LastMatch(rows, key).Some? then LastMatch(rows, key) else RowOf(before)
  {
  }

  /** query.All of a neighbour query: one fresh entity for each returned row. */
  method Materialize(rows: seq<NodeRow>) returns (neighbors: seq<Neighbor>)
    ensures NeighborRows(neighbors) == rows
  {
    neighbors := [];
    for i := 0 to |rows|
      invariant NeighborRows(neighbors) == rows[..i]
    {
      var n := new Neighbor(rows[i]);
      neighbors := neighbors + [n];
    }
    assert rows[..|rows|] == rows;
  }

  /** The rows a to-one loader gets: none, without a query, when no key is set. */
  ghost function ReturnedRows(keys: seq<Option<int>>, query: seq<int> -> seq<NodeRow>): seq<NodeRow> {
    if DistinctKeys(keys) == [] then [] else query(DistinctKeys(keys))
  }

  lemma RowsReturned<P>(
    nodes: seq<P>, keys: seq<Option<int>>, ids: seq<int>, nodeids: map<int, seq<P>>, query: seq<int> -> seq<NodeRow>)
    requires |nodes| == |keys| && IsKeyIndex(nodes, keys, ids, nodeids)
    ensures ids == DistinctKeys(keys) && ReturnedRows(keys, query) == if ids == [] then [] else query(ids)
  {
  }

  /** Every returned row has a requested id. */
  ghost predicate Answers(rows: seq<NodeRow>, keys: seq<Option<int>>) {
    forall i :: 0 <= i < |rows| ==> Some(rows[i].id) in keys
  }

  lemma KeysIndexed<P>(nodes: seq<P>, keys: seq<Option<int>>, nodeids: map<int, seq<P>>)
    requires |nodes| == |keys| && IsKeyIndex(nodes, keys, DistinctKeys(keys), nodeids)
    ensures forall k :: k in nodeids <==> k in DistinctKeys(keys)
  {
  }

  lemma HandoutStart(neighbors: seq<Neighbor>, ids: seq<int>, asked: seq<int>)
    requires ids == NodeIDs(NeighborRows(neighbors))
    ensures |ids| == |neighbors| && forall i :: 0 <= i < |ids| ==> ids[i] == neighbors[i].row.id
    ensures Handout(ids[..0], asked).Loaded?
  {
  }

  /** Handing out succeeds exactly when every row answers a key. */
  lemma HandoutAnswers(rows: seq<NodeRow>, keys: seq<Option<int>>)
    ensures Handout(NodeIDs(rows), DistinctKeys(keys)).Loaded? <==> Answers(rows, keys)
  {
    DistinctKeysContents(keys, DistinctKeys(keys));
    HandoutMeans(NodeIDs(rows), DistinctKeys(keys));
    hide Handout, DistinctKeys;
  }

  lemma NoAnswers(neighbors: seq<Neighbor>, rows: seq<NodeRow>, keys: seq<Option<int>>)
    requires neighbors == [] && rows == []
    ensures NeighborRows(neighbors) == rows && Answers(rows, keys)
    ensures Handout(NodeIDs(rows), DistinctKeys(keys)).Loaded?
    ensures forall key, before :: Resolve(neighbors, key, before) == before
  {
  }

  // ---------- loadProxy ----------

  function ProxyKeys(nodes: seq<Account>): (keys: seq<Option<int>>)
    reads nodes`rec
    ensures |keys| == |nodes| && forall i :: 0 <= i < |nodes| ==> keys[i] == nodes[i].rec.proxyID
  {
    if nodes == [] then [] else ProxyKeys(nodes[..|nodes| - 1]) + [nodes[|nodes| - 1].rec.proxyID]
  }

  method AssignProxy(nodes: seq<Account>, targets: seq<Account>, n: Neighbor)
    requires forall i :: 0 <= i < |targets| ==> targets[i] in nodes
    modifies nodes`proxy
    ensures forall a :: a in nodes ==> a.proxy == if a in targets then n else old(a.proxy)
  {
    for i := 0 to |targets|
      invariant forall a :: a in nodes ==> a.proxy == if a in targets[..i] then n else old(a.proxy)
    {
      targets[i].proxy := n;
    }
    assert targets[..|targets|] == targets;
  }

  /** The nodes filed under a key are those that hold it. */
  lemma ProxyTargets(nodes: seq<Account>, nodeids: map<int, seq<Account>>, k: int)
    requires IsKeyIndex(nodes, ProxyKeys(nodes), DistinctKeys(ProxyKeys(nodes)), nodeids) && k in nodeids
    ensures
      var g := nodeids[k];
      && (forall i :: 0 <= i < |g| ==> g[i] in nodes)
      && (forall a :: a in nodes ==> (a in g <==> a.rec.proxyID == Some(k)))
  {
    var g := Grouped(nodes, ProxyKeys(nodes), k);
    GroupedMembers(nodes, ProxyKeys(nodes), k);
    forall i | 0 <= i < |g| ensures g[i] in nodes {
      GroupedSource(nodes, ProxyKeys(nodes), k, g[i]);
    }
    forall a | a in nodes ensures a in g <==> a.rec.proxyID == Some(k) {
      var i :| 0 <= i < |nodes| && nodes[i] == a;
    }
  }

  method DistributeProxy(
    nodes: seq<Account>, neighbors: seq<Neighbor>, nodeids: map<int, seq<Account>>, ghost keys: seq<Option<int>>)
    returns (status: LoadStatus)
    requires keys == ProxyKeys(nodes)
    requires IsKeyIndex(nodes, keys, DistinctKeys(keys), nodeids)
    modifies nodes`proxy
    ensures status == Handout(NodeIDs(NeighborRows(neighbors)), DistinctKeys(keys))
    ensures status.Loaded? ==> forall a :: a in nodes ==> a.proxy == Resolve(neighbors, a.rec.proxyID, old(a.proxy))
  {
    hide *;
    ResolveNothing(neighbors);
    KeysIndexed(nodes, keys, nodeids);
    ghost var ids, asked := NodeIDs(NeighborRows(neighbors)), DistinctKeys(keys);
    HandoutStart(neighbors, ids, asked);
    for j := 0 to |neighbors|
      invariant Handout(ids[..j], asked).Loaded?
      invariant forall a :: a in nodes ==> a.proxy == Resolve(neighbors[..j], a.rec.proxyID, old(a.proxy))
    {
      var n := neighbors[j];
      ResolveExtend(neighbors, j);
      HandoutStep(ids, asked, j);
      if n.row.id !in nodeids {
        return UnexpectedForeignKey(n.row.id);
      }
      ProxyTargets(nodes, nodeids, n.row.id);
      AssignProxy(nodes, nodeids[n.row.id], n);
    }
    assert neighbors[..|neighbors|] == neighbors && ids[..|ids|] == ids;
    return Loaded;
  }

  /**
   Loads the "proxy" edge. It fails exactly when some returned row has an id that was not
   asked for; otherwise each node gets the row its key names, and keeps what it had when
   the key is nil or names no row.
   */
  method LoadProxy(nodes: seq<Account>, query: seq<int> -> seq<NodeRow>)
    returns (status: LoadStatus, neighbors: seq<Neighbor>)
    modifies nodes`proxy
    ensures status == Handout(NodeIDs(ReturnedRows(ProxyKeys(nodes), query)), DistinctKeys(ProxyKeys(nodes)))
    ensures status.Loaded? <==> Answers(ReturnedRows(ProxyKeys(nodes), query), ProxyKeys(nodes))
    ensures NeighborRows(neighbors) == ReturnedRows(ProxyKeys(nodes), query)
    ensures status.Loaded? ==> forall a :: a in nodes ==> a.proxy == Resolve(neighbors, a.rec.proxyID, old(a.proxy))
  {
    hide *;
    var keys := ProxyKeys(nodes);
    var ids, nodeids := IndexByKey(nodes, keys);
    neighbors := [];
    ghost var rows := ReturnedRows(keys, query);
    RowsReturned(nodes, keys, ids, nodeids, query);
    if ids == [] {
      NoAnswers(neighbors, rows, keys);
      return Loaded, neighbors;
    }
    neighbors := Materialize(query(ids));
    HandoutAnswers(rows, keys);
    status := DistributeProxy(nodes, neighbors, nodeids, keys);
  }

  // ---------- loadOwner ----------

  function OwnerKeys(nodes: seq<Account>): (keys: seq<Option<int>>)
    reads nodes`rec
    ensures |keys| == |nodes| && forall i :: 0 <= i < |nodes| ==> keys[i] == nodes[i].rec.ownerUserID
  {
    if nodes == [] then [] else OwnerKeys(nodes[..|nodes| - 1]) + [nodes[|nodes| - 1].rec.ownerUserID]
  }

  method AssignOwner(nodes: seq<Account>, targets: seq<Account>, n: Neighbor)
    requires forall i :: 0 <= i < |targets| ==> targets[i] in nodes
    modifies nodes`owner
    ensures forall a :: a in nodes ==> a.owner == if a in targets then n else old(a.owner)
  {
    for i := 0 to |targets|
      invariant forall a :: a in nodes ==> a.owner == if a in targets[..i] then n else old(a.owner)
    {
      targets[i].owner := n;
    }
    assert targets[..|targets|] == targets;
  }

  /** The nodes filed under a key are those that hold it. */
  lemma OwnerTargets(nodes: seq<Account>, nodeids: map<int, seq<Account>>, k: int)
    requires IsKeyIndex(nodes, OwnerKeys(nodes), DistinctKeys(OwnerKeys(nodes)), nodeids) && k in nodeids
    ensures
      var g := nodeids[k];
      && (forall i :: 0 <= i < |g| ==> g[i] in nodes)
      && (forall a :: a in nodes ==> (a in g <==> a.rec.ownerUserID == Some(k)))
  {
    var g := Grouped(nodes, OwnerKeys(nodes), k);
    GroupedMembers(nodes, OwnerKeys(nodes), k);
    forall i | 0 <= i < |g| ensures g[i] in nodes {
      GroupedSource(nodes, OwnerKeys(nodes), k, g[i]);
    }
    forall a | a in nodes ensures a in g <==> a.rec.ownerUserID == Some(k) {
      var i :| 0 <= i < |nodes| && nodes[i] == a;
    }
  }

  method DistributeOwner(
    nodes: seq<Account>, neighbors: seq<Neighbor>, nodeids: map<int, seq<Account>>, ghost keys: seq<Option<int>>)
    returns (status: LoadStatus)
    requires keys == OwnerKeys(nodes)
    requires IsKeyIndex(nodes, keys, DistinctKeys(keys), nodeids)
    modifies nodes`owner
    ensures status == Handout(NodeIDs(NeighborRows(neighbors)), DistinctKeys(keys))
    ensures status.Loaded? ==> forall a :: a in nodes ==> a.owner == Resolve(neighbors, a.rec.ownerUserID, old(a.owner))
  {
    hide *;
    ResolveNothing(neighbors);
    KeysIndexed(nodes, keys, nodeids);
    ghost var ids, asked := NodeIDs(NeighborRows(neighbors)), DistinctKeys(keys);
    HandoutStart(neighbors, ids, asked);
    for j := 0 to |neighbors|
      invariant Handout(ids[..j], asked).Loaded?
      invariant forall a :: a in nodes ==> a.owner == Resolve(neighbors[..j], a.rec.ownerUserID, old(a.owner))
    {
      var n := neighbors[j];
      ResolveExtend(neighbors, j);
      HandoutStep(ids, asked, j);
      if n.row.id !in nodeids {
        return UnexpectedForeignKey(n.row.id);
      }
      OwnerTargets(nodes, nodeids, n.row.id);
      AssignOwner(nodes, nodeids[n.row.id], n);
    }
    assert neighbors[..|neighbors|] == neighbors && ids[..|ids|] == ids;
    return Loaded;
  }

  /**
   Loads the "owner" edge. It fails exactly when some returned row has an id that was not
   asked for; otherwise each node gets the row its key names, and keeps what it had when
   the key is nil or names no row.
   */
  method LoadOwner(nodes: seq<Account>, query: seq<int> -> seq<NodeRow>)
    returns (status: LoadStatus, neighbors: seq<Neighbor>)
    modifies nodes`owner
    ensures status == Handout(NodeIDs(ReturnedRows(OwnerKeys(nodes), query)), DistinctKeys(OwnerKeys(nodes)))
    ensures status.Loaded? <==> Answers(ReturnedRows(OwnerKeys(nodes), query), OwnerKeys(nodes))
    ensures NeighborRows(neighbors) == ReturnedRows(OwnerKeys(nodes), query)
    ensures status.Loaded? ==> forall a :: a in nodes ==> a.owner == Resolve(neighbors, a.rec.ownerUserID, old(a.owner))
  {
    hide *;
    var keys := OwnerKeys(nodes);
    var ids, nodeids := IndexByKey(nodes, keys);
    neighbors := [];
    ghost var rows := ReturnedRows(keys, query);
    RowsReturned(nodes, keys, ids, nodeids, query);
    if ids == [] {
      NoAnswers(neighbors, rows, keys);
      return Loaded, neighbors;
    }
    neighbors := Materialize(query(ids));
    HandoutAnswers(rows, keys);
    status := DistributeOwner(nodes, neighbors, nodeids, keys);
  }

  // ---------- loadAccount of an account_groups row ----------

  function AccountKeys(nodes: seq<AccountGroup>): (keys: seq<Option<int>>)
    ensures |keys| == |nodes| && forall i :: 0 <= i < |nodes| ==> keys[i] == nodes[i].AccountKey()
  {
    if nodes == [] then [] else AccountKeys(nodes[..|nodes| - 1]) + [nodes[|nodes| - 1].AccountKey()]
  }

  method AssignLinkAccount(nodes: seq<AccountGroup>, targets: seq<AccountGroup>, n: Neighbor)
    requires forall i :: 0 <= i < |targets| ==> targets[i] in nodes
    modifies nodes`account
    ensures forall a :: a in nodes ==> a.account == if a in targets then n else old(a.account)
  {
    for i := 0 to |targets|
      invariant forall a :: a in nodes ==> a.account == if a in targets[..i] then n else old(a.account)
    {
      targets[i].account := n;
    }
    assert targets[..|targets|] == targets;
  }

  /** The nodes filed under a key are those that hold it. */
  lemma AccountTargets(nodes: seq<AccountGroup>, nodeids: map<int, seq<AccountGroup>>, k: int)
    requires IsKeyIndex(nodes, AccountKeys(nodes), DistinctKeys(AccountKeys(nodes)), nodeids) && k in nodeids
    ensures
      var g := nodeids[k];
      && (forall i :: 0 <= i < |g| ==> g[i] in nodes)
      && (forall a :: a in nodes ==> (a in g <==> a.AccountKey() == Some(k)))
  {
    var g := Grouped(nodes, AccountKeys(nodes), k);
    GroupedMembers(nodes, AccountKeys(nodes), k);
    forall i | 0 <= i < |g| ensures g[i] in nodes {
      GroupedSource(nodes, AccountKeys(nodes), k, g[i]);
    }
    forall a | a in nodes ensures a in g <==> a.AccountKey() == Some(k) {
      var i :| 0 <= i < |nodes| && nodes[i] == a;
    }
  }

  method DistributeLinkAccount(
    nodes: seq<AccountGroup>, neighbors: seq<Neighbor>, nodeids: map<int, seq<AccountGroup>>,
    ghost keys: seq<Option<int>>)
    returns (status: LoadStatus)
    requires keys == AccountKeys(nodes)
    requires IsKeyIndex(nodes, keys, DistinctKeys(keys), nodeids)
    modifies nodes`account
    ensures status == Handout(NodeIDs(NeighborRows(neighbors)), DistinctKeys(keys))
    ensures status.Loaded? ==> forall a :: a in nodes ==>
      a.account == Resolve(neighbors, a.AccountKey(), old(a.account))
  {
    hide *;
    ResolveNothing(neighbors);
    KeysIndexed(nodes, keys, nodeids);
    ghost var ids, asked := NodeIDs(NeighborRows(neighbors)), DistinctKeys(keys);
    HandoutStart(neighbors, ids, asked);
    for j := 0 to |neighbors|
      invariant Handout(ids[..j], asked).Loaded?
      invariant forall a :: a in nodes ==> a.account == Resolve(neighbors[..j], a.AccountKey(), old(a.account))
    {
      var n := neighbors[j];
      ResolveExtend(neighbors, j);
      HandoutStep(ids, asked, j);
      if n.row.id !in nodeids {
        return UnexpectedForeignKey(n.row.id);
      }
      AccountTargets(nodes, nodeids, n.row.id);
      AssignLinkAccount(nodes, nodeids[n.row.id], n);
    }
    assert neighbors[..|neighbors|] == neighbors && ids[..|ids|] == ids;
    return Loaded;
  }

  /**
   Loads the "account" edge. It fails exactly when some returned row has an id that was not
   asked for; otherwise each node gets the row its key names, and keeps what it had when
   the key is nil or names no row.
   */
  method LoadLinkAccount(nodes: seq<AccountGroup>, query: seq<int> -> seq<NodeRow>)
    returns (status: LoadStatus, neighbors: seq<Neighbor>)
    modifies nodes`account
    ensures status == Handout(NodeIDs(ReturnedRows(AccountKeys(nodes), query)), DistinctKeys(AccountKeys(nodes)))
    ensures status.Loaded? <==> Answers(ReturnedRows(AccountKeys(nodes), query), AccountKeys(nodes))
    ensures NeighborRows(neighbors) == ReturnedRows(AccountKeys(nodes), query)
    ensures status.Loaded? ==> forall a :: a in nodes ==>
      a.account == Resolve(neighbors, a.AccountKey(), old(a.account))
  {
    hide *;
    var keys := AccountKeys(nodes);
    var ids, nodeids := IndexByKey(nodes, keys);
    neighbors := [];
    ghost var rows := ReturnedRows(keys, query);
    RowsReturned(nodes, keys, ids, nodeids, query);
    if ids == [] {
      NoAnswers(neighbors, rows, keys);
      return Loaded, neighbors;
    }
    neighbors := Materialize(query(ids));
    HandoutAnswers(rows, keys);
    status := DistributeLinkAccount(nodes, neighbors, nodeids, keys);
  }

  // ---------- loadGroup of an account_groups row ----------

  function GroupKeys(nodes: seq<AccountGroup>): (keys: seq<Option<int>>)
    ensures |keys| == |nodes| && forall i :: 0 <= i < |nodes| ==> keys[i] == nodes[i].GroupKey()
  {
    if nodes == [] then [] else GroupKeys(nodes[..|nodes| - 1]) + [nodes[|nodes| - 1].GroupKey()]
  }

  method AssignLinkGroup(nodes: seq<AccountGroup>, targets: seq<AccountGroup>, n: Neighbor)
    requires forall i :: 0 <= i < |targets| ==> targets[i] in nodes
    modifies nodes`group
    ensures forall a :: a in nodes ==> a.group == if a in targets then n else old(a.group)
  {
    for i := 0 to |targets|
      invariant forall a :: a in nodes ==> a.group == if a in targets[..i] then n else old(a.group)
    {
      targets[i].group := n;
    }
    assert targets[..|targets|] == targets;
  }

  /** The nodes filed under a key are those that hold it. */
  lemma GroupTargets(nodes: seq<AccountGroup>, nodeids: map<int, seq<AccountGroup>>, k: int)
    requires IsKeyIndex(nodes, GroupKeys(nodes), DistinctKeys(GroupKeys(nodes)), nodeids) && k in nodeids
    ensures
      var g := nodeids[k];
      && (forall i :: 0 <= i < |g| ==> g[i] in nodes)
      && (forall a :: a in nodes ==> (a in g <==> a.GroupKey() == Some(k)))
  {
    var g := Grouped(nodes, GroupKeys(nodes), k);
    GroupedMembers(nodes, GroupKeys(nodes), k);
    forall i | 0 <= i < |g| ensures g[i] in nodes {
      GroupedSource(nodes, GroupKeys(nodes), k, g[i]);
    }
    forall a | a in nodes ensures a in g <==> a.GroupKey() == Some(k) {
      var i :| 0 <= i < |nodes| && nodes[i] == a;
    }
  }

  method DistributeLinkGroup(
    nodes: seq<AccountGroup>, neighbors: seq<Neighbor>, nodeids: map<int, seq<AccountGroup>>,
    ghost keys: seq<Option<int>>)
    returns (status: LoadStatus)
    requires keys == GroupKeys(nodes)
    requires IsKeyIndex(nodes, keys, DistinctKeys(keys), nodeids)
    modifies nodes`group
    ensures status == Handout(NodeIDs(NeighborRows(neighbors)), DistinctKeys(keys))
    ensures status.Loaded? ==> forall a :: a in nodes ==> a.group == Resolve(neighbors, a.GroupKey(), old(a.group))
  {
    hide *;
    ResolveNothing(neighbors);
    KeysIndexed(nodes, keys, nodeids);
    ghost var ids, asked := NodeIDs(NeighborRows(neighbors)), DistinctKeys(keys);
    HandoutStart(neighbors, ids, asked);
    for j := 0 to |neighbors|
      invariant Handout(ids[..j], asked).Loaded?
      invariant forall a :: a in nodes ==> a.group == Resolve(neighbors[..j], a.GroupKey(), old(a.group))
    {
      var n := neighbors[j];
      ResolveExtend(neighbors, j);
      HandoutStep(ids, asked, j);
      if n.row.id !in nodeids {
        return UnexpectedForeignKey(n.row.id);
      }
      GroupTargets(nodes, nodeids, n.row.id);
      AssignLinkGroup(nodes, nodeids[n.row.id], n);
    }
    assert neighbors[..|neighbors|] == neighbors && ids[..|ids|] == ids;
    return Loaded;
  }

  /**
   Loads the "group" edge. It fails exactly when some returned row has an id that was not
   asked for; otherwise each node gets the row its key names, and keeps what it had when
   the key is nil or names no row.
   */
  method LoadLinkGroup(nodes: seq<AccountGroup>, query: seq<int> -> seq<NodeRow>)
    returns (status: LoadStatus, neighbors: seq<Neighbor>)
    modifies nodes`group
    ensures status == Handout(NodeIDs(ReturnedRows(GroupKeys(nodes), query)), DistinctKeys(GroupKeys(nodes)))
    ensures status.Loaded? <==> Answers(ReturnedRows(GroupKeys(nodes), query), GroupKeys(nodes))
    ensures NeighborRows(neighbors) == ReturnedRows(GroupKeys(nodes), query)
    ensures status.Loaded? ==> forall a :: a in nodes ==> a.group == Resolve(neighbors, a.GroupKey(), old(a.group))
  {
    hide *;
    var keys := GroupKeys(nodes);
    var ids, nodeids := IndexByKey(nodes, keys);
    neighbors := [];
    ghost var rows := ReturnedRows(keys, query);
    RowsReturned(nodes, keys, ids, nodeids, query);
    if ids == [] {
      NoAnswers(neighbors, rows, keys);
      return Loaded, neighbors;
    }
    neighbors := Materialize(query(ids));
    HandoutAnswers(rows, keys);
    status := DistributeLinkGroup(nodes, neighbors, nodeids, keys);
  }
}
