/** snapshot.Store: generations of base nodes, published whole, and never touched again but for sizes. */
module Snapshot {
  import opened Wrappers
  import opened TreeIndex
  import opened SortedPaths
  import P = Paths

  datatype Row = Row(node: Node, parent: string)

  type Table = map<string, Row>

  function ParentDir(path: string): string {
    if path == "." || path == "/" || path == "" then ""
    else
      var d := P.Dir(path);
      if d == "/" then "." else d
  }

  predicate DistinctPaths(nodes: seq<Node>) {
    forall i, j :: 0 <= i < j < |nodes| ==> nodes[i].path != nodes[j].path
  }

  /** The rows of one generation. */
  function TableOf(nodes: seq<Node>): Table {
    if nodes == [] then map[]
    else
      var last := nodes[|nodes| - 1];
      TableOf(nodes[..|nodes| - 1])[last.path := Row(last, ParentDir(last.path))]
  }

  /** Rows are listed nodes, under their own path and its parent. */
  lemma {:induction false} TableLists(nodes: seq<Node>)
    ensures forall p :: p in TableOf(nodes) <==> Lists(nodes, p)
    ensures forall p :: p in TableOf(nodes) ==> TableOf(nodes)[p].node.path == p && TableOf(nodes)[p].parent == ParentDir(p)
  {
    if nodes != [] {
      var init, last := nodes[..|nodes| - 1], nodes[|nodes| - 1];
      TableLists(init);
      forall p ensures Lists(nodes, p) <==> Lists(init, p) || p == last.path {
        if Lists(init, p) {
          var i :| 0 <= i < |init| && init[i].path == p;
          assert nodes[i].path == p;
        }
        if Lists(nodes, p) && p != last.path {
          var i :| 0 <= i < |nodes| && nodes[i].path == p;
          assert init[i].path == p;
        }
        assert p == last.path ==> nodes[|nodes| - 1].path == p;
      }
    }
  }

  /** The same row, but its size may have been filled in. */
  predicate SameButSize(r: Row, q: Row) {
    && q.parent == r.parent && q.node.path == r.node.path && q.node.kind == r.node.kind
    && q.node.mode == r.node.mode && q.node.oid == r.node.oid
    && ((q.node.size == r.node.size && q.node.known == r.node.known) || q.node.known)
  }

  predicate Backfilled(t: Table, u: Table) {
    t.Keys == u.Keys && forall p :: p in t ==> SameButSize(t[p], u[p])
  }

  lemma BackfilledTrans(t: Table, u: Table, v: Table)
    requires Backfilled(t, u) && Backfilled(u, v)
    ensures Backfilled(t, v)
  {
  }

  /** UPDATE ... SET size_bytes, size_state='known' WHERE object_oid=? for every oid of the map. */
  function WithSizes(t: Table, sizes: map<string, int>): Table {
    map p | p in t ::
      if t[p].node.oid in sizes then t[p].(node := t[p].node.(size := sizes[t[p].node.oid], known := true)) else t[p]
  }

  function Children(t: Table, parent: string): set<string> {
    set p | p in t && t[p].parent == P.CleanPath(parent)
  }

  /** Each row stands under its node's path. */
  predicate OwnPaths(t: Table) { forall p :: p in t ==> t[p].node.path == p }

  class Store {
    var rows: map<int, Table>
    var current: Option<nat>
    /** Every listing ever published, by its generation. */
    ghost var published: map<int, seq<Node>>

    constructor ()
      ensures Valid() && published == map[] && Latest() == 0
    {
      rows, current, published := map[], None, map[];
    }

    function Latest(): nat
      reads this`current
    {
      if current.Some? then current.value else 0
    }

    /** A published listing can still be read as it was, sizes apart. */
    ghost predicate Intact(gen: int)
      requires gen in published
      reads this
    {
      gen in rows && Backfilled(TableOf(published[gen]), rows[gen])
    }

    ghost predicate Valid()
      reads this
    {
      && (forall gen :: gen in rows ==> 1 <= gen <= Latest() && OwnPaths(rows[gen]))
      && (forall gen :: gen in published <==> 1 <= gen <= Latest())
      && (forall gen :: gen in published && gen >= Latest() - 1 ==> Intact(gen))
    }

    /** Publishing is all or nothing; the new generation is the next number, and the one before it stays.
        `fails`: some statement of the transaction does. */
    method PublishGeneration(nodes: seq<Node>, fails: bool, cleanupFails: bool) returns (r: Option<nat>)
      requires Valid()
      modifies this
      ensures Valid() && (r.Some? <==> DistinctPaths(nodes) && !fails)
      ensures r.Some? ==> r.value == old(Latest()) + 1 == Latest() && published == old(published)[r.value := nodes]
      ensures r.Some? ==> r.value in rows && rows[r.value] == TableOf(nodes)
      ensures r.None? ==> rows == old(rows) && current == old(current) && published == old(published)
      ensures forall gen :: gen in old(rows) && (gen >= Latest() - 1 || cleanupFails) ==> gen in rows && rows[gen] == old(rows)[gen]
    {
      var gen := if current.None? then 1 else current.value + 1;
      var table := InsertAll(nodes);
      if table.None? || fails { return None; }
      Commit(gen, table.value, nodes);
      if gen > 2 && !cleanupFails { DropBefore(gen - 1); }
      return Some(gen);
    }

    method Commit(gen: nat, table: Table, ghost nodes: seq<Node>)
      requires Valid() && gen == Latest() + 1 && table == TableOf(nodes)
      modifies this
      ensures Valid() && current == Some(gen)
      ensures rows == old(rows)[gen := table] && published == old(published)[gen := nodes]
    {
      TableLists(nodes);
      rows := rows[gen := table];
      current := Some(gen);
      published := published[gen := nodes];
      BackfilledSelf(table);
      assert forall g :: g in published && g >= gen - 1 && g != gen ==> old(Intact(g));
    }

    /** DELETE FROM base_nodes WHERE generation < keep */
    method DropBefore(keep: int)
      requires Valid() && keep <= Latest() - 1
      modifies this`rows
      ensures Valid() && rows == map g | g in old(rows) && g >= keep :: old(rows)[g]
    {
      rows := map g | g in rows && g >= keep :: rows[g];
      assert forall g :: g in published && g >= Latest() - 1 ==> old(Intact(g));
    }

    /** The inserts of one transaction; a second row for a path violates the primary key. */
    static method InsertAll(nodes: seq<Node>) returns (t: Option<Table>)
      ensures t.Some? <==> DistinctPaths(nodes)
      ensures t.Some? ==> t.value == TableOf(nodes)
    {
      var table: Table := map[];
      for i := 0 to |nodes|
        invariant table == TableOf(nodes[..i]) && DistinctPaths(nodes[..i])
      {
        var n := nodes[i];
        TableLists(nodes[..i]);
        assert nodes[..i + 1][..i] == nodes[..i];
        if n.path in table {
          Repeats(nodes, i);
          return None;
        }
        NoRepeat(nodes, i);
        table := table[n.path := Row(n, ParentDir(n.path))];
      }
      assert nodes[..|nodes|] == nodes;
      return Some(table);
    }

    /** UpdateSizes: rows of one generation get their sizes, or with an error none does. */
    method UpdateSizes(gen: int, sizes: map<string, int>, fails: bool)
      requires Valid()
      modifies this`rows
      ensures Valid()
      ensures rows == if gen in old(rows) && sizes != map[] && !fails then old(rows)[gen := WithSizes(old(rows)[gen], sizes)] else old(rows)
    {
      if sizes == map[] || fails || gen !in rows { return; }
      SizesBackfill(rows[gen], sizes);
      Refill(gen, WithSizes(rows[gen], sizes));
    }

    method Refill(gen: int, table: Table)
      requires Valid() && gen in rows && Backfilled(rows[gen], table)
      modifies this`rows
      ensures Valid() && rows == old(rows)[gen := table]
    {
      if gen in published && gen >= Latest() - 1 {
        assert Intact(gen);
        BackfilledTrans(TableOf(published[gen]), rows[gen], table);
      }
      rows := rows[gen := table];
      assert forall g :: g in published && g >= Latest() - 1 ==> old(Intact(g));
    }

    /** The children of a directory: each once, in strictly increasing path order, and nothing else. */
    method ListChildren(gen: int, parent: string) returns (nodes: seq<Node>)
      requires Valid()
      ensures forall p :: Lists(nodes, p) <==> gen in rows && p in Children(rows[gen], parent)
      ensures forall i, j :: 0 <= i < j < |nodes| ==> Less(nodes[i].path, nodes[j].path)
      ensures forall i :: 0 <= i < |nodes| ==> gen in rows && nodes[i].path in rows[gen] && nodes[i] == rows[gen][nodes[i].path].node
    {
      nodes := [];
      if gen !in rows { return; }
      var t := rows[gen];
      var paths := Sorted(Children(t, parent));
      for i := 0 to |paths|
        invariant |nodes| == i
        invariant forall j :: 0 <= j < i ==> paths[j] in t && nodes[j] == t[paths[j]].node && nodes[j].path == paths[j]
      {
        assert paths[i] in paths;
        nodes := nodes + [t[paths[i]].node];
      }
      ListsSorted(nodes, paths);
    }
  }

  lemma ListsSorted(nodes: seq<Node>, paths: seq<string>)
    requires |nodes| == |paths| && forall i :: 0 <= i < |nodes| ==> nodes[i].path == paths[i]
    ensures forall p :: Lists(nodes, p) <==> p in paths
  {
    forall p | p in paths ensures Lists(nodes, p) {
      var i :| 0 <= i < |paths| && paths[i] == p;
      assert nodes[i].path == p;
    }
  }

  lemma BackfilledSelf(t: Table)
    ensures Backfilled(t, t)
  {
  }

  lemma SizesBackfill(t: Table, sizes: map<string, int>)
    ensures Backfilled(t, WithSizes(t, sizes))
  {
  }

  lemma Repeats(nodes: seq<Node>, i: nat)
    requires i < |nodes| && Lists(nodes[..i], nodes[i].path)
    ensures !DistinctPaths(nodes)
  {
    var j :| 0 <= j < i && nodes[..i][j].path == nodes[i].path;
    assert nodes[j].path == nodes[i].path;
  }

  lemma NoRepeat(nodes: seq<Node>, i: nat)
    requires i < |nodes| && DistinctPaths(nodes[..i]) && !Lists(nodes[..i], nodes[i].path)
    ensures DistinctPaths(nodes[..i + 1])
  {
    forall j, k | 0 <= j < k < i + 1 ensures nodes[j].path != nodes[k].path {
      assert nodes[..i][j] == nodes[j];
      if k < i { assert nodes[..i][k] == nodes[k]; }
    }
  }

  // ---- a published tree hangs together ----

  predicate KeysOnly(nodes: seq<Node>) {
    forall i :: 0 <= i < |nodes| ==> P.IsKey(nodes[i].path)
  }

  lemma {:induction false} UpsAreKeys(d: string)
    requires P.IsKey(d)
    ensures forall e :: e in Ups(d) ==> P.IsKey(e)
    decreases |Ups(d)|
  {
    if !IsRoot(d) {
      P.DirShrinks(d);
      var name := P.KeyHasParent(d);
      UpsAreKeys(P.Dir(d));
    }
  }

  /** Adding the implied directories to a listing of distinct keys gives a listing of distinct keys. */
  lemma AdditionsAreKeys(r: seq<Node>, nodes: seq<Node>)
    requires Additions(r, nodes) && KeysOnly(nodes) && DistinctPaths(nodes)
    ensures KeysOnly(r) && DistinctPaths(r)
  {
    forall i | 0 <= i < |r| ensures P.IsKey(r[i].path) {
      if i < |nodes| {
        assert r[i] == nodes[i];
      } else {
        assert Implied(r[i], nodes);
        var j :| 0 <= j < |nodes| && r[i].path in Ups(P.Dir(nodes[j].path));
        DirIsKey(nodes[j].path);
        UpsAreKeys(P.Dir(nodes[j].path));
      }
    }
    forall i, j | 0 <= i < j < |r| ensures r[i].path != r[j].path {
      if j < |nodes| {
        assert r[i] == nodes[i] && r[j] == nodes[j];
      } else if i < |nodes| {
        assert r[i] == nodes[i] && Implied(r[j], nodes);
      }
    }
  }

  lemma DirIsKey(p: string)
    requires P.IsKey(p)
    ensures P.IsKey(P.Dir(p))
  {
    if p == "." {
      P.LastSlashIs(p, -1);
      assert p[..0] == "";
    } else {
      var name := P.KeyHasParent(p);
    }
  }

  lemma SlashIsNoKey()
    ensures !P.IsKey("/")
  {
    P.SplitNoSlash("", "");
    assert "" in P.Split("/") by { assert P.Split("/") == [""] + P.Split("/"[1..]); }
  }

  /** Stepping up from the path along listed directories ends at the root. */
  predicate Reaches(t: Table, p: string)
    decreases if p == "." then 0 else |p| + 1
  {
    p in t && (p == "." || ((P.Dir(p) == "." || |P.Dir(p)| < |p|) && p in Children(t, P.Dir(p)) && Reaches(t, P.Dir(p))))
  }

  predicate Closed(r: seq<Node>) {
    forall i :: 0 <= i < |r| ==> Covered(P.Dir(r[i].path), r)
  }

  lemma ParentIsDir(p: string)
    requires P.IsKey(p) && p != "."
    ensures ParentDir(p) == P.Dir(p) && P.Dir(p) != "/" && P.CleanPath(P.Dir(p)) == P.Dir(p)
  {
    SlashIsNoKey();
    var name := P.KeyHasParent(p);
    P.KeyIsClean(P.Dir(p));
    P.KeyIsClean(p);
  }

  lemma {:induction false} TableReaches(r: seq<Node>, t: Table, p: string)
    requires KeysOnly(r) && Closed(r) && Lists(r, ".") && t.Keys == TableOf(r).Keys && Backfilled(TableOf(r), t) && p in t
    ensures Reaches(t, p)
    decreases if p == "." then 0 else |p| + 1
  {
    TableLists(r);
    if p != "." {
      var i :| 0 <= i < |r| && r[i].path == p;
      ParentIsDir(p);
      P.DirShrinks(p);
      assert Covered(P.Dir(r[i].path), r);
      assert P.Dir(p) in t;
      TableReaches(r, t, P.Dir(p));
    }
  }

  /** After publishing a listing of keys with its implied directories, sizes filled in or not: every path
      is reached from the root by ListChildren, and is listed under exactly one parent, its directory. */
  lemma PublishedTreeHangsTogether(nodes: seq<Node>, r: seq<Node>, t: Table, p: string, q: string)
    requires KeysOnly(nodes) && DistinctPaths(nodes) && Lists(nodes, ".")
    requires Additions(r, nodes) && Closed(r) && Backfilled(TableOf(r), t) && p in t
    ensures DistinctPaths(r) && Reaches(t, p)
    ensures p in Children(t, q) <==> p != "." && P.CleanPath(q) == P.Dir(p)
  {
    AdditionsAreKeys(r, nodes);
    TableLists(r);
    var k :| 0 <= k < |nodes| && nodes[k].path == ".";
    assert r[k] == nodes[k];
    TableReaches(r, t, p);
    if p == "." {
      CleanIsNotEmpty(q);
    } else {
      var i :| 0 <= i < |r| && r[i].path == p;
      ParentIsDir(p);
    }
  }

  lemma CleanIsNotEmpty(q: string)
    ensures P.CleanPath(q) != ""
  {
    var kept := P.CleanPathSettled(q);
  }
}
